/** The clock of playback: the earliest audio that has not stopped owns the deadline. Times are nanoseconds. */
module Playback {
  import opened Options

  /** One piece of audio. `waitingAt` is when it became the next to play, unless it had started before that. */
  datatype Chunk = Chunk(
    started: bool,
    stopped: bool,
    interrupted: bool,
    unit: nat,
    duration: nat,
    waitingAt: Option<int>,
    startedAt: int)

  const MIN_MARGIN := 1_000_000
  const MAX_MARGIN := 30_000_000_000

  function Margin(margin: int): (m: int)
    ensures 0 < margin <= MAX_MARGIN ==> m == margin
    ensures 0 < m <= MAX_MARGIN
    ensures margin <= 0 ==> m == MIN_MARGIN
    ensures margin > MAX_MARGIN ==> m == MAX_MARGIN
  {
    if margin <= 0 then MIN_MARGIN else if margin > MAX_MARGIN then MAX_MARGIN else margin
  }

  /** The earliest audio that has not stopped, if any. */
  ghost predicate Heads(chunks: map<nat, Chunk>, head: Option<nat>) {
    match head
    case None => forall k :: k in chunks ==> chunks[k].stopped
    case Some(h) => h in chunks && !chunks[h].stopped && forall k :: k in chunks && !chunks[k].stopped ==> h <= k
  }

  /** There is exactly one. */
  lemma HeadUnique(chunks: map<nat, Chunk>, a: Option<nat>, b: Option<nat>)
    requires Heads(chunks, a) && Heads(chunks, b)
    ensures a == b
  {
  }

  /** The chunks once the head has been given its turn. */
  function Waiting(chunks: map<nat, Chunk>, head: Option<nat>, now: int): map<nat, Chunk>
    requires head.Some? ==> head.value in chunks
  {
    if head.Some? && !chunks[head.value].started && chunks[head.value].waitingAt.None?
    then chunks[head.value := chunks[head.value].(waitingAt := Some(now))] else chunks
  }

  /** When playback of the head must have got on. */
  function Due(chunks: map<nat, Chunk>, head: Option<nat>, margin: int): Option<int>
    requires head.Some? ==> head.value in chunks && (chunks[head.value].started || chunks[head.value].waitingAt.Some?)
  {
    match head
    case None => None
    case Some(h) =>
      Some(if chunks[h].started then chunks[h].startedAt + chunks[h].duration + margin else chunks[h].waitingAt.value + margin)
  }

  /** The head is given its turn, and the deadline is when it is due. */
  ghost predicate Scheduled(chunks: map<nat, Chunk>, now: int, margin: int,
                            head: Option<nat>, waiting: map<nat, Chunk>, deadline: Option<int>) {
    && Heads(chunks, head) && waiting == Waiting(chunks, head, now) && Heads(waiting, head)
    && deadline == Due(waiting, head, Margin(margin))
  }

  /** Finds the head among chunks visited in any order, and the time it is due. */
  method NextPlaybackDeadline(chunks: map<nat, Chunk>, now: int, margin: int)
    returns (waiting: map<nat, Chunk>, deadline: Option<int>)
    ensures exists head :: Scheduled(chunks, now, margin, head, waiting, deadline)
    ensures deadline.None? <==> forall k :: k in chunks ==> chunks[k].stopped
    ensures forall h :: h in chunks && !chunks[h].stopped && (forall k :: k in chunks && !chunks[k].stopped ==> h <= k) ==>
              && deadline.Some? && waiting.Keys == chunks.Keys
              && deadline.value == Margin(margin) + (if chunks[h].started then chunks[h].startedAt + chunks[h].duration
                                                     else if chunks[h].waitingAt.Some? then chunks[h].waitingAt.value else now)
  {
    var m := margin;
    if m <= 0 {
      m := MIN_MARGIN;
    }
    if m > MAX_MARGIN {
      m := MAX_MARGIN;
    }
    var next: Option<nat> := None;
    var todo := chunks.Keys;
    while todo != {}
      invariant todo <= chunks.Keys
      invariant next.Some? ==> next.value in chunks && !chunks[next.value].stopped
      invariant forall k :: k in chunks && k !in todo && !chunks[k].stopped ==> next.Some? && next.value <= k
      decreases |todo|
    {
      var k :| k in todo;
      if !chunks[k].stopped && (next.None? || k < next.value) {
        next := Some(k);
      }
      todo := todo - {k};
    }
    waiting, deadline := chunks, None;
    if next.Some? {
      var c := chunks[next.value];
      if c.started {
        deadline := Some(c.startedAt + c.duration + m);
      } else {
        if c.waitingAt.None? {
          c := c.(waitingAt := Some(now));
          waiting := waiting[next.value := c];
        }
        deadline := Some(c.waitingAt.value + m);
      }
    }
    assert Scheduled(chunks, now, margin, next, waiting, deadline);
  }

  /** The head has been next to play since `since`, and is due on time; no time passes beyond a deadline. */
  ghost predicate Timely(chunks: map<nat, Chunk>, deadline: Option<int>, head: Option<nat>, since: int, now: int, margin: int) {
    && Heads(chunks, head)
    && (forall k :: k in chunks && chunks[k].waitingAt.Some? && !chunks[k].stopped ==> Some(k) == head)
    && (forall k :: k in chunks && chunks[k].started && !chunks[k].stopped ==> chunks[k].startedAt <= now)
    && (match head
        case None => deadline == None
        case Some(h) =>
          && since <= now
          && (if chunks[h].started then chunks[h].startedAt <= since + margin else chunks[h].waitingAt == Some(since))
          && deadline == Due(chunks, head, margin)
          && (now <= since || now <= deadline.value))
  }

  /** Audio that is next to play stops, or its deadline is over, within two margins and its own duration. */
  lemma HeadIsBounded(chunks: map<nat, Chunk>, deadline: Option<int>, h: nat, since: int, now: int, margin: int)
    requires Timely(chunks, deadline, Some(h), since, now, margin) && margin > 0
    ensures deadline.Some? && deadline.value <= since + 2 * margin + chunks[h].duration
    ensures now <= since + 2 * margin + chunks[h].duration
  {
  }

  /** The deadline is never early: audio that plays is given its whole duration and a full margin, and audio that is
      next to play a full margin from when it became next. */
  lemma HeadHasTime(chunks: map<nat, Chunk>, deadline: Option<int>, h: nat, since: int, now: int, margin: int)
    requires Timely(chunks, deadline, Some(h), since, now, margin)
    ensures h in chunks && deadline.Some?
    ensures chunks[h].started ==> deadline.value == chunks[h].startedAt + chunks[h].duration + margin
    ensures !chunks[h].started ==> deadline.value == since + margin
  {
  }

  /** New audio. */
  function Queued(chunks: map<nat, Chunk>, k: nat, unit: nat, duration: nat): map<nat, Chunk> {
    chunks[k := Chunk(false, false, false, unit, duration, None, 0)]
  }

  function Started(chunks: map<nat, Chunk>, k: nat, now: int): map<nat, Chunk>
    requires k in chunks
  {
    chunks[k := chunks[k].(started := true, startedAt := now)]
  }

  function Stopped(chunks: map<nat, Chunk>, k: nat): map<nat, Chunk>
    requires k in chunks
  {
    chunks[k := chunks[k].(stopped := true)]
  }

  /** New audio does not move the deadline of the audio before it. */
  lemma QueuedTimely(chunks: map<nat, Chunk>, deadline: Option<int>, head: Option<nat>, since: int, now: int, margin: int,
                     k: nat, unit: nat, duration: nat, next: Option<nat>)
    requires Timely(chunks, deadline, head, since, now, margin) && margin > 0
    requires forall j :: j in chunks ==> j < k
    requires Heads(Queued(chunks, k, unit, duration), next)
    ensures head.Some? ==> next == head
    ensures var waiting := Waiting(Queued(chunks, k, unit, duration), next, now);
            && Timely(waiting, Due(waiting, next, margin), next, if head.Some? then since else now, now, margin)
            && (head.Some? ==> Due(waiting, next, margin) == deadline)
  {
    var queued := Queued(chunks, k, unit, duration);
    if head.Some? {
      assert Heads(queued, head);
      HeadUnique(queued, head, next);
    } else {
      assert Heads(queued, Some(k));
      HeadUnique(queued, Some(k), next);
    }
  }

  /** An acknowledged start moves the deadline only if it is the head's own. */
  lemma StartedTimely(chunks: map<nat, Chunk>, deadline: Option<int>, head: Option<nat>, since: int, now: int, margin: int,
                      k: nat, next: Option<nat>)
    requires Timely(chunks, deadline, head, since, now, margin) && margin > 0
    requires k in chunks && !chunks[k].started && !chunks[k].stopped && Heads(Started(chunks, k, now), next)
    ensures next == head
    ensures var waiting := Waiting(Started(chunks, k, now), next, now);
            && Timely(waiting, Due(waiting, next, margin), next, since, now, margin)
            && (head != Some(k) ==> Due(waiting, next, margin) == deadline)
  {
    var started := Started(chunks, k, now);
    assert Heads(started, head);
    HeadUnique(started, head, next);
  }

  /** An acknowledged stop moves the deadline only if it is the head's, and the head never goes back. */
  lemma StoppedTimely(chunks: map<nat, Chunk>, deadline: Option<int>, head: Option<nat>, since: int, now: int, margin: int,
                      k: nat, next: Option<nat>)
    requires Timely(chunks, deadline, head, since, now, margin) && margin > 0
    requires k in chunks && chunks[k].started && !chunks[k].stopped && Heads(Stopped(chunks, k), next)
    ensures head.Some? && (next.Some? ==> head.value <= next.value)
    ensures var waiting := Waiting(Stopped(chunks, k), next, now);
            && Timely(waiting, Due(waiting, next, margin), next, if head == Some(k) then now else since, now, margin)
            && (head != Some(k) ==> next == head && Due(waiting, next, margin) == deadline)
  {
    var stopped := Stopped(chunks, k);
    if head != Some(k) {
      assert Heads(stopped, head);
      HeadUnique(stopped, head, next);
    } else if next.Some? {
      assert chunks[next.value] == stopped[next.value];
      assert head.value <= next.value;
    }
  }

  /** Time passes, but not beyond the deadline: the timer fires then. */
  lemma WaitedTimely(chunks: map<nat, Chunk>, deadline: Option<int>, head: Option<nat>, since: int, now: int, later: int, margin: int)
    requires Timely(chunks, deadline, head, since, now, margin) && now <= later
    requires deadline.Some? && now < later ==> later <= deadline.value
    ensures Timely(chunks, deadline, head, since, later, margin)
  {
  }
}
