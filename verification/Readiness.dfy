/** The single-flight cache of provider readiness: clients interleave at its lock, in any order. */
module Readiness {
  import opened Options

  /** Keys match when the configuration and the identity of the executable agree. */
  type Key = nat

  datatype ProbeError = NoError | CanceledError | DeadlineError | OtherError

  /** What a probe found; `flight` says which probe it was. */
  datatype Finding = Finding(flight: nat, canStart: bool, permissionRequired: bool, error: ProbeError)

  /** A probe, the key and the epoch it was started for, and who leads it. */
  datatype Flight = Flight(key: Key, epoch: nat, leader: nat, finding: Option<Finding>)

  datatype Cache = Cache(key: Key, finding: Finding, expires: Option<int>, flight: Option<nat>, epoch: nat)

  /** Where a client stands between two turns at the lock. */
  datatype Client =
    | Idle
    | Keyed(key: Key)
    | Waiting(flight: nat)
    | Rekeyed(flight: nat, latest: Key)
    | Probing(flight: nat)
    | Probed(flight: nat, finding: Finding)
    | Closing(flight: nat, finding: Finding, now: Option<Key>)
    | LostKey
    | GaveUp
    | Returned(finding: Finding, asked: Key, validated: nat)

  const SECOND := 1_000_000_000

  predicate Leads(client: Client) {
    client.Probing? || client.Probed? || client.Closing?
  }

  /** The finding is that of a finished probe for the given key, started in the given epoch. */
  ghost predicate From(flights: map<nat, Flight>, finding: Finding, key: Key, epoch: nat) {
    && finding.flight in flights && flights[finding.flight].finding == Some(finding)
    && flights[finding.flight].key == key && flights[finding.flight].epoch == epoch
  }

  /** A client stands where the flights allow it to. What it has returned came from a probe that was started, for
      its key, in the epoch that was current when the answer was validated. */
  ghost predicate Placed(cache: Cache, flights: map<nat, Flight>, c: nat, client: Client) {
    match client
    case Waiting(f) => f in flights
    case Rekeyed(f, _) => f in flights && flights[f].finding.Some?
    case Returned(finding, asked, validated) => From(flights, finding, asked, validated) && validated <= cache.epoch
    case Probing(f) => Led(cache, flights, c, f)
    case Probed(f, finding) => Led(cache, flights, c, f) && finding.flight == f
    case Closing(f, finding, _) => Led(cache, flights, c, f) && finding.flight == f
    case _ => true
  }

  ghost predicate Led(cache: Cache, flights: map<nat, Flight>, c: nat, f: nat) {
    cache.flight == Some(f) && f in flights && flights[f].leader == c && flights[f].finding.None?
  }

  /** A probe is in flight exactly while its leader is at it. */
  ghost predicate Flies(cache: Cache, flights: map<nat, Flight>, clients: map<nat, Client>) {
    && (forall f :: f in flights ==> flights[f].epoch <= cache.epoch)
    && (forall f :: f in flights && flights[f].finding.None? ==> cache.flight == Some(f))
    && (forall f :: f in flights && flights[f].finding.Some? ==> flights[f].finding.value.flight == f)
    && (cache.flight.Some? ==>
          && cache.flight.value in flights && flights[cache.flight.value].finding.None?
          && flights[cache.flight.value].leader in clients
          && Leads(clients[flights[cache.flight.value].leader]))
  }

  /** What is cached was found by a probe of the current epoch, and is no failure; nothing is cached during a probe. */
  ghost predicate Holds(cache: Cache, flights: map<nat, Flight>) {
    cache.expires.Some? ==>
      && From(flights, cache.finding, cache.key, cache.epoch)
      && cache.finding.canStart && cache.finding.error == NoError && cache.flight.None?
  }

  ghost predicate Sound(cache: Cache, flights: map<nat, Flight>, clients: map<nat, Client>) {
    && Flies(cache, flights, clients) && Holds(cache, flights)
    && forall c :: c in clients ==> Placed(cache, flights, c, clients[c])
  }

  /** At most one client probes at any time. */
  lemma OneProbe(cache: Cache, flights: map<nat, Flight>, clients: map<nat, Client>, c: nat, d: nat)
    requires Sound(cache, flights, clients) && c in clients && d in clients && Leads(clients[c]) && Leads(clients[d])
    ensures c == d
  {
    assert Placed(cache, flights, c, clients[c]) && Placed(cache, flights, d, clients[d]);
  }

  /** A client moves; the cache and the flights stay. */
  lemma MoveSound(cache: Cache, flights: map<nat, Flight>, clients: map<nat, Client>, c: nat, client: Client)
    requires Sound(cache, flights, clients) && c in clients && Placed(cache, flights, c, client)
    requires Leads(clients[c]) <==> Leads(client)
    ensures Sound(cache, flights, clients[c := client])
  {
    hide Holds, From;
    var clients' := clients[c := client];
    forall d | d in clients' ensures Placed(cache, flights, d, clients'[d]) {
      if d != c {
        assert Placed(cache, flights, d, clients[d]);
      }
    }
  }

  function Invalidated(cache: Cache): Cache {
    cache.(epoch := cache.epoch + 1, expires := None)
  }

  /** A new epoch: whatever was returned before was valid in its own. */
  lemma InvalidateSound(cache: Cache, flights: map<nat, Flight>, clients: map<nat, Client>)
    requires Sound(cache, flights, clients)
    ensures Sound(Invalidated(cache), flights, clients)
  {
    hide From;
    forall c | c in clients ensures Placed(Invalidated(cache), flights, c, clients[c]) {
      assert Placed(cache, flights, c, clients[c]);
    }
  }

  /** A client becomes the leader of a new flight. */
  lemma TakeOffSound(cache: Cache, flights: map<nat, Flight>, clients: map<nat, Client>, c: nat, f: nat, key: Key)
    requires Sound(cache, flights, clients) && c in clients && !Leads(clients[c]) && cache.flight.None? && f !in flights
    ensures Sound(cache.(flight := Some(f), expires := None), flights[f := Flight(key, cache.epoch, c, None)],
                  clients[c := Probing(f)])
  {
    var cache' := cache.(flight := Some(f), expires := None);
    var flights', clients' := flights[f := Flight(key, cache.epoch, c, None)], clients[c := Probing(f)];
    forall d | d in clients' ensures Placed(cache', flights', d, clients'[d]) {
      if d != c {
        assert Placed(cache, flights, d, clients[d]);
      }
    }
  }

  /** What the leader makes of its finding, and of the cache. */
  function Landed(cache: Cache, flight: Flight, finding: Finding, now: Option<Key>, time: int, ttl: int): Cache {
    var current := cache.epoch == flight.epoch && now == Some(flight.key);
    if finding.error == NoError && finding.canStart && current
    then cache.(key := flight.key, finding := finding, flight := None,
                expires := Some(time + (if finding.permissionRequired then SECOND else ttl)))
    else cache.(flight := None)
  }

  lemma LandSound(cache: Cache, flights: map<nat, Flight>, clients: map<nat, Client>, c: nat, finding: Finding, now: Option<Key>,
                  time: int, ttl: int, client: Client)
    requires Sound(cache, flights, clients) && c in clients && clients[c] == Closing(finding.flight, finding, now)
    requires finding.flight in flights && !Leads(client)
    requires client.Returned? ==> client == Returned(finding, flights[finding.flight].key, cache.epoch)
                                  && cache.epoch == flights[finding.flight].epoch
    requires client.Idle? || client.LostKey? || client.GaveUp? || client.Returned?
    ensures Sound(Landed(cache, flights[finding.flight], finding, now, time, ttl),
                  flights[finding.flight := flights[finding.flight].(finding := Some(finding))], clients[c := client])
  {
    var f := finding.flight;
    assert Placed(cache, flights, c, clients[c]);
    var cache' := Landed(cache, flights[f], finding, now, time, ttl);
    var flights', clients' := flights[f := flights[f].(finding := Some(finding))], clients[c := client];
    forall d | d in clients' ensures Placed(cache', flights', d, clients'[d]) {
      if d != c {
        assert Placed(cache, flights, d, clients[d]);
      }
    }
  }

  /** The cache with its clients: each method is what one client does between two turns at the lock. `canceled` and
      `current` are what the client's context and the provider's key turn out to be at that moment. */
  class ReadinessCache {
    const ttl: int
    var cache: Cache
    var flights: map<nat, Flight>
    var clients: map<nat, Client>
    var nextFlight: nat
    var now: int

    ghost predicate Valid()
      reads this
    {
      Sound(cache, flights, clients) && forall f :: f in flights ==> f < nextFlight
    }

    constructor (ttl: int, now: int)
      ensures Valid() && clients == map[] && cache.expires.None?
    {
      this.ttl, this.now := ttl, now;
      cache := Cache(0, Finding(0, false, false, NoError), None, None, 0);
      flights, clients, nextFlight := map[], map[], 0;
    }

    method Join(c: nat)
      requires Valid() && c !in clients
      modifies this`clients
      ensures Valid() && clients == old(clients)[c := Idle]
    {
      JoinSound(cache, flights, clients, c);
      clients := clients[c := Idle];
    }

    method Wait(d: nat)
      requires Valid()
      modifies this`now
      ensures Valid() && now == old(now) + d
    {
      now := now + d;
    }

    /** Makes every cached or pending finding stale. */
    method Invalidate()
      requires Valid()
      modifies this`cache
      ensures Valid() && cache.epoch == old(cache).epoch + 1 && cache.expires.None? && cache.flight == old(cache).flight
    {
      hide Sound;
      InvalidateSound(cache, flights, clients);
      cache := cache.(epoch := cache.epoch + 1, expires := None);
    }

    /** The client asks for the key of the provider. */
    method Begin(c: nat, canceled: bool, current: Option<Key>)
      requires Valid() && c in clients && clients[c].Idle?
      modifies this`clients
      ensures Valid()
      ensures clients == old(clients)[c := if canceled then GaveUp else if current.None? then LostKey else Keyed(current.value)]
    {
      hide Sound;
      var client := if canceled then GaveUp else if current.None? then LostKey else Keyed(current.value);
      MoveSound(cache, flights, clients, c, client);
      clients := clients[c := client];
    }

    /** A client whose provider has lost its key invalidates the cache, and fails. */
    method Lose(c: nat)
      requires Valid() && c in clients && clients[c].LostKey?
      modifies this`cache, this`clients
      ensures Valid() && clients == old(clients)[c := GaveUp] && cache.epoch == old(cache).epoch + 1 && cache.expires.None?
    {
      hide Sound;
      Invalidate();
      MoveSound(cache, flights, clients, c, GaveUp);
      clients := clients[c := GaveUp];
    }

    /** The client returns what is cached for its key, waits for the probe in flight, or leads a new one. */
    method Enter(c: nat, canceled: bool)
      requires Valid() && c in clients && clients[c].Keyed?
      modifies this`cache, this`flights, this`clients, this`nextFlight
      ensures Valid() && clients.Keys == old(clients).Keys
      ensures var key := old(clients)[c].key;
              if old(cache).key == key && old(cache).expires.Some? && now < old(cache).expires.value then
                clients == old(clients)[c := if canceled then GaveUp else Returned(old(cache).finding, key, cache.epoch)]
                && cache == old(cache) && cache.finding.canStart && cache.finding.error == NoError
              else if old(cache).flight.Some? then
                clients == old(clients)[c := Waiting(old(cache).flight.value)] && cache == old(cache)
              else
                exists f :: cache.flight == Some(f) && f !in old(flights) && clients == old(clients)[c := Probing(f)]
                            && cache.expires.None? && flights == old(flights)[f := Flight(key, cache.epoch, c, None)]
    {
      hide Placed, Flies;
      var key := clients[c].key;
      if cache.key == key && cache.expires.Some? && now < cache.expires.value {
        var client := if canceled then GaveUp else Returned(cache.finding, key, cache.epoch);
        HitPlaced(cache, flights, c, client);
        MoveSound(cache, flights, clients, c, client);
        clients := clients[c := client];
      } else if cache.flight.Some? {
        WaitPlaced(cache, flights, clients, c);
        MoveSound(cache, flights, clients, c, Waiting(cache.flight.value));
        clients := clients[c := Waiting(cache.flight.value)];
      } else {
        var f := nextFlight;
        assert f !in flights;
        TakeOffSound(cache, flights, clients, c, f, key);
        flights := flights[f := Flight(key, cache.epoch, c, None)];
        cache := cache.(flight := Some(f), expires := None);
        clients := clients[c := Probing(f)];
        nextFlight := nextFlight + 1;
      }
    }

    /** The probe a client waits for has finished, or the client is canceled. */
    method Wake(c: nat, canceled: bool, current: Option<Key>)
      requires Valid() && c in clients && clients[c].Waiting? && clients[c].flight in flights
      requires canceled || flights[clients[c].flight].finding.Some?
      modifies this`clients
      ensures Valid()
      ensures clients == old(clients)[c := if canceled then GaveUp else if current.None? then LostKey
                                           else Rekeyed(old(clients)[c].flight, current.value)]
    {
      hide Sound;
      var client := if canceled then GaveUp else if current.None? then LostKey else Rekeyed(clients[c].flight, current.value);
      MoveSound(cache, flights, clients, c, client);
      clients := clients[c := client];
    }

    /** A follower takes the finding only if it is still of the current epoch, for its key, and not the cancellation
        of the leader; otherwise it starts over. */
    method Check(c: nat)
      requires Valid() && c in clients && clients[c].Rekeyed?
      modifies this`clients
      ensures Valid()
      ensures var f, latest := old(clients)[c].flight, old(clients)[c].latest;
              && f in flights && flights[f].finding.Some?
              && clients == old(clients)[c :=
                   if flights[f].epoch == cache.epoch && flights[f].key == latest
                      && flights[f].finding.value.error != CanceledError && flights[f].finding.value.error != DeadlineError
                   then Returned(flights[f].finding.value, latest, cache.epoch) else Idle]
    {
      hide Sound;
      CheckPlaced(cache, flights, clients, c);
      var flight := flights[clients[c].flight];
      var client := Idle;
      if flight.epoch == cache.epoch && flight.key == clients[c].latest
         && flight.finding.value.error != CanceledError && flight.finding.value.error != DeadlineError {
        client := Returned(flight.finding.value, clients[c].latest, cache.epoch);
      }
      MoveSound(cache, flights, clients, c, client);
      clients := clients[c := client];
    }

    /** The probe of a leader returns; a canceled leader has found nothing. */
    method ProbeReturns(c: nat, canceled: bool, canStart: bool, permissionRequired: bool, error: ProbeError)
      requires Valid() && c in clients && clients[c].Probing?
      modifies this`clients
      ensures Valid()
      ensures clients == old(clients)[c := Probed(old(clients)[c].flight,
                Finding(old(clients)[c].flight, canStart, permissionRequired, if canceled then CanceledError else error))]
    {
      hide Sound;
      ProbingPlaced(cache, flights, clients, c);
      var f := clients[c].flight;
      var client := Probed(f, Finding(f, canStart, permissionRequired, if canceled then CanceledError else error));
      MoveSound(cache, flights, clients, c, client);
      clients := clients[c := client];
    }

    method ReadKeyAgain(c: nat, current: Option<Key>)
      requires Valid() && c in clients && clients[c].Probed?
      modifies this`clients
      ensures Valid() && clients == old(clients)[c := Closing(old(clients)[c].flight, old(clients)[c].finding, current)]
    {
      hide Sound;
      ProbingPlaced(cache, flights, clients, c);
      var client := Closing(clients[c].flight, clients[c].finding, current);
      MoveSound(cache, flights, clients, c, client);
      clients := clients[c := client];
    }

    /** The leader publishes what it found. A failure, or a finding that is stale already, is not cached; a stale
        leader starts over. */
    method Land(c: nat, canceled: bool)
      requires Valid() && c in clients && clients[c].Closing?
      modifies this`cache, this`flights, this`clients
      ensures Valid() && c in clients && clients == old(clients)[c := clients[c]]
      ensures old(clients)[c].flight in old(flights) && cache.flight.None?
      ensures var finding, flight := old(clients)[c].finding, old(flights)[old(clients)[c].flight];
              var current := cache.epoch == flight.epoch && old(clients)[c].now == Some(flight.key);
              && (cache.expires.Some? <==> finding.error == NoError && finding.canStart && current)
              && (cache.expires.Some? ==> cache.expires.value == now + (if finding.permissionRequired then SECOND else ttl))
              && clients[c] == (if canceled then GaveUp else if old(clients)[c].now.None? then LostKey
                                else if current then Returned(finding, flight.key, cache.epoch) else Idle)
    {
      hide Sound;
      ProbingPlaced(cache, flights, clients, c);
      var f, finding, latest := clients[c].flight, clients[c].finding, clients[c].now;
      var flight := flights[f];
      var current := cache.epoch == flight.epoch && latest == Some(flight.key);
      var client := if canceled then GaveUp else if latest.None? then LostKey
                    else if current then Returned(finding, flight.key, cache.epoch) else Idle;
      LandSound(cache, flights, clients, c, finding, latest, now, ttl, client);
      if finding.error == NoError && finding.canStart && current {
        var life := if finding.permissionRequired then SECOND else ttl;
        cache := cache.(key := flight.key, finding := finding, expires := Some(now + life));
      }
      cache := cache.(flight := None);
      flights := flights[f := flight.(finding := Some(finding))];
      clients := clients[c := client];
    }
  }

  lemma JoinSound(cache: Cache, flights: map<nat, Flight>, clients: map<nat, Client>, c: nat)
    requires Sound(cache, flights, clients) && c !in clients
    ensures Sound(cache, flights, clients[c := Idle])
  {
  }

  lemma HitPlaced(cache: Cache, flights: map<nat, Flight>, c: nat, client: Client)
    requires Holds(cache, flights) && cache.expires.Some?
    requires client == GaveUp || client == Returned(cache.finding, cache.key, cache.epoch)
    ensures Placed(cache, flights, c, client) && !Leads(client)
  {
  }

  lemma WaitPlaced(cache: Cache, flights: map<nat, Flight>, clients: map<nat, Client>, c: nat)
    requires Flies(cache, flights, clients) && cache.flight.Some?
    ensures Placed(cache, flights, c, Waiting(cache.flight.value))
  {
  }

  lemma CheckPlaced(cache: Cache, flights: map<nat, Flight>, clients: map<nat, Client>, c: nat)
    requires Sound(cache, flights, clients) && c in clients && clients[c].Rekeyed?
    ensures var f := clients[c].flight;
            f in flights && flights[f].finding.Some? && flights[f].epoch <= cache.epoch
            && From(flights, flights[f].finding.value, flights[f].key, flights[f].epoch)
  {
    assert Placed(cache, flights, c, clients[c]);
  }

  lemma ProbingPlaced(cache: Cache, flights: map<nat, Flight>, clients: map<nat, Client>, c: nat)
    requires Sound(cache, flights, clients) && c in clients && Leads(clients[c])
    ensures var f := clients[c].flight;
            && Led(cache, flights, c, f) && cache.expires.None?
            && (clients[c].Probed? || clients[c].Closing? ==> clients[c].finding.flight == f)
  {
    assert Placed(cache, flights, c, clients[c]);
  }

  /** Every answer a client has was found by a probe for its key, started in the epoch in which it was validated. */
  lemma AnswersAreCurrent(cache: Cache, flights: map<nat, Flight>, clients: map<nat, Client>, c: nat)
    requires Sound(cache, flights, clients) && c in clients && clients[c].Returned?
    ensures From(flights, clients[c].finding, clients[c].asked, clients[c].validated)
  {
    assert Placed(cache, flights, c, clients[c]);
  }
}
