# Verified model of the desktop conversation runtime

This project models three stateful parts of the desktop runtime, and three smaller algorithms, in Dafny 4.11, and
proves what they promise. `dafny verify dfyconfig.toml` checks all of it.

**Generations** (`desktop/generation_assembler.go`, `desktop/app_generation_stream.go`)

| modules | content |
|---|---|
| `Runes`, `Scanner`, `ScannerLoop` | the Markdown scanner that decides where streamed text may be committed: a one-token step function, and the loop with its stacks and flags, proved equal |
| `Nesting`, `NestingProof`, `NestingScan`, `NestingBoundaries` | what the scanner is for, read from the text: a grammar of brackets, quotes, emphasis and code, what is a sentence end and a pause, whole lines; and that the scanner finds exactly this |
| `ScanStructure`, `ScanPrefix`, `Stability` | what every scan keeps, and that scanning a growing text commits what one scan of the whole text would, exactly when no line is swallowed |
| `ResumeExact`, `Resume` | exactly when a committed prefix rescans as balanced, so that it can be continued, and that every plain one does |
| `Overlap` | how much of a continuation repeats the end of the transcript |
| `Generation`, `Commits`, `Speech`, `SegmentCommits`, `Transcripts`, `Judgement`, `Runs`, `Assembler` | the assembler class: an append-only transcript of up to three provider segments, with a token budget, one repair, progress deliveries and speech units |
| `Generations`, `LongAnswer` | whole generations for any requested limits and any split into deltas, and a complete one that is not committed to its end |
| `Stream`, `StreamReader`, `Completion` | the event machine of one streamed completion, and what a complete generation says about its last stream |

**Conversation turns** (`desktop/interaction.go` and its delivery, candidate, voice session and recognition files)

| modules | content |
|---|---|
| `Playback`, `Delivery` | the playback deadline, and the observation of speech units and their audio |
| `Turns`, `TurnSteps`, `Registry`, `Engine` | a turn, its steps, the turns an engine keeps, and the engine class with one method for each critical section; any interleaving of the methods is a run, `Valid` holds throughout, and `Kept` says what no step takes back |
| `Scenarios` | two runs that end badly: a voice session wedged by silence, and an approved text spoken twice |
| `Asr` | streaming recognition: accepted updates, the two-slot dispatcher, the final |

**Smaller parts**: `Readiness` (the single-flight readiness cache with interleaving clients), `Wav` (PCM16 WAVE files:
validation, extraction and scaling in place), `ParentGraph` (cycles of project parents).

A text is a sequence of Unicode scalar values and offsets count characters; sizes are counted in UTF-8 bytes. What
recorders, providers and clients answer is a parameter of the step that asks them; contexts end, and the storage of a
finished turn fails, at any time, by nondeterministic choice. Clocks are integers that do not go back. Preconditions of
the engine's methods beyond `Valid()` say which running operation takes the step: an input that waits to be accepted, a
generation that was asked for, an assembler that has not returned, a consumer with a unit. A turn can have several
generations of one revision, so such a step names its turn, revision and generation. Where the context of a call may
end, the promises that need it undisturbed say `ended.None?`.

## What the proofs found

- A boundary can be retracted when more text arrives, exactly when a line is swallowed: the scan stands at the start of
  a line with nothing open and a sentence waiting, and the line, which begins with two blanks, turns out to be a
  fence or an empty list item. Only an escaped line feed leads there (`Stability.OnlineStability`,
  `Stability.EscapedNewlineRetracts`).
- A null character reads like the start of the text, so a text free of backslash, backtick and tilde can still have a
  committed prefix that does not resume (`ResumeExact.NullBreaksResume`). `ResumeExact.ResumesExactly` gives the exact
  condition for every text.
- A run can be complete although its last segment is not committed to the end: exactly when that text exceeds the size
  limit (`Judgement.CompleteCommits`), because the size is checked at `desktop/generation_assembler.go:231` and again,
  silently, at line 127 within the publish at line 260. With the prefix "b", no deltas, a proper stop and an answer of
  131072 letters the run is complete and its answer is "b" (`LongAnswer.CompleteButCut`, and
  `LongAnswer.AssembleLongAnswer` with the assembler itself).
- When recognition hears nothing in a turn without a voice session, beside a session that is paused or ended, that
  session is set to listening although its context is canceled (`desktop/interaction_asr.go:364-372`). Then no request
  is valid. `Engine.InteractionEngine.NoSpeech` says exactly when: live turn, valid request, no session named, a session
  there. No other step does this: each that writes the session says when it leaves it so. Pausing and ending free the
  session, resuming and starting another are refused (`Engine.InteractionEngine.ChangeVoiceSession`,
  `Engine.InteractionEngine.StartVoiceSession`). `Scenarios.SilenceWedges` runs into it and out of it.
- An approved text is started in two critical sections (`desktop/interaction_candidate.go:17` and 21-35), and the
  second one does not look at the state it finds. If the input of the turn is handed in between them, both ask for a
  generation of the same revision, because `desktop/interaction.go:532` ignores the refused transition as well, and
  both generations pass as live: the text is handed to speech twice (`Scenarios.SpokenTwice`). A turn has a single generation of
  its revision if and only if its second section finds it recording (`Engine.InteractionEngine.FinishCandidate`), and
  from then on the number is settled (`Turns.GenerationsSettled`). The invariant covers both generations, so completion
  is never rejected in these runs either.
- The rewrite to `invalid_completion_state` at `desktop/interaction.go:1110-1112` and the consistency guard at
  `desktop/generation_assembler.go:138-141` are never reached (`Turns.CompletionAccepted`,
  `Assembler.GenerationAssembler.CollectUnits`).

## Model

| member | source | states |
|---|---|---|
| Runes.CharBytesIsUtf8 | desktop/generation_assembler.go:15 | sizes are lengths of UTF-8 encodings |
| ScannerLoop.GenerationBoundaries | desktop/generation_assembler.go:333-501 | the scanner loop, over any text, returns the boundaries and the balance of the step-function scan |
| ScannerLoop.TakeLine | desktop/generation_assembler.go:345-392 | the line branch: empty list items and fence lines, taken whole, agree with the step of the state record |
| ScannerLoop.TakeRune | desktop/generation_assembler.go:393-431 | escapes and inline code agree with the step |
| NestingBoundaries.BalancedIffClosed | desktop/generation_assembler.go:333-501 | a text without bare list items and fence lines is balanced if and only if every bracket and quote, every emphasis run and all code in it is closed by its own named closer, properly nested, by a grammar over the text |
| NestingBoundaries.BoundariesAreCommits | desktop/generation_assembler.go:477-494 | such a text may be committed exactly at the end of a line, and where a sentence has ended since the last pause and a firm stop or white space follows, with everything closed |
| NestingBoundaries.FinalCommits | desktop/generation_assembler.go:496-501 | the same for a finished text, which may also be committed to its end if it closes what it opens |
| NestingScan.ClosedFrom | desktop/generation_assembler.go:393-476 | the simulation behind it, from any valid state of the scan |
| NestingScan.ReadCode | desktop/generation_assembler.go:415-431 | inline code ends exactly at the next run of as many backticks |
| NestingProof.BareItemIsEmpty | desktop/generation_assembler.go:356-365 | a bare list item is one of - + *, or one to nine digits with a point or parenthesis, with blanks around it and nothing else |
| NestingProof.FenceLineIsMarked | desktop/generation_assembler.go:366-377 | a fence line begins with at most three spaces and at least three backticks or tildes |
| NestingProof.FenceCloses | desktop/generation_assembler.go:378-383 | a fence is closed exactly by a line of at least as many of its characters with nothing behind them |
| NestingProof.WholeLine | desktop/generation_assembler.go:345-392 | with nothing open, a bare list item makes the text invalid and a fence line opens a fence |
| NestingProof.FencedLine | desktop/generation_assembler.go:378-392 | within a fence, lines are skipped until one closes it, and only behind that one may be committed |
| ScanStructure.StepShaped | desktop/generation_assembler.go:344-495 | every step keeps boundaries increasing, keeps an open fence at a line start or the end, and places a boundary only at its own end with nothing open |
| ScanStructure.FinalBoundariesIncrease | desktop/generation_assembler.go:333-501 | boundaries strictly increase within (0, length]; a balanced nonempty finished text is committed to its end |
| ScanStructure.BoundaryIsQuiet | desktop/generation_assembler.go:333-501 | at every boundary fence, inline code, brackets and emphasis are all empty |
| ScanStructure.FenceOnlyBetweenLines | desktop/generation_assembler.go:376-391 | while a fence is open the scan stands at a line start or at the end |
| Stability.OnlineStability | desktop/generation_assembler.go:333-501 | every prefix of a text commits a sequence prefix of the text's boundaries, if and only if no line is swallowed |
| Stability.NoEscapeNoSwallow | desktop/generation_assembler.go:407-414 | a text without an escaped line feed swallows no line |
| Stability.StableUnderExtension | desktop/generation_assembler.go:333-501 | such a text commits a sequence prefix of what any extension of it commits |
| Stability.EscapedNewlineRetracts | desktop/generation_assembler.go:407-414 | a concrete text with an escaped line feed whose prefix commits what the whole text does not |
| Resume.ResumeRoundTrip | desktop/generation_assembler.go:333-501 | every boundary that cuts off a prefix without backslash, backtick, tilde and null character cuts off one that rescans as balanced, whatever follows |
| ResumeExact.ResumesExactly | desktop/generation_assembler.go:333-501 | for every text, a prefix cut at a boundary rescans as balanced if and only if its last token is no lone delimiter run and no list number, a fence did not close an invalid text, and the last line is not cut to an empty list item |
| ResumeExact.TokenIff | desktop/generation_assembler.go:432-468 | for a token that placed a boundary: without what follows, it leaves the text balanced exactly when it is no lone run and no list number |
| ResumeExact.CutIff | desktop/generation_assembler.go:344-497 | the simulation behind it, from any state of the scan |
| ResumeExact.NullBreaksResume | desktop/generation_assembler.go:399-452 | a concrete text without backslash, backtick and tilde whose committed prefix does not resume |
| Overlap.GenerationOverlap | desktop/generation_assembler.go:301-328 | the loop decides the overlap, or waits exactly while the text so far may still repeat more |
| Overlap.LongestRepeats | desktop/generation_assembler.go:306-323 | what is removed is a suffix of the prefix that begins at its start or after a sentence or line mark |
| Overlap.IsLongest | desktop/generation_assembler.go:306-323 | no longer such suffix is repeated |
| Overlap.ResolvedIsStable | desktop/generation_assembler.go:301-328 | once decided, the overlap is decided and the same for every extension |
| Overlap.ResolvedIffDecided | desktop/generation_assembler.go:317-327 | it is decided exactly when no extension can change it |
| SegmentCommits.CandidateIs | desktop/generation_assembler.go:118-126 | the candidate is the transcript up to the first mark from which the segment repeats its end, followed by the whole segment |
| Generation.EffectiveGenerationLimits | desktop/generation_assembler.go:17-38 | limits in range, requested values kept where they fit, at most three segments and no more than their total |
| SegmentCommits.CutsConverge | desktop/generation_assembler.go:131-150 | cutting at what part of the text shows stays between what that part shows and what the whole shows |
| SegmentCommits.CutsComplete | desktop/generation_assembler.go:131-150 | once the whole text is seen, everything it shows is cut |
| SegmentCommits.LastLook | desktop/generation_assembler.go:256-260 | what streaming committed and what the end commits add up to the cuts of the whole text |
| Transcripts.ExtendSound | desktop/generation_assembler.go:131-155 | a longer commit keeps the transcript append-only and its speech accounted for in order, once |
| Speech.LinesOfJoin | desktop/generation_assembler.go:54-56 | the lines of a delivered unit are exactly the units of its batch, in order, if each is one line |
| Speech.JoinLies | desktop/generation_assembler.go:54-56 | whatever the units hold, each lies in the delivered unit behind the one before, with exactly a line feed between |
| Speech.HeardIsFlat | desktop/generation_assembler.go:54-63 | over a whole run, the lines handed out are all units once and in order |
| Speech.SpokenIsText | desktop/generation_assembler.go:131-147 | if the speech of a stretch is the stretch, everything spoken, put together, is the committed text beyond the prefix |
| Transcripts.DeliverSound | desktop/generation_assembler.go:50-63 | a delivery shows strictly more text, and hands out every waiting unit, whole and in order |
| Transcripts.FlowStep | desktop/generation_assembler.go:157-175 | one delta of an undisturbed segment keeps its cuts on the way to those of the whole text |
| Judgement.ChunkIndependence | desktop/generation_assembler.go:113-260 | a link to `Generations.AssembleTwice`: what is judged of a call depends on what it says alone |
| Judgement.Verdicts | desktop/generation_assembler.go:215-276 | when exactly a call completes, is repaired, is continued, and fails for each reason |
| Judgement.FailureReason | desktop/generation_assembler.go:231-240 | a call that fails with its context reports timeout or cancellation, another what it finished with |
| Judgement.UnescapedIsSteady | desktop/generation_assembler.go:407-414 | the condition of that holds for text without an escaped line feed |
| Judgement.CompleteCommits | desktop/generation_assembler.go:231-263 | a complete segment is committed to its end if and only if its text fits the size limit |
| LongAnswer.AnswerCompletes | desktop/generation_assembler.go:255-263 | a concrete call that completes its run with a text that does not fit |
| LongAnswer.CompleteButCut | desktop/generation_assembler.go:118-130 | the run of that call is complete, and nothing of its answer is committed |
| LongAnswer.AssembleLongAnswer | desktop/generation_assembler.go:43-278 | so does the assembler, undisturbed |
| Judgement.CutsAddUp | desktop/generation_assembler.go:157-260 | the cuts made while streaming and at the end add up to those of the answer |
| Runs.RunChunkIndependence | desktop/generation_assembler.go:90-277 | a link to `Generations.AssembleTwice`: what is computed of a run depends on what its calls say alone |
| Runs.SegmentFollows | desktop/generation_assembler.go:90-277 | a segment that came out as judged takes the run one segment further |
| Assembler.GenerationAssembler.ContextErr | desktop/generation_assembler.go:68-72 | a context may end at any time and stays ended |
| Assembler.GenerationAssembler.EmitProgress | desktop/generation_assembler.go:50-63 | at most 63 deliveries before the last; a delivery shows everything committed and carries every waiting unit, in order, separated by line feeds |
| Assembler.GenerationAssembler.Publish | desktop/generation_assembler.go:118-156 | one look at a segment decides the overlap where possible and commits exactly the boundaries beyond the committed text |
| Assembler.GenerationAssembler.CollectUnits | desktop/generation_assembler.go:131-147 | the loop over boundaries cuts each stretch once and collects its speech in order; every end extends the committed text |
| Assembler.GenerationAssembler.OnDelta | desktop/generation_assembler.go:157-175 | one callback: ignored when late, canceled or empty, refused when too long, otherwise appended and published |
| Assembler.GenerationAssembler.StreamDeltas | desktop/generation_assembler.go:113-178 | any split of an undisturbed steady segment ends with the cuts of its whole text |
| Assembler.GenerationAssembler.BeginSegment | desktop/generation_assembler.go:95-117 | the request of a segment asks for its share of the remaining budget |
| Assembler.GenerationAssembler.TakeReport | desktop/generation_assembler.go:179-216 | observed completion tokens add up; unobserved usage is charged in full |
| Assembler.GenerationAssembler.TakeReasoning | desktop/generation_assembler.go:195-207 | reasoning tokens add up only while every segment reports them from one source |
| Assembler.GenerationAssembler.TakeAnswer | desktop/generation_assembler.go:215-219 | the answer must extend what was streamed |
| Assembler.GenerationAssembler.Spend | desktop/generation_assembler.go:221-225 | the total budget is never exceeded |
| Assembler.GenerationAssembler.RunSegment | desktop/generation_assembler.go:90-276 | one segment: budget, charge, append-only text, and, undisturbed, exactly the judged outcome and cuts |
| Assembler.GenerationAssembler.NextSegment | desktop/generation_assembler.go:90-276 | every call is asked for between one token and a segment's worth, and reported tokens are spent |
| Assembler.GenerationAssembler.RunSegments | desktop/generation_assembler.go:85-277 | the loop makes at most the allowed number of calls and, undisturbed, computes the run of its calls |
| Assembler.GenerationAssembler.Finish | desktop/generation_assembler.go:64-78 | the end delivers what is left; an ended context makes the run incomplete and is its outcome |
| Assembler.GenerationAssembler.Assemble | desktop/generation_assembler.go:43-278 | the whole run: the answer extends the prefix, at most 64 deliveries, the last equals the answer, what the listener is handed carries all speech once and in order, at most one repair, each call asked for a whole segment or all that is left, total tokens within budget, completeness only after a proper stop, and a plain answer can be continued |
| Assembler.CommittedResumes | desktop/generation_assembler.go:79-84 | what a run commits can be the prefix of another run, as long as it is plain text |
| Assembler.BudgetsGrow | desktop/generation_assembler.go:179-226 | if each observed count is within its call's budget, the total stays within the total budget |
| Assembler.AskedOn | desktop/generation_assembler.go:94 | each call is asked for a whole segment, or for all that the calls before it left of the total |
| Generations.AssembleGeneration | desktop/generation_assembler.go:43-278 | whatever limits are requested, at most three calls, each for a whole segment or all that is left of the total, and providers within their budgets stay within the requested total; only a proper stop completes |
| Generations.AssembleTwice | desktop/generation_assembler.go:113-278 | chunk independence: two generations whose calls say the same, however each is split into deltas, have the same answer, cuts, speech, outcome and completeness |
| Stream.ClosedIff | desktop/app_generation_stream.go:130-282 | the phases accept exactly the streams with one finish reason followed by one end with nothing after it |
| Stream.FailedStays | desktop/app_generation_stream.go:131-145 | once a stream fails, or goes on after its end, it has failed |
| StreamReader.GatewayStream.ApplyUsage | desktop/app_generation_stream.go:69-100 | valid usage is recorded; what was recorded before an invalid part stays |
| StreamReader.GatewayStream.TakeText | desktop/app_generation_stream.go:243-266 | text is stored and emitted within 2 MiB |
| StreamReader.GatewayStream.TakeChunk | desktop/app_generation_stream.go:210-282 | a chunk is taken or fails the stream, exactly when it is not proper at this point |
| StreamReader.GatewayStream.TakeTokenUsage | desktop/app_generation_stream.go:147-171 | at most one recount of reasoning tokens, after the finish reason, behind the provider's own count |
| StreamReader.GatewayStream.Handle | desktop/app_generation_stream.go:130-282 | one event: recorded when proper, a failure when not |
| StreamReader.GatewayStream.SafeError | desktop/app_generation_stream.go:45-59 | which fixed error leaves the reader, for every failure and every state of the context |
| StreamReader.GatewayStream.Consume | desktop/app_generation_stream.go:105-303 | undisturbed, a call succeeds if and only if its stream is well formed; then what was emitted is the answer, and the counts are the last reported |
| StreamReader.StillFails | desktop/app_generation_stream.go:243-260 | a stream that failed, or grew too long, stays so |
| Completion.AdaptedIsConsistent | desktop/app_generation_stream.go:256-266 | what a stream emitted never contradicts its answer |
| Completion.CompletionIsProper | desktop/generation_assembler.go:255-263 | a call that completes a run read exactly one finish reason, a stop, then one end; its deltas are its answer; the run's text is closed |
| Completion.Generate | desktop/generation_assembler.go:43-278 | the same for a run over streams, end to end |
| Completion.GoOn | desktop/generation_assembler.go:74-84 | a served run leaves a plain answer that the next run accepts as its prefix, and only adds to |
| Playback.NextPlaybackDeadline | desktop/interaction.go:1007-1031 | in any order of the chunks, the least unstopped one owns the deadline: a margin after its whole duration if it has started, and else a margin after it became the next to play |
| Playback.QueuedTimely | desktop/interaction.go:850-883 | new audio does not move the deadline of the audio before it |
| Playback.StartedTimely | desktop/interaction.go:1007-1030 | an acknowledged start moves the deadline only if it is the head's own |
| Playback.StoppedTimely | desktop/interaction.go:1007-1030 | an acknowledged stop moves it only if it is the head's, and the head never goes back |
| Playback.HeadIsBounded | desktop/interaction.go:982-1031 | the deadline of a head is within two margins and its duration of becoming head |
| Playback.HeadHasTime | desktop/interaction.go:1020-1030 | the deadline is never early: it leaves a full margin behind the whole duration of audio that plays, and a full margin to audio that is next to play |
| Delivery.RefreshUnits | desktop/interaction_delivery.go:69-89 | the loops over units and their audio read each unit as completed, interrupted, audible or not heard, from its own audio |
| Delivery.RefreshDelivers | desktop/interaction_delivery.go:69-89 | after any change of what was observed, a unit reads completed exactly when sealed, nonempty and naturally ended |
| Delivery.OwnerUnique | desktop/interaction.go:866-873 | every piece of audio belongs to exactly one unit |
| Delivery.AppendDelivers | desktop/interaction.go:866-873 | new audio gets the next number and keeps ownership and observations |
| Delivery.RegisterDelivers | desktop/interaction_delivery.go:45-49 | a new unit keeps them |
| Delivery.CompletedStays | desktop/interaction_delivery.go:50-89 | a completed unit stays completed, as long as sealed units get no audio and natural ends stay |
| Turns.FinishEnds | desktop/interaction.go:1108-1150 | a finish always ends a live turn, whatever storage fails |
| Turns.CompletionAccepted | desktop/interaction.go:1084-1112 | when a played generation completes, its state accepts the completion |
| Turns.SpeechInOrder | desktop/interaction.go:566-579 | what speech takes is a prefix of what was handed to it, and the audio of a generation belongs to its units in that order |
| Turns.LaterOn | desktop/interaction.go:248-261 | what steps do not take back (units, observations, revisions, final states) holds over whole runs |
| Turns.GenerationsSettled | desktop/interaction_candidate.go:16-38 | once a turn has left recording, the number of generations of its revision is settled, and is two exactly for an approved text with an input |
| TurnSteps.AcceptedKeeps | desktop/interaction.go:532-534 | accepting the input keeps the turn consistent, whatever state it is in by then |
| TurnSteps.PreparedKeeps | desktop/interaction_candidate.go:32-35 | so does the second section of an approved text; the turn has a single generation exactly if it was found recording |
| TurnSteps.BeganKeeps | desktop/interaction.go:539-552 | so does the begin of a generation |
| TurnSteps.ProgressedKeeps | desktop/interaction.go:707-746 | so does handing over units, by any of its generations |
| TurnSteps.AnsweredKeeps | desktop/interaction.go:780-792 | so does the end of the assembler |
| TurnSteps.SpeechKeeps | desktop/interaction.go:560-633 | so do the steps of the speech consumer, which takes the units in the order in which they were handed over |
| TurnSteps.ProducedKeeps | desktop/interaction.go:812-839 | so does the end of speech, which has audio if a unit was spoken |
| TurnSteps.AudioKeeps | desktop/interaction.go:850-883 | so does new audio |
| TurnSteps.AudioOrderly | desktop/interaction.go:850-883 | new audio belongs to the unit taken last, so the audio of a generation stays in the order of its units |
| TurnSteps.PlayStartedKeeps | desktop/interaction.go:1047-1075 | so does the start of audio, which implies playing |
| TurnSteps.PlayStoppedKeeps | desktop/interaction.go:1060-1075 | so does its natural end |
| TurnSteps.SealKeeps | desktop/interaction_delivery.go:50-65 | so does the successful end of a synthesis, also after the turn |
| TurnSteps.FinishKeeps | desktop/interaction.go:1108-1150 | so does every finish |
| TurnSteps.ContinuedKeeps | desktop/interaction.go:906-934 | so does a continuation |
| Registry.StepRoster | desktop/interaction.go:1108-1150 | a step of one turn keeps exactly one turn live, the one named active, and takes nothing back |
| Registry.OpenRoster | desktop/interaction.go:340-347 | so does opening a turn |
| Registry.DropRoster | desktop/interaction.go:262-282 | so does forgetting an ended turn |
| Engine.InteractionEngine.constructor | desktop/interaction.go:161-167 | an engine starts with no turns |
| Engine.InteractionEngine.Settle | desktop/interaction.go:1108-1128 | storage failures beat the outcome that was asked for |
| Engine.InteractionEngine.FinishLocked | desktop/interaction.go:1108-1150 | nothing is live after a finish |
| Engine.InteractionEngine.CancelTurn | desktop/interaction.go:1161-1176 | a live turn ends as canceled, or failed when storage fails; an ended one stays |
| Engine.InteractionEngine.Cancel | desktop/interaction.go:1151-1160 | the named turn is ended afterwards |
| Engine.InteractionEngine.Fail | desktop/interaction.go:1177-1190 | a live turn fails, an ended one stays |
| Engine.InteractionEngine.StageFailure | desktop/interaction.go:936-981 | a failed stage fails the live turn |
| Engine.InteractionEngine.Oldest | desktop/interaction.go:270-276 | finds the oldest ended turn |
| Engine.InteractionEngine.Prune | desktop/interaction.go:262-282 | makes room for a turn by forgetting aged turns and then the oldest; at most 256 turns are kept |
| Engine.InteractionEngine.Start | desktop/interaction.go:286-367 | a turn starts exactly when none is live, the engine is open, its stages are there and idle, and the voice session is current |
| Engine.InteractionEngine.StartPreparedCandidate | desktop/interaction_candidate.go:12-20 | a short text that is not blank starts a turn that records |
| Engine.InteractionEngine.FinishCandidate | desktop/interaction_candidate.go:21-37 | the second section asks for a generation in whatever state it finds the live turn; it is the only one if and only if the turn was found recording |
| Engine.InteractionEngine.Commit | desktop/interaction.go:368-400 | exactly a recording turn without streaming recognition takes an input, if it is proper, and is given one more generation |
| Engine.InteractionEngine.BeginAsr | desktop/interaction_asr.go:130-160 | recognition opens exactly at a supported rate with a streaming provider, for a recording microphone turn of the current voice session, once |
| Engine.InteractionEngine.OpenAsr | desktop/interaction_asr.go:161-219 | a session that opened belongs to its turn if that is still live; one that did not fails the turn |
| Engine.InteractionEngine.HearAudio | desktop/interaction_asr.go:231-252 | only an open session of a recording turn takes audio; improper audio fails the turn |
| Engine.InteractionEngine.EndAsr | desktop/interaction_asr.go:293-326 | exactly an open session of a recording turn that has heard something ends, for a known reason, and the voice session responds; one that has heard nothing fails the turn |
| Engine.WedgedIff | desktop/interaction_voice_session.go:21-27 | no request is valid exactly while a session is canceled and neither paused nor ended |
| Engine.InteractionEngine.NoSpeech | desktop/interaction_asr.go:364-372 | silence cancels the turn; it leaves the session unusable if and only if the live turn ran beside a session, as a valid request that names none |
| Scenarios.SilenceWedges | desktop/interaction_asr.go:364-372 | a run from a new engine to a session that silence has left unusable, and that pausing frees |
| Engine.InteractionEngine.AcceptTranscript | desktop/interaction.go:476-534 | blank input fails, resident input cancels, input that is not recorded fails, anything else asks for a generation |
| Engine.InteractionEngine.BeginGeneration | desktop/interaction.go:539-552 | a generation that was asked for begins if its turn is live, in its revision and behind its audio |
| Scenarios.SpokenTwice | desktop/interaction_candidate.go:16-37 | a run from a new engine to an approved turn with two generations of its revision, which both hand the text to speech |
| Engine.InteractionEngine.RegisterUnits | desktop/interaction_delivery.go:45-49 | new units get new identifiers |
| Engine.InteractionEngine.OnProgress | desktop/interaction.go:707-746 | a delivery of the assembler registers its units, behind those handed over before, in the current revision only; more than 256, or a delivery that is not recorded, fail the turn |
| Engine.InteractionEngine.NoteFailedAnswer | desktop/interaction.go:761-770 | a failed run leaves what it committed |
| Engine.InteractionEngine.LlmAnswered | desktop/interaction.go:775-806 | the answer is kept, in the current revision only; one that is not recorded fails the turn |
| Engine.InteractionEngine.TakeUnit | desktop/interaction.go:566-579 | the consumer takes the earliest unit that was handed over and not yet taken |
| Engine.InteractionEngine.SpeechFailed | desktop/interaction.go:608-630 | failed speech fails spoken input, and leaves typed input to go on without it |
| Engine.InteractionEngine.SealUnit | desktop/interaction_delivery.go:50-65 | a successful synthesis seals its unit, also after the turn, but never in another revision |
| Engine.InteractionEngine.EmitAudio | desktop/interaction.go:850-883 | audio is accepted exactly within the limits, for the current unit, and gets the next number |
| Engine.InteractionEngine.CompleteIfPlayed | desktop/interaction.go:1084-1098 | when everything has been played the turn is completed, or incomplete, and only storage can fail it |
| Engine.InteractionEngine.FinishSpeech | desktop/interaction.go:812-839 | speech without audio since its generation began fails; otherwise the turn completes when played |
| Engine.InteractionEngine.StartPlaying | desktop/interaction.go:1046-1083 | the first start of audio leads to playing |
| Engine.InteractionEngine.StopPlaying | desktop/interaction.go:1060-1083 | a natural end gives the next audio its turn, and the head never goes back |
| Engine.InteractionEngine.Playback | desktop/interaction.go:1032-1083 | exactly which observations of playback are accepted, and which of them change the turn: each once, in order, while it is live |
| Engine.InteractionEngine.TimerIff | desktop/interaction.go:982-1031 | in every run, the timer of a live turn is due exactly when the player is a margin late with the audio that is next |
| Engine.InteractionEngine.TimerFires | desktop/interaction.go:982-1001 | a passed deadline fails the turn; audio that starts within a margin and stops within its duration and a margin never makes it pass |
| Engine.InteractionEngine.HeadBounded | desktop/interaction.go:982-1031 | in every run, each head chunk stops, or its turn is over, within two margins and its duration of becoming head |
| Engine.InteractionEngine.Interrupt | desktop/interaction_delivery.go:95-127 | exactly a proper interruption of this turn, revision and session is accepted; it records what was heard, leaves all other audio as it was, and ends the turn |
| Engine.CheckObservations | desktop/interaction_delivery.go:105-111 | observations name known audio, each once |
| Engine.ApplyObservations | desktop/interaction_delivery.go:115-122 | an observation never changes audio that had ended |
| Engine.InteractionEngine.ObserveCandidateStop | desktop/interaction_candidate.go:42-59 | the same for an approved text that was cut off |
| Engine.InteractionEngine.Expire | desktop/interaction.go:1191-1199 | an aged turn is forgotten, a live one after failing |
| Engine.InteractionEngine.Continue | desktop/interaction.go:886-935 | exactly a recorded continuation of an incomplete turn below revision 8, when nothing is live, begins the next revision, from its committed text |
| Engine.InteractionEngine.Close | desktop/interaction.go:1236-1253 | nothing is live after closing |
| Engine.InteractionEngine.StartVoiceSession | desktop/interaction_voice_session.go:28-40 | exactly when nothing is live and no session is running |
| Engine.InteractionEngine.ChangeVoiceSession | desktop/interaction_voice_session.go:41-70 | exactly when it applies; right after pause or end no turn of the session is live and the session is usable again; resuming makes earlier epochs invalid |
| Engine.ChunkCount | desktop/interaction.go:860-867 | the number of pieces of audio is the last number |
| Asr.TookAccepts | desktop/interaction_asr.go:406-515 | accepted revisions strictly increase and settled text stays settled |
| Asr.TookShows | desktop/interaction_asr.go:456-515 | an accepted update waits in its slot, and a final is never overwritten |
| Asr.ShownShows | desktop/interaction_asr.go:521-548 | the dispatcher shows strictly increasing revisions and loses no final |
| Asr.FinalExtendsAll | desktop/interaction_asr.go:456-460 | every stable prefix ever accepted is a prefix of the final transcript |
| Asr.AsrSession.Receive | desktop/interaction_asr.go:406-519 | late updates are ignored; others are accepted exactly when they agree, and fail the turn when not |
| Asr.AsrSession.Dispatch | desktop/interaction_asr.go:521-548 | shows the older of the two waiting updates |
| Asr.AsrSession.Append | desktop/interaction_asr.go:241-288 | audio is taken exactly in sequence, in whole samples, within the limits of a piece and of the session, and if the provider takes it; anything else fails a live turn |
| Asr.CountClipped | desktop/interaction_asr.go:260-265 | the loop counts the samples at the edge of their range |
| Asr.AsrSession.EndInput | desktop/interaction_asr.go:293-326 | input ends once and with audio; without any it fails the turn |
| Asr.AsrSession.Finish | desktop/interaction_asr.go:328-377 | what is heard is the published final, extends all settled text, and needs positive speech evidence when activity is reported |
| Readiness.OneProbe | desktop/voice_readiness_cache.go:81-127 | at most one client probes at any time |
| Readiness.AnswersAreCurrent | desktop/voice_readiness_cache.go:72-139 | every answer was found by a probe for its key, started in the epoch in which it was validated |
| Readiness.TakeOffSound | desktop/voice_readiness_cache.go:105-109 | a new leader keeps all of this |
| Readiness.LandSound | desktop/voice_readiness_cache.go:114-127 | so does the end of a probe |
| Readiness.InvalidateSound | desktop/voice_readiness_cache.go:55-60 | so does an invalidation |
| Readiness.MoveSound | desktop/voice_readiness_cache.go:62-140 | so does a client that only moves on |
| Readiness.ReadinessCache.Invalidate | desktop/voice_readiness_cache.go:55-60 | a new epoch, with nothing cached |
| Readiness.ReadinessCache.Enter | desktop/voice_readiness_cache.go:72-109 | an unexpired entry for the key is returned, a probe in flight waited for, or a new one led |
| Readiness.ReadinessCache.Check | desktop/voice_readiness_cache.go:95-103 | a follower takes a finding exactly when it is current, for its key, and no cancellation of the leader |
| Readiness.ReadinessCache.Land | desktop/voice_readiness_cache.go:115-138 | exactly current successes are cached |
| Wav.VoiceWavDuration | desktop/voice_wav.go:31-76 | valid exactly with one proper format and one data chunk, all in bounds and within the limit; the duration is the least that covers every frame |
| Wav.ReadChunk | desktop/voice_wav.go:48-67 | which chunks are proper |
| Wav.UnfitInvalid | desktop/voice_wav.go:41-72 | one chunk that does not fit makes the file invalid |
| Wav.ReadAll | desktop/voice_wav.go:73-75 | what a file that was read to its end is worth |
| Wav.DurationFits | desktop/voice_wav.go:73-76 | the rounded-up duration is within the limit and nothing overflows |
| Wav.ChunksInBounds | desktop/voice_wav.go:41-72 | chunks lie within the file and do not overlap |
| Wav.VoicePcmFromWav | desktop/voice_wav.go:10-28 | extraction returns the rate and exactly the data payload |
| Wav.Quieter | desktop/voice_provider.go:343-344 | scaling down never makes a sample louder or changes its sign |
| Wav.FullVolume | desktop/voice_provider.go:326-349 | full volume changes nothing |
| Wav.ScalingGrows | desktop/voice_provider.go:343-344 | scaling is monotone in the sample and, for samples that are not negative, in the volume |
| Wav.LowByteFirst | desktop/voice_provider.go:338-344 | numbers and samples are read and written with their low byte first |
| Wav.SampleBytes | desktop/voice_provider.go:343-344 | the bytes of a sample read back as the sample |
| Wav.SameLayout | desktop/voice_provider.go:336-349 | rewriting samples keeps the file valid with the same chunks and rate |
| Wav.ScaleSpeechPcm | desktop/voice_provider.go:337-349 | in place: every sample becomes its product with the volume, its fraction cut off, so none gets louder; nothing else changed, still valid with the same duration |
| ParentGraph.ValidateParentGraph | scripts/validate_repository.py:200-228 | nothing is reported if and only if nothing is on a cycle; each self-parent and each longer cycle exactly once |
| ParentGraph.Follow | scripts/validate_repository.py:212-224 | the walk ends, on a missing, visited or repeated project |
| ParentGraph.WalkFinds | scripts/validate_repository.py:214-221 | a project on a cycle lies on the part of its walk that comes back |
| ParentGraph.WalkCovers | scripts/validate_repository.py:207-227 | after a walk, what has been visited is closed and its cycles are reported once |
| ParentGraph.RoundWithin | scripts/validate_repository.py:214-226 | a cycle that meets a visited project was visited as a whole |

## Left out

- NestingBoundaries.BalancedIffClosed: speaks of texts without bare list items and fence lines, whose lines `NestingProof.WholeLine` and `NestingProof.FencedLine` describe one at a time.
- Assembler.GenerationAssembler.Assemble: counts offsets in characters and takes valid text, so a delta that splits a UTF-8 sequence, and the invalid-text outcomes, are not modelled.
- Assembler.GenerationAssembler.StreamDeltas: callbacks of a provider that arrive after it has returned are not modelled; the source ignores them through its accepting flag.
- Assembler.GenerationAssembler.OnDelta: the text spoken for a stretch is an arbitrary function that may return nothing (`generationSpeechText`).
- Scanner: the Unicode tables for letters, digits and punctuation are a parameter; results that need it say that blanks and missing neighbours are neither letters nor digits.
- Timestamps, sources, web search status, request messages and instructions of generations: plumbing that the transcript does not depend on.
- StreamReader.GatewayStream.Consume: works on parsed events; JSON, SSE framing, HTTP, and the observers of routes, prompts and memories are not modelled.
- Engine.InteractionEngine.FinishCandidate: requires that the turn has not been forgotten since its first section; the source would dereference nil there.
- Engine.InteractionEngine.AcceptTranscript: its first check for a live turn and the section that acts are one step, because that section checks again.
- Engine.InteractionEngine.EmitAudio: assumes that a speech provider emits only before it returns; the required condition says so.
- Engine.InteractionEngine.OnProgress: the bounded channel between the assembler and speech is an unbounded queue, and its units are enqueued in the same step that registers them; a timeout in between fails the generation in the source.
- Engine.InteractionEngine.Interrupt: turn identifiers, which operation identifiers determine, and the range checks of its timings are not modelled.
- Engine.InteractionEngine.Wait: the timer fires at its deadline; a late timer is not modelled.
- Engine.InteractionEngine.TimerFires: an older timer never acts; the generation counter that ensures it is represented by the single current deadline.
- Events, queues to the user interface, traces, snapshots of sources, fillers, interruption candidates and input handoff timings of turns: they do not change the state modelled here.
- Engine.InteractionEngine.ChangeVoiceSession: nothing is claimed about live turns later than right after pause or end, because a continuation does not look at the session again.
- Engine.InteractionEngine.HearAudio: whether audio is proper is a parameter here, and the session behind it is `Asr`; its time limits and capture settings are not part of this model.
- Asr.AsrSession.Finish: the agreement of two finals is equality of the updates; a diagnostic is a number.
- Readiness.ReadinessCache.Enter: keys match when they are equal; file identity, size, mode and time are behind the key.
- Wav.ScaleSpeechPcm: rounding of the product is any monotone rounding that is exact on samples, instead of IEEE double; a volume that is not a number is not modelled.
- ParentGraph.ValidateParentGraph: the sorted order of the projects is a parameter; the messages are values, not strings.
- Goroutines and locks: each critical section is one atomic step.
