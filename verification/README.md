# The Watcher: a verified model

The Watcher supervises an untrusted workload. It decides every attempted action, can quarantine or
irreversibly kill the session, and leaves behind a hash-chained trace that anyone can verify. This
project models the parts of it that are hard to get right and proves what they promise.

- **The Policy V1 glob matcher** (`SegmentGlob`, `PathGlob`, `PathPattern`, `BitSet`). The greedy,
  leftmost-first segment matcher, its bit-parallel search and the whole-path `**` walk with one
  backtrack point are the source's loops, each proved equal to a recursive definition of a glob.
  Paths and rule lists have normal forms, and verdicts depend on nothing else.
- **The trace** (`Trace`, `Canonical`, `Spelling`, `Payload`). Appending, sealing, relinking and verifying. The digest
  is an arbitrary function; where a result needs that it does not collide, that is a hypothesis about
  the finitely many pre-images at hand. `Canonical` shows that the canonical text is independent of every
  order that carries no meaning and that it tells the value otherwise, `Spelling` says which text it is, and
  `Payload` brings tamper evidence down to collisions between texts.
- **The shutdown protocol** (`Shutdown`). Accept thread, any number of workers, finaliser and an
  outside `stop()` as a step relation, one step for each block under a lock or condition. The
  guarantees are an inductive invariant over every interleaving. Deadlines are steps that may be
  taken at any time.
- **The decision engine** (`Decisions`, `Watcher`, `Policy`, `Verdicts`, `Session`, `Daemon`). Kill, quarantine,
  tripwires, the eleven policy rules and exactly what they answer, what a client can obtain by adding
  claims, what kills and the accounting of kills. Regular expressions and normalisers are arbitrary
  functions. A call that raises keeps what it had changed.
- **Process trees** (`ProcessTree`). Two worklist algorithms proved equal to reachability along a path,
  and the survivor scan built on one of them.

`Strings` holds what Python provides as built-ins. `dafny verify dfyconfig.toml` checks everything.

## Where the code and its documentation differ

The model follows the code. Each of these differences is a theorem here.

- `ipc/server.py:358-359` calls the set of workers final once the accept loop has stopped, but the join
  before it is bounded and the set is taken either way. `Shutdown.SealLastExactly` gives the exact
  condition under which a clean drain guarantees that the seal event is the last one, and
  `Shutdown.LateEventFromStart` shows that it can fail from the very start.
- `supervisor/daemon.py:1120-1126` promises exactly one `process_termination` entry on every kill path. A
  containment backend that raises in the middle prevents it (`Daemon.KillSettlesExactly`). Afterwards only an
  evaluation, the session timeout or a loss answered by killing makes up for it: `stop`, a client's kill
  request and a requested shutdown return once they see the session killed, and finalisation does not ask
  (`Daemon.SettledByExactly`). A session killed before it starts or after
  it has concluded never reaches the state KILLED (`Daemon.KilledStateExactly`).
- `watcher/watcher.py:325-412` records before it applies, so on a sealed trace a KILL verdict that is to
  be recorded raises and does not kill (`Watcher.KillVerdictEngagesExactly`). Of the daemon's kill paths only
  `stop` and a client's request without rejected fields still kill then (`Daemon.SealedKillsExactly`).
- The rule that a client assertion may only add restriction (`watcher/authority.py`) has an exact
  condition for each kind of claim (`Policy.PathsKeptExactly`, `Policy.DomainsKeptExactly`,
  `Policy.ToolsKeptExactly`, `Policy.CountKeptExactly`, `Policy.EnvVarHidesExactly`) and for the verdict
  as a whole, over what a client can send (`Policy.BlockedStaysForClientsExactly`) and over every call of the
  policy (`Policy.BlockedStaysExactly`). The severity of a whole verdict can drop
  (`Policy.SeverityCanDrop`), because the first rule to answer wins.
- A quarantined session is only certain to be allowed or killed if no tripwire says DENY or QUARANTINE:
  tripwires outrank the escalation (`Watcher.QuarantineFinalExactly`).
- `enforcement/base.py:291-294` says a unit is empty only if it had an identity to check against, but a known identity can
  leave every layer of the scan idle (`ProcessTree.SeesExactly`, `ProcessTree.KnownButBlind`).
- `runtime/process.py:116` says deepest last; the list is reversed before it is returned, children first.
- `policy_v1_runtime.py:187-191` says a subject that cannot be parsed does not become allowed. Without an
  allow-list the verdict on it is to abstain (`PathPattern.AbstainsExactly`).

## Model

| member | source | states |
|---|---|---|
| SegmentGlob.AnchoredMatch | the_watcher/policy_v1.py:373-385 | true exactly when the block fits the chunk character by character, `?` fitting any |
| SegmentGlob.BuildTables | the_watcher/policy_v1.py:400-406 | bit k of a character's mask, with the wildcard bits, is set exactly when that character fits position k of the block |
| SegmentGlob.StateStep | the_watcher/policy_v1.py:407-411 | after reading index i, bit k is set exactly when the block's first k+1 characters match the text ending at i, starting no earlier than `start` |
| SegmentGlob.ShiftAndFind | the_watcher/policy_v1.py:388-412 | the leftmost position of the block inside the window, or -1 exactly when there is none |
| SegmentGlob.FindBlock | the_watcher/policy_v1.py:415-430 | the same answer whichever of the three shortcuts is taken, empty and inverted windows included |
| SegmentGlob.GreedyStep | the_watcher/policy_v1.py:473-484 | exchange step: placing the next block leftmost inside `limit - still_needed` never loses a match, and a window without a placement means there is no match |
| SegmentGlob.Anchors | the_watcher/policy_v1.py:461-472 | the two anchored comparisons are necessary, and once the head fits only the starred blocks remain |
| SegmentGlob.PlaceBlocks | the_watcher/policy_v1.py:474-484 | the greedy loop succeeds exactly when the starred blocks can be placed at all |
| SegmentGlob.SegmentMatches | the_watcher/policy_v1.py:433-484 | true exactly when the recursive definition of `*` and `?` holds, for every pattern and text |
| BitSet.ShiftOneBits | the_watcher/policy_v1.py:409-409 | `(state << 1) \| 1` moves every bit up by one and sets bit 0 |
| BitSet.TestBit | the_watcher/policy_v1.py:399-411 | `state & (1 << n)` is non-zero exactly when bit n is set |
| PathGlob.NewestStarDecides | the_watcher/policy_v1.py:493-543 | forgetting earlier `**` positions loses no match |
| PathGlob.OneFurther | the_watcher/policy_v1.py:535-538 | after a mismatch the newest `**` can only match one segment further on |
| PathGlob.Turn | the_watcher/policy_v1.py:524-543 | every turn keeps the loop's invariant and lowers the potential `(T-mark)*(P+1)+(P-pi)` |
| PathGlob.CountBound | the_watcher/policy_v1.py:508-515 | no more than `(P+1)*(T+1)` states are visited |
| PathGlob.SegmentsMatch | the_watcher/policy_v1.py:487-543 | true exactly when the recursive `**` definition holds; no state is visited twice; at most `(P+1)*(T+1)` states |
| PathPattern.NormaliseSegments | the_watcher/policy_v1.py:287-370 | the canonical segments, or the refusal the path deserves, in the source's order of checks |
| PathPattern.RefusalsMean | the_watcher/policy_v1.py:300-352 | which refusal a path gets, by what is wrong with its text, first to last, and that a path with nothing wrong is accepted |
| PathPattern.NextPart | the_watcher/policy_v1.py:354-370 | one more part at the end: an empty part and `.` change nothing, `..` refuses and never drops a segment, anything else is one more segment |
| PathPattern.TraversalStays | the_watcher/policy_v1.py:356-364 | a path refused for `..` stays refused whatever is appended |
| PathPattern.CanonicalFixpoint | the_watcher/policy_v1.py:287-370 | canonicalising `"/" + join(segments)` gives the same segments and passes the caps |
| PathPattern.CanonicalInjective | the_watcher/policy_v1.py:649-652 | different segment lists have different canonical texts |
| PathPattern.CompilesExactly | the_watcher/policy_v1.py:623-656 | a pattern is accepted exactly when its path is, it uses no unsupported character and a double star stands alone; what it then consists of |
| PathPattern.CompileFixpoint | the_watcher/policy_v1.py:623-656 | recompiling a pattern's canonical text gives the pattern back |
| PathPattern.PatternTextDecides | the_watcher/policy_v1.py:623-656 | the canonical text determines everything about a pattern but how it was written |
| PathPattern.StringPrefixIsSegmentPrefix | the_watcher/policy_v1.py:605-611 | the string-prefix test of a wildcard-free pattern is a prefix of segments, the root included |
| PathPattern.Matches | the_watcher/policy_v1.py:594-612 | the pattern's answer on a subject, or the refusal of a subject that cannot be canonicalised |
| PathPattern.SubtreeIsTrailingStars | the_watcher/policy_v1.py:570-573 | prefixing is what a trailing `**` means |
| PathPattern.ImplicitSubtree | the_watcher/policy_v1.py:570-573 | a wildcard-free pattern and the same pattern with `**` appended cover the same subjects |
| PathPattern.Patterns | the_watcher/policy_v1.py:1030-1049 | the compiled, duplicate-free, sorted list, or the first error |
| PathPattern.RulesExactly | the_watcher/policy_v1.py:1030-1049 | a rule list is accepted exactly when each entry compiles and no two have one canonical text, and then holds exactly the compiled entries |
| PathPattern.RulesFixpoint | the_watcher/policy_v1.py:1030-1049 | recompiling the canonical texts in any order gives the same list |
| PathPattern.Verdict | the_watcher/policy_v1_runtime.py:153-180 | deny first, then default-deny outside an allow-list, otherwise abstain |
| PathPattern.DeniesExactly | the_watcher/policy_v1_runtime.py:153-180 | on a parseable subject a denial exactly when a deny rule covers it, the first that does, and outside the allow-list exactly when neither list covers it |
| PathPattern.TextsDecideVerdict | the_watcher/policy_v1.py:938-990 | rule lists with equal normalised texts give every subject the same verdict |
| PathPattern.AbstainsExactly | the_watcher/policy_v1_runtime.py:153-192 | on a parseable subject the rules abstain exactly when no deny matches and the allow-list is empty or matches; on others the allow-list alone decides |
| Trace.BuiltVerifies | the_watcher/poe/trace.py:84-146 | every trace built by appending verifies without a signal, sealed or not |
| Trace.BuiltStores | the_watcher/poe/trace.py:103-146 | every event of a built trace says what was appended there, but for its place, its clock and the clock evidence |
| Trace.VerifiesExactly | the_watcher/poe/verifier.py:110-172 | no signal exactly when the chain is linked and ordered and a declared hash is the computed one |
| Trace.SignalsMean | the_watcher/poe/verifier.py:121-164 | exactly the warranted signals are raised, each by what it reports about the events |
| Trace.CheckEvent | the_watcher/poe/verifier.py:121-158 | one turn of the verifier raises exactly that event's signals |
| Trace.Verify | the_watcher/poe/verifier.py:110-172 | the verifier's loop returns the signals of the trace, in order |
| Trace.ClockConserved | the_watcher/poe/trace.py:103-145 | stored timestamps are the running maximum of the readings; evidence sits exactly on readings that fell back; each reading is recoverable; everything else an event says is kept |
| Trace.RegressionsExact | the_watcher/poe/trace.py:228-245 | the report lists exactly the backward steps, in order |
| Trace.EditDetected | the_watcher/poe/verifier.py:121-164 | changing what one event says raises exactly one signal, EVENT_HASH_MISMATCH at its index |
| Trace.DeletionDetected | the_watcher/poe/verifier.py:121-164 | deleting event k raises NON_CONTIGUOUS_SEQUENCE from k on and BROKEN_PREVIOUS_HASH only at k, and a seal notices |
| Trace.RelinkRestores | the_watcher/poe/trace.py:199-221 | relinking after an intact prefix restores all links and hashes and changes no content |
| Trace.RelinkIdentity | the_watcher/poe/trace.py:199-221 | relinking an intact chain changes nothing |
| Trace.RewriteDetected | the_watcher/poe/trace.py:175-221 | a sealed trace rewritten and relinked leaves INVALID_FINAL_TRACE_HASH exactly when its content changed |
| Trace.HeadDecidesChain | the_watcher/poe/event.py:190-211 | linked chains of one length with one head are equal |
| Trace.TamperEvident | the_watcher/poe/trace.py:175-187 | two verified traces with one published hash have the same session, schema and events, if the digest does not collide on their structured pre-images |
| Trace.ExecutionTrace.Append | the_watcher/poe/trace.py:84-146 | refused once sealed; otherwise one event is added that says what was given, linked and with its clock clamped, and nothing else changes |
| Trace.ExecutionTrace.Seal | the_watcher/poe/trace.py:194-197 | declares the final hash of the events |
| Trace.ExecutionTrace.Relink | the_watcher/poe/trace.py:199-221 | rewrites exactly the events from `start` on |
| Trace.ExecutionTrace.ClockRegressions | the_watcher/poe/trace.py:228-245 | the loop returns the recorded regressions in order |
| Shutdown.InitialHolds | the_watcher/supervisor/daemon.py:581-599 | the invariant holds before the server serves anyone |
| Shutdown.WorkerMove | the_watcher/ipc/server.py:709-815 | a worker's claims move with the two counters; no admission once draining, no claim once the window is closed; each request is admitted, refused or dropped, never two of them |
| Shutdown.StepKeepsInvariant | the_watcher/ipc/server.py:284-460 | every step of every thread keeps the invariant: counters equal the claims held, each drain stage has what it established, the chain is intact |
| Shutdown.RunKeepsInvariant | the_watcher/ipc/server.py:284-460 | the invariant after every run, for any number of workers and any interleaving |
| Shutdown.NoAdmissionAfterDraining | the_watcher/ipc/server.py:758-775 | once the server has left RUNNING no request is admitted any more, to any worker |
| Shutdown.NoClaimsStable | the_watcher/ipc/server.py:385-391 | claims closed and no response in flight stays so |
| Shutdown.DrainSound | the_watcher/ipc/server.py:398-460 | no claimed frame is cut unless the deadline broke the wait; drained means STOPPED, no writer, nobody in a handler, and with a complete snapshot every worker gone |
| Shutdown.DrainedLeavesNone | the_watcher/ipc/server.py:354-453 | a drain that reports success leaves no worker behind that was listed and started when the workers were counted, over every run and whatever the accept thread was doing |
| Shutdown.DrainedExactly | the_watcher/ipc/server.py:447-453 | success exactly when nobody is in a handler and every listed worker has exited or was never started; STOPPED then and DRAINING otherwise |
| Shutdown.DeadlineBreaksExactly | the_watcher/ipc/server.py:385-391 | the wait for responses ends by its deadline exactly when some worker still holds a frame |
| Shutdown.FrameCutExactly | the_watcher/ipc/server.py:398-402 | over every run a claimed frame is cut exactly when a transport is closed whose worker holds one |
| Shutdown.FinishReached | the_watcher/ipc/server.py:330-460 | from every state after its beginning finalisation can go on to the seal with everybody else standing still |
| Shutdown.AdmittedRound | the_watcher/ipc/server.py:709-781 | an admitted request gives its claims back and leaves nothing else changed, whether or not its reply could be sent |
| Shutdown.RefusedRound | the_watcher/ipc/server.py:783-815 | a request during the drain is refused by a frame that is claimed for and given back |
| Shutdown.DroppedRound | the_watcher/ipc/server.py:797-800 | once the window is closed a request is dropped without a frame and the worker reads on |
| Shutdown.ConnectionRound | the_watcher/ipc/server.py:479-521 | an accepted connection adds one worker, listed and started, and nothing else |
| Shutdown.RejectionRound | the_watcher/ipc/server.py:479-530 | a rejected connection leaves nothing behind |
| Shutdown.IdleRound | the_watcher/ipc/server.py:534-588 | a worker that receives nothing serves, closes and exits, and its hooks may record throughout |
| Shutdown.WorkerRecords | the_watcher/ipc/server.py:534-588 | hooks and handlers record where they run, and to no effect once the trace is sealed |
| Shutdown.StopRound | the_watcher/supervisor/daemon.py:468-484 | an outside `stop()` records its entry and changes nothing else, and finalisation waits for it |
| Shutdown.SealRound | the_watcher/supervisor/daemon.py:1980-1993 | with nobody else recording the trace ends in its seal event with the right count, and is sealed |
| Shutdown.RecordingsConserved | the_watcher/poe/trace.py:84-146 | over every run the trace says what it said and then exactly what the actions recorded before the seal, in order |
| Shutdown.SealedForGood | the_watcher/poe/trace.py:97-101 | a sealed trace verifies and no run changes it, whether or not the drain succeeded |
| Shutdown.AllCanExit | the_watcher/ipc/server.py:534-588 | while draining every started worker can be brought to its exit |
| Shutdown.LateRecord | the_watcher/ipc/server.py:479-521 | an accept thread caught between its check and the start of a worker lets an event in between the seal event and the seal |
| Shutdown.SealLastExactly | the_watcher/ipc/server.py:354-364 | a clean drain guarantees TRACE_SEALED last with the right count exactly when the accept thread was between connections when the workers were counted |
| Shutdown.MidConnectionReached | the_watcher/ipc/server.py:479-521 | a run from the start reaches the count of the workers with the accept thread mid-connection |
| Shutdown.LateEventFromStart | the_watcher/ipc/server.py:354-364 | so from the very start some run drains cleanly and seals a trace that does not end in its seal event |
| Shutdown.WriterGate.BeginWrite | the_watcher/ipc/server.py:758-775 | admits exactly while RUNNING with the window open, and takes both claims |
| Shutdown.WriterGate.EndWrite | the_watcher/ipc/server.py:777-781 | gives both claims back |
| Shutdown.WriterGate.ClaimRefusalFrame | the_watcher/ipc/server.py:797-800 | takes a response claim unless the window is closed |
| Shutdown.WriterGate.EndRefusalFrame | the_watcher/ipc/server.py:812-815 | gives the response claim back |
| Shutdown.WriterGate.StartDraining | the_watcher/ipc/server.py:343-350 | leaves RUNNING and stops the accept loop |
| Shutdown.WriterGate.CloseClaims | the_watcher/ipc/server.py:385-391 | closes the window for claims and changes no counter |
| Shutdown.WriterGate.Conclude | the_watcher/ipc/server.py:447-453 | STOPPED exactly when no writer is left and every joined worker is gone |
| Watcher.PoEWatcher.Engage | the_watcher/watcher/kill_switch.py:105-135 | the first reason wins; a blank reason is refused and changes nothing |
| Watcher.PoEWatcher.KillNow | the_watcher/watcher/watcher.py:508-543 | the kill step, with what remains when its entry cannot be written |
| Watcher.PoEWatcher.QuarantineNow | the_watcher/watcher/watcher.py:661-677 | the quarantine step; the first reason wins |
| Watcher.PoEWatcher.RecordDecision | the_watcher/watcher/watcher.py:589-640 | one entry, or two for a DENY, or none in a sealed trace |
| Watcher.PoEWatcher.Apply | the_watcher/watcher/watcher.py:642-659 | KILL and QUARANTINE take effect, nothing else does |
| Watcher.PoEWatcher.Evaluate | the_watcher/watcher/watcher.py:325-412 | the whole evaluation: killed, tripwire, policy, escalation, record, apply |
| Watcher.PoEWatcher.ReportSignal | the_watcher/watcher/watcher.py:435-467 | a host signal is recorded and applied, always as KILL in a killed session |
| Watcher.EvaluationMeans | the_watcher/watcher/watcher.py:368-412 | which verdict an evaluation answers, which entries record it, and what takes effect; what a sealed trace keeps back |
| Watcher.KilledEvaluationMeans | the_watcher/watcher/watcher.py:346-366 | a killed session is refused, with one entry if it is to be recorded |
| Watcher.SignalMeans | the_watcher/watcher/watcher.py:435-467 | a signal is recorded first; a KILL response then engages the switch, QUARANTINE quarantines, and the others change nothing |
| Watcher.KillMeans | the_watcher/watcher/watcher.py:508-543 | the first kill sets the record and writes its entry; a later one changes nothing |
| Watcher.AttachedIsKilled | the_watcher/watcher/watcher.py:508-543 | the switch takes the process attached last, unless it was detached again, and what was observed in between is logged |
| Watcher.NothingUndone | the_watcher/watcher/watcher.py:325-543 | over every run no kill is undone, no kill record or first reason changed, no quarantine lifted, no sealed trace touched |
| Watcher.EngagedOnce | the_watcher/watcher/watcher.py:508-543 | over every run the switch writes its entry once if the session is killed and the trace unsealed, and never twice |
| Watcher.KilledForever | the_watcher/watcher/watcher.py:346-366 | after a kill every evaluation answers KILL, or raises if it was to be recorded in a sealed trace |
| Watcher.KillIsReal | the_watcher/watcher/watcher.py:642-659 | no evaluation answers KILL and leaves the session running |
| Watcher.KillVerdictEngagesExactly | the_watcher/watcher/watcher.py:368-412 | a KILL verdict engages the switch exactly when nothing had to be recorded in a sealed trace first |
| Watcher.QuarantineFinalExactly | the_watcher/watcher/watcher.py:368-404 | over every run from a fresh watcher a quarantined session is only allowed or killed, exactly when no tripwire answers otherwise |
| Watcher.UnrecordedStillApplies | the_watcher/watcher/watcher.py:404-412 | `record=False` changes nothing that is decided or enforced |
| Policy.Worst | the_watcher/watcher/policy.py:48-61 | the first of the most severe candidates, and none exactly when all abstain |
| Policy.WorstIsFirst | the_watcher/watcher/policy.py:48-61 | of several equally severe candidates the first |
| Policy.MoreIsWorse | the_watcher/watcher/policy.py:48-61 | more candidates never give a milder outcome |
| Policy.PathsKeptExactly | the_watcher/watcher/authority.py:353-363 | no claim can hide a path candidate exactly when the resource is empty or path-shaped or the claim is already there |
| Policy.DomainsKeptExactly | the_watcher/watcher/authority.py:365-372 | the same for hosts |
| Policy.ToolsKeptExactly | the_watcher/watcher/policy.py:481-496 | the same for tools, whose fallback is the action |
| Policy.CountKeptExactly | the_watcher/watcher/policy.py:557-576 | the judged process count can only be talked upwards exactly when it was measured or no claimed count can be displaced |
| Policy.ProcessCountInput | the_watcher/watcher/policy.py:557-576 | the loop over the two values computes the count to judge |
| Policy.FlagRulesMonotone | the_watcher/watcher/policy.py:249-374 | the flag rules never get milder with claims added, and the `env_var` rule does not change |
| Policy.PathRulesMonotone | the_watcher/watcher/policy.py:332-393 | host resources and paths likewise |
| Policy.TargetRulesMonotone | the_watcher/watcher/policy.py:433-521 | network and tools likewise |
| Policy.LimitRulesMonotone | the_watcher/watcher/policy.py:523-603 | process count and runtime likewise |
| Policy.RulesMonotone | the_watcher/watcher/policy.py:223-245 | no single one of the eleven rules gets milder when claims are added |
| Policy.BlockedStaysForClientsExactly | the_watcher/watcher/policy.py:210-245 | over what a client can send, a blocked request stays blocked whatever is claimed exactly when the network rule cannot answer ALLOW, and the tool rule cannot or no request goes unremarked by it |
| Policy.BlockedStaysExactly | the_watcher/watcher/policy.py:210-245 | over every call of the policy, the same exactly when neither the network nor the tool rule can answer ALLOW |
| Policy.ToolsStaySilent | the_watcher/watcher/policy.py:481-496 | a claim makes a silent tool rule speak only for a request that names a tool without remark |
| Policy.StrictConfigurationSuffices | the_watcher/watcher/policy.py:450-521 | which it cannot unless `unknown_domain` or `unknown_tool` is ALLOW |
| Policy.SeverityCanDrop | the_watcher/watcher/policy.py:223-245 | a claim can replace a KILL by a milder block |
| Policy.EnvVarHidesExactly | the_watcher/watcher/policy.py:359-374 | an added `env_var` can hide a protected variable exactly when the request itself names one |
| Verdicts.EvaluateDraws | the_watcher/watcher/policy.py:210-603 | the verdict, its risk and its rule: the first offence in the source's order, and of the values judged together the strictest |
| Verdicts.AllowedExactly | the_watcher/watcher/policy.py:210-245 | exactly when a request is allowed |
| Verdicts.PathsLookedAt | the_watcher/watcher/authority.py:353-363 | exactly which values are judged as paths, the resource first |
| Verdicts.HostsLookedAt | the_watcher/watcher/authority.py:365-372 | exactly which are judged as hosts |
| Verdicts.ToolsLookedAt | the_watcher/watcher/policy.py:481-496 | exactly which are judged as tools, the claim first |
| Verdicts.PathShape | the_watcher/watcher/authority.py:283-303 | what a path looks like, white space aside |
| Verdicts.HostShape | the_watcher/watcher/authority.py:306-328 | what a host looks like: a scheme, or a head with a bracket, a colon or a dot |
| Verdicts.CountInputIs | the_watcher/watcher/policy.py:557-576 | the judged count: the measurement or a larger claim, or without a measurement the claim, alias first |
| Verdicts.ForbiddenPathRefused | the_watcher/watcher/policy.py:395-431 | a path-shaped resource that is forbidden or outside a non-empty allow-list is refused whatever the metadata say |
| Verdicts.ForbiddenHostRefused | the_watcher/watcher/policy.py:450-479 | so is a forbidden host, and a target that is no host while the network is restricted |
| Verdicts.ForbiddenToolRefused | the_watcher/watcher/policy.py:498-521 | so is a forbidden tool |
| Verdicts.FlagsKill | the_watcher/watcher/policy.py:249-330 | a true flag kills unless the configuration permits what it reports |
| Verdicts.OverLimitRefused | the_watcher/watcher/policy.py:523-603 | a measured count above the limit is refused whatever is claimed, a measured time unless an explicit ALLOW waives it |
| Session.SessionStateMachine.MoveTo | the_watcher/supervisor/session.py:155-200 | the transition if it is legal, nothing otherwise |
| Session.MovesExactly | the_watcher/supervisor/session.py:56-77 | which moves open, and what a move that opens writes; every other move changes nothing |
| Session.MoveKeepsLegal | the_watcher/supervisor/session.py:56-77 | the history stays a legal path from CREATED and only grows; the dates are set exactly with RUNNING and with the end |
| Session.HistoryIsShort | the_watcher/supervisor/session.py:49-77 | no state is entered twice, terminal states come last, five entries at most |
| Daemon.SupervisorDaemon.Destroy | the_watcher/supervisor/daemon.py:818-901 | the unit is destroyed once, with its entries, or the step raises where the backend does |
| Daemon.SupervisorDaemon.AfterKillLocked | the_watcher/supervisor/daemon.py:1120-1171 | the accounting step |
| Daemon.SupervisorDaemon.KillSessionLocked | the_watcher/supervisor/daemon.py:1089-1118 | the kill step |
| Daemon.SupervisorDaemon.Stop | the_watcher/supervisor/daemon.py:468-484 | the stop step, whose effect `Daemon.KillComesTo` gives |
| Daemon.SupervisorDaemon.Evaluate | the_watcher/supervisor/daemon.py:1248-1270 | evaluates, then accounts for a kill or reflects a quarantine |
| Daemon.SupervisorDaemon.KillRequest | the_watcher/supervisor/daemon.py:1336-1362 | a client's request kills once and never resets anything |
| Daemon.AfterKillSettles | the_watcher/supervisor/daemon.py:1120-1171 | the accounting step completes an account left open, if the backend replies and the trace is unsealed |
| Daemon.SettledByExactly | the_watcher/supervisor/daemon.py:960-1171 | of all steps exactly an evaluation, the timeout and a loss answered by killing complete an account left open |
| Daemon.KillsExactly | the_watcher/supervisor/daemon.py:468-1362 | exactly which actions kill: `stop` and a requested shutdown with a reason before finalisation, a client's request, the timeout, a loss answered by killing, and an evaluation whose verdict is KILL |
| Daemon.KillComesTo | the_watcher/supervisor/daemon.py:1089-1171 | what each of them leaves behind: the reason, the process, the entries in order, the unit gone, and KILLED if the session had started and not ended |
| Daemon.KillCountedOnce | the_watcher/supervisor/daemon.py:1120-1171 | none before and one `process_termination` after, under the action's reason |
| Daemon.SealedKillsExactly | the_watcher/supervisor/daemon.py:1089-1118 | in a sealed trace exactly `stop` and a client's request without rejected fields still engage the switch |
| Daemon.FinalisationShutsOut | the_watcher/supervisor/daemon.py:468-484 | once finalisation is claimed, `stop` and a requested shutdown change nothing |
| Daemon.QuarantinesExactly | the_watcher/supervisor/daemon.py:1248-1270 | exactly which actions quarantine, with one notice, and the session follows from RUNNING |
| Daemon.ConcludesExactly | the_watcher/supervisor/daemon.py:1886-1905 | the state a session ends in, from every state |
| Daemon.DismantlingMeans | the_watcher/supervisor/daemon.py:818-901 | the teardown's entries by what the backend found, and what is left where it raises |
| Daemon.SessionStarts | the_watcher/supervisor/daemon.py:583-814 | a session that is contained, launched and started runs with its process and unit in place, and a failure from there ends it as FAILED |
| Daemon.KillSettlesExactly | the_watcher/supervisor/daemon.py:1089-1118 | a first kill is accounted for at once exactly when no backend raises in it |
| Daemon.SuperviseKeeps | the_watcher/supervisor/daemon.py:1023-1085 | heartbeat and channel loss keep the books |
| Daemon.NextKeeps | the_watcher/supervisor/daemon.py:818-1362 | every step, on every kill path and where the unit is destroyed without a kill, keeps the books and a settled account |
| Daemon.RunKeepsBooks | the_watcher/supervisor/daemon.py:818-1362 | over every run the books stay in order and the history only grows |
| Daemon.KillsAccountedFor | the_watcher/supervisor/daemon.py:1120-1171 | over every run: one `process_termination` entry by the daemon if killed, none otherwise; KILLED implies killed; a legal history |
| Daemon.KilledStateExactly | the_watcher/supervisor/session.py:56-77 | a kill reaches the state KILLED exactly from STARTING, RUNNING and QUARANTINED |
| ProcessTree.ChildrenOf | the_watcher/enforcement/procfs.py:460-462 | the children of each parent, exactly |
| ProcessTree.WalkVisits | the_watcher/enforcement/procfs.py:466-474 | visiting a live process keeps the worklist sound and complete |
| ProcessTree.WalkEnds | the_watcher/enforcement/procfs.py:466-475 | an empty worklist means exactly the reachable processes were found |
| ProcessTree.DescendantsOf | the_watcher/enforcement/procfs.py:432-475 | a pid exactly when some chain of records makes each process the child of the one before, all running by their last record, from a root still running as the process recorded; sorted, for any parent map |
| ProcessTree.ReversedChildrenFirst | the_watcher/runtime/process.py:125-141 | the reversed walk lists every child before its parent exactly when the root was not met again |
| ProcessTree.DescendantPids | the_watcher/runtime/process.py:115-141 | each descendant once, children first exactly when the process is not its own descendant |
| ProcessTree.ScanSurvivors | the_watcher/enforcement/backends/namespaces.py:1085-1199 | survivors are exactly the pids with a live record in the unit's namespace or cgroup, or still descended from the unit's processes; empty exactly when the identity is known and there are none |
| ProcessTree.SeesExactly | the_watcher/enforcement/backends/namespaces.py:1116-1199 | the scan can find anything exactly when some layer applies |
| ProcessTree.KnownButBlind | the_watcher/enforcement/base.py:256-273 | an identity can be known while no layer applies |
| Canonical.MappingNormal | the_watcher/poe/canonical.py:96-105 | a mapping is accepted exactly when no coerced keys collide and every value is accepted |
| Canonical.OrderIsImmaterial | the_watcher/poe/canonical.py:48-117 | one text for all insertion orders of mappings and iteration orders of sets, at every depth |
| Canonical.CanonicalTextSame | the_watcher/poe/canonical.py:125-133 | the same for the canonical text itself |
| Spelling.CanonicalSpells | the_watcher/poe/canonical.py:48-133 | the canonical text is the one text that spells the value, literal by literal, and a value has none exactly when something in it offends |
| Spelling.AcceptedExactly | the_watcher/poe/canonical.py:48-117 | accepted exactly when nothing is too deep, non-finite, colliding or unsupported, and the error raised is one of these offences |
| Spelling.SpellsOnce | the_watcher/poe/canonical.py:125-133 | a value is spelled in one way only |
| Canonical.NormaliseIdempotent | the_watcher/poe/canonical.py:48-122 | normalising an accepted value again changes nothing and never exceeds the depth limit |
| Canonical.SortKeyIsText | the_watcher/poe/canonical.py:107-110 | the sort key of a set's members is their printed form |
| Canonical.TidyKeepsText | the_watcher/poe/canonical.py:125-133 | ordering every object's fields by name changes nothing in the text |
| Canonical.PrintSplit | the_watcher/poe/canonical.py:125-133 | a text can be read as a tidy value followed by a delimiter in one way only |
| Canonical.PrintDecides | the_watcher/poe/canonical.py:125-133 | two normal values print alike exactly when they are the same up to the order of fields |
| Canonical.TextDecides | the_watcher/poe/canonical.py:120-133 | two accepted values have one canonical text exactly when they are the same up to order |
| Payload.NormalBack | the_watcher/poe/canonical.py:120-122 | normalising a JSON value loses nothing |
| Payload.EventIsHashed | the_watcher/poe/event.py:190-207 | field by field, what of an event is hashed |
| Payload.TraceIsHashed | the_watcher/poe/trace.py:175-187 | field by field, what of a trace is hashed |
| Payload.PayloadDecides | the_watcher/poe/event.py:190-207 | no two payloads, of events or of traces, are the same value |
| Payload.PayloadTextDecides | the_watcher/poe/event.py:209-211 | the text that is hashed determines what was to be hashed |
| Payload.TextsKeepApart | the_watcher/poe/canonical.py:141-153 | a digest without collisions on the texts has none on the payloads |
| Payload.TamperEvidentByText | the_watcher/poe/trace.py:175-187 | tamper evidence if the digest does not collide on the texts hashed |

## Left out

- Sockets, framing, JSON parsing, storage, the command line, benchmarks and diagnostics: input and output.
- Kernel containment and its probes: foreign calls. A `/proc` snapshot, a containment backend's reply and
  the outcome of a deadline are given.
- SHA-256 and `json.dumps`: the digest is an arbitrary function, scalars are printed by arbitrary functions.
  Where the text has to tell the value, they print injectively and delimit themselves
  (`Canonical.Unambiguous`), as JSON scalars do and as `Canonical.UnaryIsUnambiguous` shows some printer does.
- Trace.TamperEvident: supposes no collision between structured pre-images; `Payload.TamperEvidentByText`
  supposes it of the texts only. `created_at` is outside the hash in the source too, so neither claims
  anything about it.
- Redaction, the command regular expressions, `normalise_path`, `extract_domain` and the tool normaliser:
  arbitrary functions.
- Shutdown.SealLastExactly: unclaimed frames (session mismatch, replay, handshake and protocol errors) are sent
  from the read loop and not counted, as in the source; nothing is claimed about cutting them.
- Shutdown.RunKeepsInvariant: the server's protocol is a step relation over values, so aliasing and the memory
  model below its locks are not captured; `WriterGate` holds the counting in the source's own form.
- Canonical.OrderIsImmaterial: which of several errors is raised first does depend on the order; only
  whether there is one is claimed not to.
- PathPattern.NormaliseSegments: the check for surrogates is not modelled, because a Dafny character is a
  Unicode scalar value.
- PathPattern.TextsDecideVerdict: the canonical subject is given; how it is derived from the workspace root is not
  modelled.
- Policy.LimitRulesMonotone: `float` is a real with infinities and NaN, and an integral float among the
  supervisor's facts and the overflow of `int(inf)` or of a huge integer are not modelled.
- Policy.BlockedStaysForClientsExactly: it supposes that the escape pattern does not match the harmless action
  `call`, which holds of the pattern in the source.
- Policy.BlockedStaysExactly: it supposes the same of an empty request as well, which only a direct caller of the
  policy can make.
- Policy.EnvVarHidesExactly: it supposes that some name is not protected.
- Policy.Worst: reasons and fact provenance are dropped from the rulings.
- Watcher.PoEWatcher.Evaluate: entries carry who wrote them, decision, risk and reason; the other fields of an
  event and the chain are in `Trace`.
- ProcessTree.ScanSurvivors: the per-layer report is left out, the survivors are not.
- Daemon.KillsAccountedFor: the check in `dispatch` for shutdown and terminal states happens before the lock is
  taken, so the handlers are allowed at any time, which only adds runs.
- Hostname rules, the scalar checks of a Policy V1 document, declared policies, profiles, the signal table and
  the IPC limits: finite tables and single branches, easy members only.
- Tripwire path matching: it goes through another normaliser, and no equality with `PathPattern` is claimed.
