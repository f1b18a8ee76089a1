/** The watcher: evaluation, quarantine escalation and the irreversible kill
    (`watcher/watcher.py`, `watcher/kill_switch.py`).

    The policy and the tripwires are arbitrary functions of the request. A call that raises leaves
    behind whatever it had already changed; in particular every append to a sealed trace raises.
  */
module Watcher {
  import opened Strings
  import opened Decisions

  datatype Request = Request(eventType: string, action: string, resource: string, metadata: map<string, string>)

  /** Which call site wrote an entry: an `observe` call may give any event type, so the type alone
      does not tell. */
  datatype EntryKind =
    | Observed(eventType: string) | BlockedAttempt | TripwireActivation | PolicyDecision | DeniedAction
    | HostSignal | QuarantineNotice | KillEngaged
    | Supervisory(eventType: string) // written by the daemon, past the watcher

  datatype Entry = Entry(kind: EntryKind, decision: Decision, risk: Risk, reason: string)

  /** What the kill switch remembers: the reason, and the process it terminated. */
  datatype KillRecord = KillRecord(reason: string, target: Option<int>)

  datatype State = State(kill: Option<KillRecord>, killEventWritten: bool, quarantine: Option<string>,
                         active: Option<int>, sealed: bool, log: seq<Entry>)

  datatype Error = TraceSealed | BlankReason

  /** The state after a call, and what the call returned or raised. */
  datatype Done<+T> = Done(state: State, outcome: Result<T, Error>)

  datatype Rules = Rules(tripwire: Request -> Option<Evaluation>, policy: Request -> Evaluation,
                         response: string -> (Decision, Risk))

  const FRESH := State(None, false, None, None, false, [])

  predicate Blank(reason: string) {
    forall c :: c in reason ==> IsSpace(c)
  }

  // ---- what each call does, as a function of the state ------------------------------------------

  function Write(s: State, e: Entry): Done<()> {
    if s.sealed then Done(s, Err(TraceSealed)) else Done(s.(log := s.log + [e]), Ok(()))
  }

  /** `kill`: a record, once there, is returned before anything else is looked at. */
  function KillStep(s: State, reason: string, process: Option<int>): Done<KillRecord> {
    if s.kill.None? && Blank(reason) then Done(s, Err(BlankReason))
    else
      var target := if process.Some? then process else s.active;
      var record := if s.kill.Some? then s.kill.value else KillRecord(reason, target);
      if s.killEventWritten then Done(s.(kill := Some(record)), Ok(record))
      else
        var w := Write(s.(kill := Some(record), killEventWritten := true, active := None),
                       Entry(KillEngaged, Kill, Critical, reason));
        Done(w.state, if w.outcome.Ok? then Ok(record) else Err(TraceSealed))
  }

  function QuarantineStep(s: State, reason: string): Done<()> {
    if s.quarantine.Some? then Done(s, Ok(()))
    else Write(s.(quarantine := Some(reason)), Entry(QuarantineNotice, Quarantine, High, reason))
  }

  function Source(e: Evaluation): string {
    if e.tripwireId.Some? && e.tripwireId.value != "" then "TRIPWIRE:" + e.tripwireId.value
    else "POLICY:" + e.rule
  }

  /** `_apply`, and the evaluation as the answer unless it raised. */
  function ApplyStep(s: State, e: Evaluation): Done<Evaluation> {
    match e.decision
    case Kill =>
      var d := KillStep(s, Source(e), None);
      Done(d.state, if d.outcome.Ok? then Ok(e) else Err(d.outcome.error))
    case Quarantine =>
      var d := QuarantineStep(s, Source(e));
      Done(d.state, if d.outcome.Ok? then Ok(e) else Err(d.outcome.error))
    case _ => Done(s, Ok(e))
  }

  const SESSION_KILLED := Evaluation(Kill, Critical, "session is killed; all actions blocked", "session_killed", None)

  function Escalated(e: Evaluation): Evaluation {
    Evaluation(Kill, Critical, "quarantined session attempted another blocked action: " + e.reason,
               "quarantine_escalation", None)
  }

  /** The verdict before anything is recorded or applied. */
  function Verdict(rules: Rules, s: State, r: Request): Evaluation {
    if s.kill.Some? then SESSION_KILLED
    else if rules.tripwire(r).Some? then rules.tripwire(r).value
    else if s.quarantine.Some? && Blocked(rules.policy(r).decision) then Escalated(rules.policy(r))
    else rules.policy(r)
  }

  function DecisionEntries(e: Evaluation): seq<Entry> {
    [Entry(PolicyDecision, e.decision, e.risk, e.reason)] +
    if e.decision == Deny then [Entry(DeniedAction, Deny, e.risk, e.reason)] else []
  }

  /** The entries an evaluation writes before it is applied: a tripwire is always recorded. */
  function EntriesFor(rules: Rules, s: State, r: Request, record: bool): seq<Entry> {
    var e := Verdict(rules, s, r);
    if s.kill.Some? then
      if record then [Entry(BlockedAttempt, Kill, Critical, e.reason)] else []
    else if rules.tripwire(r).Some? then [Entry(TripwireActivation, e.decision, e.risk, e.reason)]
    else if record then DecisionEntries(e)
    else []
  }

  /** Entries first, then the verdict takes effect. */
  function EnforceStep(s: State, e: Evaluation, entries: seq<Entry>): Done<Evaluation> {
    if entries != [] && s.sealed then Done(s, Err(TraceSealed))
    else ApplyStep(s.(log := s.log + entries), e)
  }

  function EvaluateStep(rules: Rules, s: State, r: Request, record: bool): Done<Evaluation> {
    var e, entries := Verdict(rules, s, r), EntriesFor(rules, s, r, record);
    if s.kill.None? then EnforceStep(s, e, entries)
    else if entries == [] then Done(s, Ok(e))
    else
      var w := Write(s, entries[0]);
      Done(w.state, if w.outcome.Ok? then Ok(e) else Err(TraceSealed))
  }

  function SignalStep(rules: Rules, s: State, name: string): Done<Evaluation> {
    var (decision, risk) := if s.kill.Some? then (Kill, Critical) else rules.response(name);
    var e := Evaluation(decision, risk, "host signal " + name, "host_signal:" + name, None);
    var w := Write(s, Entry(HostSignal, decision, risk, e.reason));
    if w.outcome.Err? then Done(w.state, Err(TraceSealed))
    else
      match decision
      case Kill =>
        var d := KillStep(w.state, "HOST_SIGNAL:" + name, None);
        Done(d.state, if d.outcome.Ok? then Ok(e) else Err(d.outcome.error))
      case Quarantine =>
        var d := QuarantineStep(w.state, "HOST_SIGNAL:" + name);
        Done(d.state, if d.outcome.Ok? then Ok(e) else Err(d.outcome.error))
      case _ => Done(w.state, Ok(e))
  }

  // ---- the watcher ------------------------------------------------------------------------------

  class PoEWatcher {
    const rules: Rules
    var kill: Option<KillRecord>
    var killEventWritten: bool
    var quarantined: Option<string>
    var activeProcess: Option<int>
    var sealed: bool
    var log: seq<Entry>

    ghost function Value(): State
      reads this
    {
      State(kill, killEventWritten, quarantined, activeProcess, sealed, log)
    }

    constructor (rules: Rules)
      ensures this.rules == rules && Value() == FRESH
    {
      this.rules := rules;
      kill, killEventWritten, quarantined, activeProcess, sealed, log := None, false, None, None, false, [];
    }

    method Record(e: Entry) returns (r: Result<(), Error>)
      modifies this
      ensures var d := Write(old(Value()), e); Value() == d.state && r == d.outcome
    {
      if sealed {
        return Err(TraceSealed);
      }
      log := log + [e];
      return Ok(());
    }

    /** The first reason wins: an engaged switch hands back its record. */
    method Engage(reason: string, target: Option<int>) returns (r: Result<KillRecord, Error>)
      modifies this
      ensures old(kill).Some? ==> Value() == old(Value()) && r == Ok(old(kill).value)
      ensures old(kill).None? && Blank(reason) ==> Value() == old(Value()) && r == Err(BlankReason)
      ensures old(kill).None? && !Blank(reason) ==>
                && Value() == old(Value()).(kill := Some(KillRecord(reason, target)))
                && r == Ok(KillRecord(reason, target))
    {
      if kill.Some? {
        return Ok(kill.value);
      }
      if Blank(reason) {
        return Err(BlankReason);
      }
      kill := Some(KillRecord(reason, target));
      return Ok(kill.value);
    }

    method KillNow(reason: string, process: Option<int>) returns (r: Result<KillRecord, Error>)
      modifies this
      ensures var d := KillStep(old(Value()), reason, process); Value() == d.state && r == d.outcome
    {
      var target := if process.Some? then process else activeProcess;
      r := Engage(reason, target);
      if r.Ok? && !killEventWritten {
        killEventWritten := true;
        activeProcess := None;
        var w := Record(Entry(KillEngaged, Kill, Critical, reason));
        if w.Err? {
          r := Err(TraceSealed);
        }
      }
    }

    method QuarantineNow(reason: string) returns (r: Result<(), Error>)
      modifies this
      ensures var d := QuarantineStep(old(Value()), reason); Value() == d.state && r == d.outcome
    {
      if quarantined.Some? {
        return Ok(());
      }
      quarantined := Some(reason);
      r := Record(Entry(QuarantineNotice, Quarantine, High, reason));
    }

    method Apply(e: Evaluation) returns (r: Result<Evaluation, Error>)
      modifies this
      ensures var d := ApplyStep(old(Value()), e); Value() == d.state && r == d.outcome
    {
      r := Ok(e);
      if e.decision == Kill {
        var k := KillNow(Source(e), None);
        if k.Err? {
          r := Err(k.error);
        }
      } else if e.decision == Quarantine {
        var q := QuarantineNow(Source(e));
        if q.Err? {
          r := Err(q.error);
        }
      }
    }

    method RecordDecision(e: Evaluation) returns (r: Result<(), Error>)
      modifies this
      ensures var s := old(Value());
              if s.sealed then Value() == s && r == Err(TraceSealed)
              else Value() == s.(log := s.log + DecisionEntries(e)) && r == Ok(())
    {
      r := Record(Entry(PolicyDecision, e.decision, e.risk, e.reason));
      if r.Ok? && e.decision == Deny {
        r := Record(Entry(DeniedAction, Deny, e.risk, e.reason));
      }
    }

    /** The tripwire branch of `evaluate`. */
    method TouchTripwire(e: Evaluation) returns (r: Result<Evaluation, Error>)
      modifies this
      ensures var d := EnforceStep(old(Value()), e, [Entry(TripwireActivation, e.decision, e.risk, e.reason)]);
              Value() == d.state && r == d.outcome
    {
      var w := Record(Entry(TripwireActivation, e.decision, e.risk, e.reason));
      if w.Err? {
        return Err(TraceSealed);
      }
      r := Apply(e);
    }

    /** The end of `evaluate`: the policy's verdict, escalated or not, is recorded and applied. */
    method Enforce(e: Evaluation, record: bool) returns (r: Result<Evaluation, Error>)
      modifies this
      ensures var d := EnforceStep(old(Value()), e, if record then DecisionEntries(e) else []);
              Value() == d.state && r == d.outcome
    {
      if record {
        var w := RecordDecision(e);
        if w.Err? {
          return Err(TraceSealed);
        }
      } else {
        assert log + [] == log;
      }
      r := Apply(e);
    }

    method Evaluate(request: Request, record: bool) returns (r: Result<Evaluation, Error>)
      modifies this
      ensures var d := EvaluateStep(rules, old(Value()), request, record); Value() == d.state && r == d.outcome
    {
      if kill.Some? {
        r := RefuseKilled(record);
        return;
      }
      var tripwire := rules.tripwire(request);
      if tripwire.Some? {
        r := TouchTripwire(tripwire.value);
        return;
      }
      var e := rules.policy(request);
      if quarantined.Some? && Blocked(e.decision) {
        e := Escalated(e);
      }
      r := Enforce(e, record);
    }

    /** The killed branch of `evaluate`. */
    method RefuseKilled(record: bool) returns (r: Result<Evaluation, Error>)
      modifies this
      ensures var s := old(Value());
              if !record then Value() == s && r == Ok(SESSION_KILLED)
              else
                var d := Write(s, Entry(BlockedAttempt, Kill, Critical, SESSION_KILLED.reason));
                Value() == d.state && r == if d.outcome.Ok? then Ok(SESSION_KILLED) else Err(TraceSealed)
    {
      if record {
        var w := Record(Entry(BlockedAttempt, Kill, Critical, SESSION_KILLED.reason));
        if w.Err? {
          return Err(TraceSealed);
        }
      }
      return Ok(SESSION_KILLED);
    }

    method ReportSignal(name: string) returns (r: Result<Evaluation, Error>)
      modifies this
      ensures var d := SignalStep(rules, old(Value()), name); Value() == d.state && r == d.outcome
    {
      var (decision, risk) := if kill.Some? then (Kill, Critical) else rules.response(name);
      var e := Evaluation(decision, risk, "host signal " + name, "host_signal:" + name, None);
      var w := Record(Entry(HostSignal, decision, risk, e.reason));
      if w.Err? {
        return Err(TraceSealed);
      }
      r := Ok(e);
      if decision == Kill {
        var k := KillNow("HOST_SIGNAL:" + name, None);
        if k.Err? {
          r := Err(k.error);
        }
      } else if decision == Quarantine {
        var q := QuarantineNow("HOST_SIGNAL:" + name);
        if q.Err? {
          r := Err(TraceSealed);
        }
      }
    }
  }

  // ---- runs -------------------------------------------------------------------------------------

  datatype Call =
    | CallEvaluate(request: Request, record: bool)
    | CallSignal(name: string)
    | CallKill(reason: string, process: Option<int>)
    | CallQuarantine(reason: string)
    | CallObserve(entry: Entry)
    | CallSeal
    | Attach(pid: int)
    | Detach(pid: int)

  function Next(rules: Rules, s: State, c: Call): State {
    match c
    case CallEvaluate(request, record) => EvaluateStep(rules, s, request, record).state
    case CallSignal(name) => SignalStep(rules, s, name).state
    case CallKill(reason, process) => KillStep(s, reason, process).state
    case CallQuarantine(reason) => QuarantineStep(s, reason).state
    case CallObserve(entry) => Write(s, Entry(Observed(""), entry.decision, entry.risk, entry.reason)).state
    case CallSeal => s.(sealed := true)
    case Attach(pid) => s.(active := Some(pid))
    case Detach(pid) => if s.active == Some(pid) then s.(active := None) else s
  }

  function Run(rules: Rules, s: State, calls: seq<Call>): State
    decreases calls
  {
    if calls == [] then s else Run(rules, Next(rules, s, calls[0]), calls[1..])
  }

  /** How many entries of one kind there are. */
  function Count(log: seq<Entry>, kind: EntryKind): nat {
    if log == [] then 0
    else Count(log[..|log| - 1], kind) + if log[|log| - 1].kind == kind then 1 else 0
  }

  /** The switch and its entry go together while the trace takes entries, and there is never a second
      entry. */
  ghost predicate Invariant(s: State) {
    && (s.kill.Some? <==> s.killEventWritten)
    && Count(s.log, KillEngaged) <= (if s.kill.Some? then 1 else 0)
    && (!s.sealed && s.kill.Some? ==> Count(s.log, KillEngaged) == 1)
  }

  lemma CountAppend(log: seq<Entry>, e: Entry, kind: EntryKind)
    ensures Count(log + [e], kind) == Count(log, kind) + if e.kind == kind then 1 else 0
  {
    assert (log + [e])[..|log|] == log;
  }

  lemma {:induction false} CountNone(log: seq<Entry>, entries: seq<Entry>, kind: EntryKind)
    requires forall e :: e in entries ==> e.kind != kind
    ensures Count(log + entries, kind) == Count(log, kind)
    decreases |entries|
  {
    if entries == [] {
      assert log + entries == log;
    } else {
      var front, last := entries[..|entries| - 1], entries[|entries| - 1];
      CountNone(log, front, kind);
      CountAppend(log + front, last, kind);
      assert log + entries == log + front + [last];
    }
  }

  /** What a step may not undo. */
  ghost predicate Keeps(s: State, s': State) {
    && (s.kill.Some? ==> s'.kill == s.kill)
    && (s.quarantine.Some? ==> s'.quarantine == s.quarantine)
    && (s.sealed ==> s'.sealed && s'.log == s.log)
  }

  /** Of the daemon's entries the watcher writes none. */
  ghost predicate Unsupervised(s: State, s': State) {
    forall eventType :: Count(s'.log, Supervisory(eventType)) == Count(s.log, Supervisory(eventType))
  }

  ghost predicate Good(s: State, s': State) {
    Invariant(s') && Keeps(s, s') && Unsupervised(s, s')
  }

  lemma AppendUnsupervised(log: seq<Entry>, e: Entry)
    requires !e.kind.Supervisory?
    ensures forall eventType :: Count(log + [e], Supervisory(eventType)) == Count(log, Supervisory(eventType))
  {
    forall eventType
      ensures Count(log + [e], Supervisory(eventType)) == Count(log, Supervisory(eventType))
    {
      CountAppend(log, e, Supervisory(eventType));
    }
  }

  lemma WriteKeeps(s: State, e: Entry)
    requires Invariant(s) && !e.kind.KillEngaged? && !e.kind.Supervisory?
    ensures Good(s, Write(s, e).state)
  {
    CountAppend(s.log, e, KillEngaged);
    AppendUnsupervised(s.log, e);
  }

  lemma KillKeeps(s: State, reason: string, process: Option<int>)
    requires Invariant(s)
    ensures Good(s, KillStep(s, reason, process).state)
    ensures !Blank(reason) ==> KillStep(s, reason, process).state.kill.Some?
  {
    CountAppend(s.log, Entry(KillEngaged, Kill, Critical, reason), KillEngaged);
    AppendUnsupervised(s.log, Entry(KillEngaged, Kill, Critical, reason));
  }

  lemma QuarantineKeeps(s: State, reason: string)
    requires Invariant(s)
    ensures Good(s, QuarantineStep(s, reason).state)
  {
    CountAppend(s.log, Entry(QuarantineNotice, Quarantine, High, reason), KillEngaged);
    AppendUnsupervised(s.log, Entry(QuarantineNotice, Quarantine, High, reason));
  }

  lemma SourceNotBlank(e: Evaluation)
    ensures !Blank(Source(e))
  {
    assert Source(e)[0] in Source(e);
  }

  lemma ApplyKeeps(s: State, e: Evaluation)
    requires Invariant(s)
    ensures Good(s, ApplyStep(s, e).state)
    ensures e.decision == Kill ==> ApplyStep(s, e).state.kill.Some?
  {
    SourceNotBlank(e);
    KillKeeps(s, Source(e), None);
    QuarantineKeeps(s, Source(e));
  }

  lemma EnforceKeeps(s: State, e: Evaluation, entries: seq<Entry>)
    requires Invariant(s) && forall entry :: entry in entries ==> !entry.kind.KillEngaged? && !entry.kind.Supervisory?
    ensures Good(s, EnforceStep(s, e, entries).state)
  {
    if entries == [] || !s.sealed {
      var s' := s.(log := s.log + entries);
      CountNone(s.log, entries, KillEngaged);
      forall eventType
        ensures Count(s'.log, Supervisory(eventType)) == Count(s.log, Supervisory(eventType))
      {
        CountNone(s.log, entries, Supervisory(eventType));
      }
      assert entries == [] ==> s'.log == s.log;
      ApplyKeeps(s', e);
    }
  }

  lemma EvaluateKeeps(rules: Rules, s: State, r: Request, record: bool)
    requires Invariant(s)
    ensures Good(s, EvaluateStep(rules, s, r, record).state)
  {
    var entries := EntriesFor(rules, s, r, record);
    if s.kill.None? {
      EnforceKeeps(s, Verdict(rules, s, r), entries);
    } else if entries != [] {
      WriteKeeps(s, entries[0]);
    }
  }

  lemma GoodRefl(s: State)
    requires Invariant(s)
    ensures Good(s, s)
  {
  }

  lemma GoodChain(s: State, t: State, u: State)
    requires Good(s, t) && Good(t, u)
    ensures Good(s, u)
  {
  }

  lemma SignalKeeps(rules: Rules, s: State, name: string)
    requires Invariant(s)
    ensures Good(s, SignalStep(rules, s, name).state)
  {
    hide KillStep, QuarantineStep, Keeps, Unsupervised;
    var (decision, risk) := if s.kill.Some? then (Kill, Critical) else rules.response(name);
    var entry := Entry(HostSignal, decision, risk, "host signal " + name);
    WriteKeeps(s, entry);
    GoodRefl(Write(s, entry).state);
    KillKeeps(Write(s, entry).state, "HOST_SIGNAL:" + name, None);
    QuarantineKeeps(Write(s, entry).state, "HOST_SIGNAL:" + name);
    GoodChain(s, Write(s, entry).state, SignalStep(rules, s, name).state);
  }

  lemma NextKeeps(rules: Rules, s: State, c: Call)
    requires Invariant(s)
    ensures Good(s, Next(rules, s, c))
  {
    match c
    case CallEvaluate(request, record) => EvaluateKeeps(rules, s, request, record);
    case CallSignal(name) => SignalKeeps(rules, s, name);
    case CallKill(reason, process) => KillKeeps(s, reason, process);
    case CallQuarantine(reason) => QuarantineKeeps(s, reason);
    case CallObserve(entry) => WriteKeeps(s, Entry(Observed(""), entry.decision, entry.risk, entry.reason));
    case CallSeal =>
    case Attach(_) =>
    case Detach(_) =>
  }

  /** No call ever undoes a kill, changes its record or its first reason, lifts a quarantine, or
      touches a sealed trace. */
  lemma {:induction false} NothingUndone(rules: Rules, s: State, calls: seq<Call>)
    requires Invariant(s)
    ensures Good(s, Run(rules, s, calls))
    decreases calls
  {
    if calls != [] {
      NextKeeps(rules, s, calls[0]);
      NothingUndone(rules, Next(rules, s, calls[0]), calls[1..]);
    }
  }

  /** Over every run that leaves the trace unsealed, the kill switch has written its entry exactly
      once if the session is killed, and not at all otherwise. */
  lemma EngagedOnce(rules: Rules, calls: seq<Call>)
    ensures var s := Run(rules, FRESH, calls);
            && Count(s.log, KillEngaged) <= 1
            && (!s.sealed ==> Count(s.log, KillEngaged) == if s.kill.Some? then 1 else 0)
  {
    NothingUndone(rules, FRESH, calls);
  }

  /** After a kill every evaluation answers KILL, unless it was to be recorded in a sealed trace,
      which raises. */
  lemma KilledForever(rules: Rules, s: State, calls: seq<Call>, r: Request, record: bool)
    requires Invariant(s) && s.kill.Some?
    ensures var s' := Run(rules, s, calls);
            s'.kill == s.kill &&
            EvaluateStep(rules, s', r, record).outcome
              == if record && s'.sealed then Err(TraceSealed) else Ok(SESSION_KILLED)
  {
    NothingUndone(rules, s, calls);
  }

  /** No evaluation can answer KILL and leave the session running. */
  lemma KillIsReal(rules: Rules, s: State, r: Request, record: bool)
    requires Invariant(s)
    ensures var d := EvaluateStep(rules, s, r, record);
            d.outcome.Ok? && d.outcome.value.decision == Kill ==> d.state.kill.Some?
  {
  }

  /** A session that deserves to be killed is, exactly when the evaluation got as far as applying its
      verdict: recording comes first, so a sealed trace keeps an evaluation that records anything
      from engaging the switch. */
  lemma KillVerdictEngagesExactly(rules: Rules, s: State, r: Request, record: bool)
    requires Invariant(s) && s.kill.None? && Verdict(rules, s, r).decision == Kill
    ensures EvaluateStep(rules, s, r, record).state.kill.Some?
            <==> !(s.sealed && (record || rules.tripwire(r).Some?))
  {
    SourceNotBlank(Verdict(rules, s, r));
  }

  /** Every tripwire that answers at all lets the action pass or kills. */
  ghost predicate DecisiveTripwires(rules: Rules) {
    forall r :: rules.tripwire(r).Some? ==> rules.tripwire(r).value.decision in {Allow, Kill}
  }

  ghost predicate AllowsOrKills(rules: Rules, s: State, r: Request, record: bool) {
    var outcome := EvaluateStep(rules, s, r, record).outcome;
    outcome.Ok? ==> outcome.value.decision in {Allow, Kill}
  }

  /** Over every run, a quarantined session gets no third answer. */
  ghost predicate QuarantineFinal(rules: Rules) {
    forall calls, r, record :: Run(rules, FRESH, calls).quarantine.Some? ==>
      AllowsOrKills(rules, Run(rules, FRESH, calls), r, record)
  }

  lemma TripwireAnswers(rules: Rules, r: Request)
    requires rules.tripwire(r).Some? && rules.tripwire(r).value.decision !in {Allow, Kill}
    ensures var s := Run(rules, FRESH, [CallQuarantine("OPERATOR_QUARANTINE")]);
            s.quarantine.Some? && !AllowsOrKills(rules, s, r, true)
  {
    var call := CallQuarantine("OPERATOR_QUARANTINE");
    var s := Next(rules, FRESH, call);
    assert [call][1..] == [];
    assert Run(rules, s, []) == s;
    assert Run(rules, FRESH, [call]) == s;
    assert s.kill.None? && !s.sealed && s.quarantine.Some?;
  }

  /** The policy's verdicts are escalated in quarantine but a tripwire's are not, so the rule holds
      exactly when every tripwire is decisive. */
  lemma QuarantineFinalExactly(rules: Rules)
    ensures QuarantineFinal(rules) <==> DecisiveTripwires(rules)
  {
    if !DecisiveTripwires(rules) {
      var r :| rules.tripwire(r).Some? && rules.tripwire(r).value.decision !in {Allow, Kill};
      TripwireAnswers(rules, r);
    }
  }

  /** The same outcome, and states that differ in nothing but what was written besides engagements. */
  ghost predicate SameEffect<T>(quiet: Done<T>, loud: Done<T>) {
    quiet.outcome == loud.outcome && SameButLog(quiet.state, loud.state)
  }

  ghost predicate SameButLog(s: State, t: State) {
    s.(log := []) == t.(log := []) && Count(s.log, KillEngaged) == Count(t.log, KillEngaged)
  }

  lemma SameFields(s: State, t: State)
    ensures SameButLog(s, t) <==>
              && s.kill == t.kill && s.killEventWritten == t.killEventWritten && s.quarantine == t.quarantine
              && s.active == t.active && s.sealed == t.sealed && Count(s.log, KillEngaged) == Count(t.log, KillEngaged)
  {
  }

  lemma WriteSameEffect(s: State, t: State, e: Entry)
    requires SameButLog(s, t)
    ensures SameEffect(Write(s, e), Write(t, e))
  {
    CountAppend(s.log, e, KillEngaged);
    CountAppend(t.log, e, KillEngaged);
    hide Count;
  }

  lemma KillSameEffect(s: State, t: State, reason: string)
    requires SameButLog(s, t)
    ensures SameEffect(KillStep(s, reason, None), KillStep(t, reason, None))
  {
    hide Write, Blank, Count, SameButLog;
    SameFields(s, t);
    var record := if s.kill.Some? then s.kill.value else KillRecord(reason, s.active);
    var s1, t1 := s.(kill := Some(record), killEventWritten := true, active := None),
                  t.(kill := Some(record), killEventWritten := true, active := None);
    SameFields(s1, t1);
    WriteSameEffect(s1, t1, Entry(KillEngaged, Kill, Critical, reason));
    SameFields(s.(kill := Some(record)), t.(kill := Some(record)));
  }

  lemma QuarantineSameEffect(s: State, t: State, reason: string)
    requires SameButLog(s, t)
    ensures SameEffect(QuarantineStep(s, reason), QuarantineStep(t, reason))
  {
    hide Write, Count, SameButLog;
    SameFields(s, t);
    var s1, t1 := s.(quarantine := Some(reason)), t.(quarantine := Some(reason));
    SameFields(s1, t1);
    WriteSameEffect(s1, t1, Entry(QuarantineNotice, Quarantine, High, reason));
  }

  lemma ApplySameEffect(s: State, t: State, e: Evaluation)
    requires SameButLog(s, t)
    ensures SameEffect(ApplyStep(s, e), ApplyStep(t, e))
  {
    hide KillStep, QuarantineStep, Source, SameButLog;
    KillSameEffect(s, t, Source(e));
    QuarantineSameEffect(s, t, Source(e));
  }

  /** Entries that the switch did not write change nothing about how a verdict is applied. */
  lemma EntriesImmaterial(s: State, e: Evaluation, entries: seq<Entry>)
    requires !s.sealed && forall entry :: entry in entries ==> entry.kind != KillEngaged
    ensures SameEffect(EnforceStep(s, e, []), EnforceStep(s, e, entries))
  {
    var quiet, loud := s.(log := s.log + []), s.(log := s.log + entries);
    CountNone(s.log, entries, KillEngaged);
    assert s.log + [] == s.log;
    assert SameButLog(quiet, loud);
    hide ApplyStep, SameEffect, SameButLog;
    ApplySameEffect(quiet, loud, e);
  }

  /** Not recording changes what is written, never what is decided or enforced. */
  lemma UnrecordedStillApplies(rules: Rules, s: State, r: Request)
    requires !s.sealed
    ensures SameEffect(EvaluateStep(rules, s, r, false), EvaluateStep(rules, s, r, true))
  {
    var e := Verdict(rules, s, r);
    if s.kill.Some? {
      CountAppend(s.log, Entry(BlockedAttempt, Kill, Critical, e.reason), KillEngaged);
    } else if rules.tripwire(r).None? {
      hide EnforceStep, SameEffect;
      EntriesImmaterial(s, e, DecisionEntries(e));
    }
  }

  // ---- what a call comes to ---------------------------------------------------------------------

  /** The verdict on a request while nothing has been killed: a tripwire's, or the policy's, which in
      quarantine becomes a kill unless it allows. */
  ghost predicate Judges(rules: Rules, s: State, r: Request, e: Evaluation) {
    if rules.tripwire(r).Some? then e == rules.tripwire(r).value
    else if s.quarantine.Some? && rules.policy(r).decision != Allow then
      e == Evaluation(Kill, Critical,
                      "quarantined session attempted another blocked action: " + rules.policy(r).reason,
                      "quarantine_escalation", None)
    else e == rules.policy(r)
  }

  /** What a verdict is blamed on. */
  ghost predicate Blames(e: Evaluation, source: string) {
    if e.tripwireId.None? || e.tripwireId == Some("") then source == "POLICY:" + e.rule
    else source == "TRIPWIRE:" + e.tripwireId.value
  }

  /** The entry that applying a decision writes. */
  ghost function Consequence(s: State, d: Decision, source: string): seq<Entry> {
    if d == Kill then [Entry(KillEngaged, Kill, Critical, source)]
    else if d == Quarantine && s.quarantine.None? then [Entry(QuarantineNotice, Quarantine, High, source)]
    else []
  }

  /** The decision has taken effect: KILL engages the switch for the attached process and lets go of it,
      QUARANTINE keeps the first reason, and the others change nothing. */
  ghost predicate TakesEffect(s: State, s': State, d: Decision, source: string, entries: seq<Entry>) {
    && (s'.kill == if d == Kill then Some(KillRecord(source, s.active)) else s.kill)
    && (s'.active == if d == Kill then None else s.active)
    && (s'.quarantine == if d == Quarantine && s.quarantine.None? then Some(source) else s.quarantine)
    && s'.sealed == s.sealed
    && (s'.log == if s.sealed then s.log else s.log + entries + Consequence(s, d, source))
  }

  /** The entries a verdict is recorded by. */
  ghost predicate Records(rules: Rules, r: Request, record: bool, e: Evaluation, entries: seq<Entry>) {
    if rules.tripwire(r).Some? then entries == [Entry(TripwireActivation, e.decision, e.risk, e.reason)]
    else if !record then entries == []
    else if e.decision == Deny then
      entries == [Entry(PolicyDecision, Deny, e.risk, e.reason), Entry(DeniedAction, Deny, e.risk, e.reason)]
    else entries == [Entry(PolicyDecision, e.decision, e.risk, e.reason)]
  }

  lemma KillMeans(s: State, reason: string, process: Option<int>)
    requires Invariant(s)
    ensures var d := KillStep(s, reason, process);
            if s.kill.Some? then d == Done(s, Ok(s.kill.value))
            else if Blank(reason) then d == Done(s, Err(BlankReason))
            else
              var record := KillRecord(reason, if process.Some? then process else s.active);
              && d.state == State(Some(record), true, s.quarantine, None, s.sealed,
                                  if s.sealed then s.log else s.log + [Entry(KillEngaged, Kill, Critical, reason)])
              && d.outcome == if s.sealed then Err(TraceSealed) else Ok(record)
  {
  }

  lemma ApplyMeans(s: State, e: Evaluation, source: string)
    requires Invariant(s) && s.kill.None? && Blames(e, source)
    ensures var d := ApplyStep(s, e);
            && TakesEffect(s, d.state, e.decision, source, [])
            && d.outcome == if s.sealed && Consequence(s, e.decision, source) != [] then Err(TraceSealed) else Ok(e)
  {
    SourceNotBlank(e);
    KillMeans(s, Source(e), None);
    hide KillStep;
    assert Source(e) == source;
    assert s.log + [] == s.log;
  }

  lemma VerdictMeans(rules: Rules, s: State, r: Request, record: bool)
    requires s.kill.None?
    ensures var e, entries := Verdict(rules, s, r), EntriesFor(rules, s, r, record);
            && Judges(rules, s, r, e) && Blames(e, Source(e)) && Records(rules, r, record, e, entries)
            && forall entry :: entry in entries ==> entry.kind != KillEngaged
  {
  }

  /** The entries are written and the decision takes effect, or the trace refuses. */
  ghost predicate Enforced(s: State, d: Done<Evaluation>, e: Evaluation, source: string, entries: seq<Entry>) {
    if s.sealed && entries != [] then d == Done(s, Err(TraceSealed))
    else
      && TakesEffect(s, d.state, e.decision, source, entries)
      && d.outcome == if s.sealed && Consequence(s, e.decision, source) != [] then Err(TraceSealed) else Ok(e)
  }

  lemma EnforceMeans(s: State, e: Evaluation, entries: seq<Entry>)
    requires Invariant(s) && s.kill.None? && forall entry :: entry in entries ==> entry.kind != KillEngaged
    ensures Enforced(s, EnforceStep(s, e, entries), e, Source(e), entries)
  {
    var s1 := s.(log := s.log + entries);
    CountNone(s.log, entries, KillEngaged);
    assert entries == [] ==> s1.log == s.log;
    assert Invariant(s1);
    SourceNotBlank(e);
    ApplyMeans(s1, e, Source(e));
    hide ApplyStep, Source, Invariant;
    assert s1.log + [] == s1.log;
  }

  /** What an evaluation answers, writes and changes: the verdict is recorded, and then takes effect.
      Where there is something to record, a sealed trace keeps the verdict from taking effect; where
      there is not, only what the effect itself would write is lost. */
  lemma EvaluationMeans(rules: Rules, s: State, r: Request, record: bool)
    requires Invariant(s) && s.kill.None?
    ensures exists e, source, entries ::
              Judges(rules, s, r, e) && Blames(e, source) && Records(rules, r, record, e, entries) &&
              Enforced(s, EvaluateStep(rules, s, r, record), e, source, entries)
  {
    VerdictMeans(rules, s, r, record);
    hide Verdict, EntriesFor, Source, EnforceStep, Judges, Blames, Records, Enforced;
    var e, entries := Verdict(rules, s, r), EntriesFor(rules, s, r, record);
    EnforceMeans(s, e, entries);
    assert Judges(rules, s, r, e) && Blames(e, Source(e)) && Records(rules, r, record, e, entries) &&
           Enforced(s, EvaluateStep(rules, s, r, record), e, Source(e), entries);
  }

  /** A killed session gets no other answer. */
  lemma KilledEvaluationMeans(rules: Rules, s: State, r: Request, record: bool)
    requires s.kill.Some?
    ensures var d := EvaluateStep(rules, s, r, record);
            var reason := "session is killed; all actions blocked";
            var refusal := Entry(BlockedAttempt, Kill, Critical, reason);
            && d.state == (if record && !s.sealed then s.(log := s.log + [refusal]) else s)
            && d.outcome == (if record && s.sealed then Err(TraceSealed)
                             else Ok(Evaluation(Kill, Critical, reason, "session_killed", None)))
  {
  }

  lemma EffectAfterWrite(s: State, entry: Entry, d: Decision, source: string)
    requires Invariant(s) && !s.sealed && entry.kind != KillEngaged && "HOST_SIGNAL:" <= source
    ensures var s1 := s.(log := s.log + [entry]);
            && KillStep(s1, source, None).outcome.Ok? && QuarantineStep(s1, source).outcome.Ok?
            && (s.kill.Some? ==> KillStep(s1, source, None).state == s1)
            && (s.kill.None? && d == Kill ==> TakesEffect(s, KillStep(s1, source, None).state, d, source, [entry]))
            && (d == Quarantine ==> TakesEffect(s, QuarantineStep(s1, source).state, d, source, [entry]))
            && (d != Kill && d != Quarantine ==> TakesEffect(s, s1, d, source, [entry]))
  {
    CountAppend(s.log, entry, KillEngaged);
    assert source[0] == 'H' && source[0] in source && !IsSpace('H');
    assert !Blank(source);
    hide Blank;
    var s1 := s.(log := s.log + [entry]);
    KillMeans(s1, source, None);
    hide KillStep, Invariant;
    assert s.log + [entry] + [] == s.log + [entry];
  }

  /** A host signal is recorded, and then what the configuration answers to it takes effect; once the
      session is killed the answer is KILL, and there is nothing left to change. */
  lemma SignalMeans(rules: Rules, s: State, name: string)
    requires Invariant(s)
    ensures var d := SignalStep(rules, s, name);
            var (decision, risk) := if s.kill.Some? then (Kill, Critical) else rules.response(name);
            var entry := Entry(HostSignal, decision, risk, "host signal " + name);
            if s.sealed then d == Done(s, Err(TraceSealed))
            else
              && d.outcome == Ok(Evaluation(decision, risk, "host signal " + name, "host_signal:" + name, None))
              && if s.kill.Some? then d.state == s.(log := s.log + [entry])
                 else TakesEffect(s, d.state, decision, "HOST_SIGNAL:" + name, [entry])
  {
    if !s.sealed {
      var (decision, risk) := if s.kill.Some? then (Kill, Critical) else rules.response(name);
      var entry := Entry(HostSignal, decision, risk, "host signal " + name);
      EffectAfterWrite(s, entry, decision, "HOST_SIGNAL:" + name);
      hide KillStep, QuarantineStep, TakesEffect, Invariant;
    }
  }

  /** The switch takes the process attached last, unless it was detached again, and what was observed in
      between is in the log. */
  lemma AttachedIsKilled(rules: Rules, s: State, pid: int, other: int, entry: Entry, reason: string)
    requires Invariant(s) && s.kill.None? && !s.sealed && !Blank(reason)
    ensures var s' := Run(rules, s, [Attach(pid), CallObserve(entry), Detach(other), CallKill(reason, None)]);
            && s'.kill == Some(KillRecord(reason, if other == pid then None else Some(pid)))
            && s'.log == s.log + [Entry(Observed(""), entry.decision, entry.risk, entry.reason),
                                  Entry(KillEngaged, Kill, Critical, reason)]
  {
    hide KillStep, Blank, Count;
    var a, b, c, d := Attach(pid), CallObserve(entry), Detach(other), CallKill(reason, None);
    var s1 := Next(rules, s, a);
    var s2 := Next(rules, s1, b);
    var s3 := Next(rules, s2, c);
    NextKeeps(rules, s, a);
    NextKeeps(rules, s1, b);
    NextKeeps(rules, s2, c);
    KillMeans(s3, reason, None);
    hide Invariant, Keeps, Unsupervised, Run;
    RunFirst(rules, s, a, [b, c, d]);
    RunFirst(rules, s1, b, [c, d]);
    RunFirst(rules, s2, c, [d]);
    RunFirst(rules, s3, d, []);
    assert [a] + [b, c, d] == [a, b, c, d] && [b] + [c, d] == [b, c, d] && [c] + [d] == [c, d] && [d] + [] == [d];
  }

  lemma RunFirst(rules: Rules, s: State, c: Call, rest: seq<Call>)
    ensures Run(rules, s, [c] + rest) == Run(rules, Next(rules, s, c), rest)
    ensures Run(rules, s, []) == s && Run(rules, Next(rules, s, c), []) == Next(rules, s, c)
  {
    assert ([c] + rest)[1..] == rest;
    hide Next;
  }
}
