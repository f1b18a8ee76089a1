/** The supervisor daemon's kill paths and their accounting (`supervisor/daemon.py`): every block that
    holds the daemon lock is one step. A step may raise part-way; what it had changed by then stays.

    `dispatch` checks for shutdown and for a terminal state before the lock is taken, so that check
    may be out of date when the handler runs: the handlers are allowed at any time.
  */
module Daemon {
  import opened Strings
  import opened Decisions
  import opened Session
  import W = Watcher

  datatype SupervisoryAction = RecordOnly | QuarantineSession | KillSession

  /** What the containment backend did when told to destroy the unit: how the network isolation came
      out and what was found left of the unit, or where it raised. */
  datatype Backend = Replies(isolated: bool, empty: bool, survivors: bool) | Raises(isolation: Option<bool>)

  datatype State = State(watcher: W.State, machine: Machine, terminationRecorded: bool,
                         process: Option<int>, unit: bool, destroyed: bool, shuttingDown: bool)

  datatype After = After(state: State, raised: bool)

  const TERMINATION := W.Supervisory("process_termination")

  function Initial(at: int): State {
    State(W.FRESH, NewMachine(at), false, None, false, false, false)
  }

  // ---- the steps --------------------------------------------------------------------------------

  function Put(s: State, eventType: string, d: Decision, r: Risk, reason: string): After {
    var w := W.Write(s.watcher, W.Entry(W.Supervisory(eventType), d, r, reason));
    After(s.(watcher := w.state), w.outcome.Err?)
  }

  function Noted(eventType: string, r: Risk): W.Entry {
    W.Entry(W.Supervisory(eventType), Kill, r, "")
  }

  function Opening(isolated: bool): seq<W.Entry> {
    [Noted("container_termination_started", High)] + if isolated then [Noted("network_isolated", High)] else []
  }

  function Closing(empty: bool, survivors: bool): seq<W.Entry> {
    [Noted("container_terminated", if survivors then Critical else High)] +
    if empty then [Noted("containment_verified_empty", High)] else [Noted("kill_failed", Critical)]
  }

  function DestroyEntries(backend: Backend): seq<W.Entry> {
    match backend
    case Replies(isolated, empty, survivors) => Opening(isolated) + Closing(empty, survivors)
    case Raises(isolation) => Opening(isolation == Some(true))
  }

  /** `_destroy_unit`: once, and only if there is a unit. */
  function DestroyUnit(s: State, backend: Backend): After {
    if !s.unit || s.destroyed then After(s, false)
    else if s.watcher.sealed then After(s, true)
    else
      var s' := s.(watcher := s.watcher.(log := s.watcher.log + DestroyEntries(backend)));
      if backend.Raises? then After(s', true) else After(s'.(destroyed := true), false)
  }

  /** `_after_kill_locked`. */
  function AfterKill(s: State, backend: Backend, at: int): After {
    if s.terminationRecorded || s.watcher.kill.None? then After(s, false)
    else
      var reason := s.watcher.kill.value.reason;
      var d := DestroyUnit(s, backend);
      if d.raised then d
      else
        var p := Put(d.state.(terminationRecorded := true), "process_termination", Kill, Critical, reason);
        if p.raised then p
        else After(p.state.(machine := MoveQuiet(p.state.machine, Killed, at, reason)), false)
  }

  /** `_kill_locked`. */
  function KillLocked(s: State, reason: string, backend: Backend, at: int): After {
    if s.watcher.kill.Some? then AfterKill(s, backend, at)
    else
      var k := W.KillStep(s.watcher, reason, s.process);
      var s' := s.(watcher := k.state);
      if k.outcome.Err? then After(s', true)
      else
        var d := DestroyUnit(s', backend);
        if d.raised then d else AfterKill(d.state, backend, at)
  }

  function Supervise(s: State, action: SupervisoryAction, source: string, backend: Backend, at: int): After {
    match action
    case RecordOnly => After(s, false)
    case QuarantineSession =>
      if s.watcher.quarantine.Some? then After(s, false)
      else
        var q := W.QuarantineStep(s.watcher, source);
        var s' := s.(watcher := q.state);
        if q.outcome.Err? then After(s', true)
        else After(s'.(machine := MoveQuiet(s'.machine, Quarantined, at, source)), false)
    case KillSession => KillLocked(s, source, backend, at)
  }

  function HandleEvaluate(rules: W.Rules, s: State, r: W.Request, backend: Backend, at: int): After {
    var e := W.EvaluateStep(rules, s.watcher, r, true);
    var s' := s.(watcher := e.state);
    if e.outcome.Err? then After(s', true)
    else if s'.watcher.kill.Some? then AfterKill(s', backend, at)
    else if s'.watcher.quarantine.Some? && s'.machine.state != Quarantined then
      After(s'.(machine := MoveQuiet(s'.machine, Quarantined, at, e.outcome.value.rule)), false)
    else After(s', false)
  }

  function HandleKillRequest(s: State, reason: string, rejected: bool, backend: Backend, at: int): After {
    var p := if rejected then Put(s, "client_field_rejected", Allow, Elevated, "") else After(s, false);
    if p.raised || p.state.watcher.kill.Some? then p
    else KillLocked(p.state, "CLIENT_REQUEST:" + reason, backend, at)
  }

  /** What the monitor and the disconnect hook report as lost. */
  datatype Lost = HeartbeatLost | IpcLost

  function LostEvent(lost: Lost): string {
    if lost == HeartbeatLost then "heartbeat_lost" else "ipc_lost"
  }

  function LostSource(lost: Lost): string {
    if lost == HeartbeatLost then "HEARTBEAT_LOST" else "IPC_LOST"
  }

  function LostRisk(lost: Lost): Risk {
    if lost == HeartbeatLost then High else Elevated
  }

  /** Recorded first, then acted upon. */
  function LossStep(s: State, lost: Lost, action: SupervisoryAction, backend: Backend, at: int): After {
    var p := Put(s, LostEvent(lost), Deny, LostRisk(lost), "");
    if p.raised then p else Supervise(p.state, action, LostSource(lost), backend, at)
  }

  function TimeoutStep(s: State, backend: Backend, at: int): After {
    var p := Put(s, "session_timeout", Kill, High, "");
    if p.raised then p else KillLocked(p.state, "MAX_RUNTIME_EXCEEDED", backend, at)
  }

  function StopStep(s: State, reason: string, backend: Backend, at: int): After {
    if s.watcher.kill.Some? || s.shuttingDown then After(s, false) else KillLocked(s, reason, backend, at)
  }

  function ShutdownStep(s: State, reason: string, backend: Backend, at: int): After {
    if s.watcher.kill.Some? || s.shuttingDown then After(s, false)
    else
      var p := Put(s, "shutdown_requested", Kill, High, reason);
      if p.raised then p
      else KillLocked(p.state, if reason == "" then "SHUTDOWN_REQUESTED" else reason, backend, at)
  }

  /** Where `_finalize` decides the terminal state. */
  function Conclude(s: State, verified: bool, exitCode: int, observed: bool, at: int): State {
    var target :=
      if !verified then Failed
      else if s.watcher.kill.Some? then Killed
      else if exitCode == 0 && observed then Completed
      else Failed;
    s.(machine := MoveQuiet(s.machine, target, at, ""))
  }

  // ---- the daemon as an object ------------------------------------------------------------------

  class SupervisorDaemon {
    const watcher: W.PoEWatcher
    const machine: SessionStateMachine
    var terminationRecorded: bool
    var process: Option<int>
    var unit: bool
    var destroyed: bool
    var shuttingDown: bool

    ghost function Value(): State
      reads this, watcher, machine
    {
      State(watcher.Value(), machine.Value(), terminationRecorded, process, unit, destroyed, shuttingDown)
    }

    constructor (rules: W.Rules, at: int)
      ensures Value() == Initial(at) && watcher.rules == rules && fresh(watcher) && fresh(machine)
    {
      watcher := new W.PoEWatcher(rules);
      machine := new SessionStateMachine(at);
      terminationRecorded, process, unit, destroyed, shuttingDown := false, None, false, false, false;
    }

    method Record(eventType: string, d: Decision, r: Risk, reason: string) returns (raised: bool)
      modifies watcher
      ensures After(Value(), raised) == Put(old(Value()), eventType, d, r, reason)
    {
      var w := watcher.Record(W.Entry(W.Supervisory(eventType), d, r, reason));
      raised := w.Err?;
    }

    method Note(eventType: string, r: Risk)
      requires !watcher.sealed
      modifies watcher
      ensures watcher.Value() == old(watcher.Value()).(log := old(watcher.log) + [Noted(eventType, r)])
    {
      var raised := Record(eventType, Kill, r, "");
    }

    method Open(isolated: bool)
      requires !watcher.sealed
      modifies watcher
      ensures watcher.Value() == old(watcher.Value()).(log := old(watcher.log) + Opening(isolated))
    {
      hide Noted;
      Note("container_termination_started", High);
      if isolated {
        Note("network_isolated", High);
      }
    }

    method Close(empty: bool, survivors: bool)
      requires !watcher.sealed
      modifies watcher
      ensures watcher.Value() == old(watcher.Value()).(log := old(watcher.log) + Closing(empty, survivors))
    {
      hide Noted;
      Note("container_terminated", if survivors then Critical else High);
      if empty {
        Note("containment_verified_empty", High);
      } else {
        Note("kill_failed", Critical);
      }
    }

    method TearDown(backend: Backend)
      requires !watcher.sealed
      modifies watcher
      ensures watcher.Value() == old(watcher.Value()).(log := old(watcher.log) + DestroyEntries(backend))
    {
      hide Opening, Closing;
      Open(if backend.Replies? then backend.isolated else backend.isolation == Some(true));
      if backend.Replies? {
        Close(backend.empty, backend.survivors);
      }
    }

    method Destroy(backend: Backend) returns (raised: bool)
      modifies this, watcher
      ensures After(Value(), raised) == DestroyUnit(old(Value()), backend)
    {
      if !unit || destroyed {
        return false;
      }
      if watcher.sealed {
        return true;
      }
      TearDown(backend);
      destroyed := backend.Replies?;
      raised := backend.Raises?;
    }

    method AfterKillLocked(backend: Backend, at: int) returns (raised: bool)
      modifies this, watcher, machine
      ensures After(Value(), raised) == AfterKill(old(Value()), backend, at)
    {
      if terminationRecorded || watcher.kill.None? {
        return false;
      }
      var reason := watcher.kill.value.reason;
      raised := Destroy(backend);
      if raised {
        return;
      }
      terminationRecorded := true;
      raised := Record("process_termination", Kill, Critical, reason);
      if !raised {
        var _ := machine.MoveTo(Killed, at, reason);
      }
    }

    method KillSessionLocked(reason: string, backend: Backend, at: int) returns (raised: bool)
      modifies this, watcher, machine
      ensures After(Value(), raised) == KillLocked(old(Value()), reason, backend, at)
    {
      if watcher.kill.Some? {
        raised := AfterKillLocked(backend, at);
        return;
      }
      var k := watcher.KillNow(reason, process);
      if k.Err? {
        return true;
      }
      raised := Destroy(backend);
      if !raised {
        raised := AfterKillLocked(backend, at);
      }
    }

    method Stop(reason: string, backend: Backend, at: int) returns (raised: bool)
      modifies this, watcher, machine
      ensures After(Value(), raised) == StopStep(old(Value()), reason, backend, at)
    {
      raised := false;
      if watcher.kill.None? && !shuttingDown {
        raised := KillSessionLocked(reason, backend, at);
      }
    }

    method Evaluate(r: W.Request, backend: Backend, at: int) returns (raised: bool)
      modifies this, watcher, machine
      ensures After(Value(), raised) == HandleEvaluate(watcher.rules, old(Value()), r, backend, at)
    {
      var e := watcher.Evaluate(r, true);
      if e.Err? {
        return true;
      }
      raised := false;
      if watcher.kill.Some? {
        raised := AfterKillLocked(backend, at);
      } else if watcher.quarantined.Some? && machine.state != Quarantined {
        var _ := machine.MoveTo(Quarantined, at, e.value.rule);
      }
    }

    method KillRequest(reason: string, rejected: bool, backend: Backend, at: int) returns (raised: bool)
      modifies this, watcher, machine
      ensures After(Value(), raised) == HandleKillRequest(old(Value()), reason, rejected, backend, at)
    {
      raised := false;
      if rejected {
        raised := Record("client_field_rejected", Allow, Elevated, "");
        if raised {
          return;
        }
      }
      if watcher.kill.None? {
        raised := KillSessionLocked("CLIENT_REQUEST:" + reason, backend, at);
      }
    }
  }

  // ---- runs -------------------------------------------------------------------------------------

  datatype Action =
    | Stop(reason: string, backend: Backend, at: int)
    | Evaluate(request: W.Request, backend: Backend, at: int)
    | KillRequest(reason: string, rejected: bool, backend: Backend, at: int)
    | Loss(lost: Lost, action: SupervisoryAction, backend: Backend, at: int)
    | Timeout(backend: Backend, at: int)
    | Shutdown(reason: string, backend: Backend, at: int)
    | Observe(entry: W.Entry)
    | Lifecycle(eventType: string)
    | Launch(process: int)
    | Contain
    | Dismantle(backend: Backend) // the unit is destroyed at start-up or at the end, without a kill
    | Advance(target: SessionState, at: int)
    | Fail(at: int)
    | ClaimFinalisation
    | Conclusion(verified: bool, exitCode: int, observed: bool, at: int)
    | SealTrace

  /** No entry but the accounting of a kill is a `process_termination`, and the daemon moves to
      STARTING and RUNNING only where it starts the process. */
  predicate Possible(a: Action) {
    (a.Lifecycle? ==> a.eventType != "process_termination") &&
    (a.Advance? ==> a.target == Starting || a.target == Running)
  }

  function Next(rules: W.Rules, s: State, a: Action): State {
    match a
    case Stop(reason, backend, at) => StopStep(s, reason, backend, at).state
    case Evaluate(request, backend, at) => HandleEvaluate(rules, s, request, backend, at).state
    case KillRequest(reason, rejected, backend, at) => HandleKillRequest(s, reason, rejected, backend, at).state
    case Loss(lost, action, backend, at) => LossStep(s, lost, action, backend, at).state
    case Timeout(backend, at) => TimeoutStep(s, backend, at).state
    case Shutdown(reason, backend, at) => ShutdownStep(s, reason, backend, at).state
    case Observe(entry) => s.(watcher := W.Next(rules, s.watcher, W.CallObserve(entry)))
    case Lifecycle(eventType) => Put(s, eventType, Allow, Normal, "").state
    case Launch(process) => s.(process := Some(process), watcher := s.watcher.(active := Some(process)))
    case Contain => s.(unit := true)
    case Dismantle(backend) => DestroyUnit(s, backend).state
    case Advance(target, at) => s.(machine := MoveQuiet(s.machine, target, at, ""))
    case Fail(at) => s.(machine := MoveQuiet(s.machine, Failed, at, ""))
    case ClaimFinalisation => s.(shuttingDown := true)
    case Conclusion(verified, exitCode, observed, at) => Conclude(s, verified, exitCode, observed, at)
    case SealTrace => s.(watcher := s.watcher.(sealed := true))
  }

  function Run(rules: W.Rules, s: State, actions: seq<Action>): State
    decreases actions
  {
    if actions == [] then s else Run(rules, Next(rules, s, actions[0]), actions[1..])
  }

  predicate BackendReplies(a: Action) {
    (a.Stop? || a.Evaluate? || a.KillRequest? || a.Loss? || a.Timeout? || a.Shutdown?) ==> a.backend.Replies?
  }

  function Terminations(s: State): nat {
    W.Count(s.watcher.log, TERMINATION)
  }

  /** The books of every reachable state. */
  ghost predicate Books(s: State) {
    && W.Invariant(s.watcher)
    && Legal(s.machine)
    && Terminations(s) <= (if s.terminationRecorded then 1 else 0)
    && (!s.watcher.sealed && s.terminationRecorded ==> Terminations(s) == 1)
    && (s.terminationRecorded ==> s.watcher.kill.Some?)
    && (s.machine.state == Killed ==> s.watcher.kill.Some?)
  }

  /** A kill has been accounted for. */
  predicate Settled(s: State) {
    s.watcher.kill.Some? ==> s.terminationRecorded
  }

  /** Books kept, history extended, nothing unsealed, and a settled state left settled if the trace
      still takes entries and the backend did not raise. */
  ghost predicate Good(s: State, s': State, replies: bool) {
    && Books(s')
    && s.machine.history <= s'.machine.history
    && (s.watcher.sealed ==> s'.watcher.sealed)
    && (Settled(s) && replies && !s'.watcher.sealed ==> Settled(s'))
  }

  lemma GoodChain(s: State, t: State, u: State, replies: bool)
    requires Good(s, t, replies) && Good(t, u, replies)
    ensures Good(s, u, replies)
  {
  }

  lemma PutKeeps(s: State, eventType: string, d: Decision, r: Risk, reason: string)
    requires Books(s) && eventType != "process_termination"
    ensures Good(s, Put(s, eventType, d, r, reason).state, true)
    ensures var p := Put(s, eventType, d, r, reason);
            && (p.raised <==> s.watcher.sealed)
            && p.state.watcher.kill == s.watcher.kill && p.state.watcher.sealed == s.watcher.sealed
            && p.state.terminationRecorded == s.terminationRecorded
  {
    var e := W.Entry(W.Supervisory(eventType), d, r, reason);
    W.CountAppend(s.watcher.log, e, TERMINATION);
    W.CountAppend(s.watcher.log, e, W.KillEngaged);
  }

  lemma DestroyEntriesOther(backend: Backend)
    ensures forall e :: e in DestroyEntries(backend) ==> e.kind != TERMINATION && e.kind != W.KillEngaged
  {
  }

  lemma DestroyKeeps(s: State, backend: Backend)
    requires Books(s)
    ensures var d := DestroyUnit(s, backend);
            && Books(d.state) && d.state.watcher.kill == s.watcher.kill && d.state.machine == s.machine
            && d.state.terminationRecorded == s.terminationRecorded
            && d.state.watcher.sealed == s.watcher.sealed
            && (d.raised <==> s.unit && !s.destroyed && (s.watcher.sealed || backend.Raises?))
            && (!d.raised ==> !d.state.unit || d.state.destroyed)
  {
    DestroyEntriesOther(backend);
    W.CountNone(s.watcher.log, DestroyEntries(backend), TERMINATION);
    W.CountNone(s.watcher.log, DestroyEntries(backend), W.KillEngaged);
  }

  /** The accounting step makes up for a kill: whatever went wrong before, with a backend that replies
      and a trace that takes entries the account is complete afterwards. */
  lemma AfterKillSettles(s: State, backend: Backend, at: int)
    requires Books(s)
    ensures Good(s, AfterKill(s, backend, at).state, true)
    ensures backend.Replies? && !s.watcher.sealed ==>
              Settled(AfterKill(s, backend, at).state) && !AfterKill(s, backend, at).raised
    ensures AfterKill(s, backend, at).state.watcher.sealed == s.watcher.sealed
  {
    if !s.terminationRecorded && s.watcher.kill.Some? {
      DestroyKeeps(s, backend);
      var d := DestroyUnit(s, backend).state;
      var reason := s.watcher.kill.value.reason;
      var e := W.Entry(TERMINATION, Kill, Critical, reason);
      W.CountAppend(d.watcher.log, e, TERMINATION);
      W.CountAppend(d.watcher.log, e, W.KillEngaged);
      MoveKeepsLegal(d.machine, Killed, at, reason);
    }
  }

  lemma WatcherMoves(s: State, w: W.State)
    requires Books(s) && W.Good(s.watcher, w)
    ensures Good(s, s.(watcher := w), w.kill == s.watcher.kill)
  {
    assert W.Count(w.log, TERMINATION) == W.Count(s.watcher.log, TERMINATION);
  }

  lemma KillKeeps(s: State, reason: string, backend: Backend, at: int)
    requires Books(s)
    ensures Good(s, KillLocked(s, reason, backend, at).state, backend.Replies?)
  {
    hide Books;
    if s.watcher.kill.Some? {
      AfterKillSettles(s, backend, at);
    } else {
      KillFreshKeeps(s, reason, backend, at);
    }
  }

  /** Why a kill raises, and what it reaches. */
  lemma KillOutcome(w: W.State, reason: string, process: Option<int>)
    ensures var k := W.KillStep(w, reason, process);
            && k.state.sealed == w.sealed
            && (k.outcome.Err? ==> w.sealed || k.state == w)
            && (k.outcome.Ok? ==> k.state.kill.Some?)
            && (!W.Blank(reason) && !w.sealed ==> k.outcome.Ok?)
  {
  }

  /** What the rest of `_kill_locked` needs to know of the kill itself. */
  ghost predicate JustKilled(s: State, s': State) {
    && Good(s, s', false)
    && s'.watcher.sealed == s.watcher.sealed && s'.unit == s.unit && s'.destroyed == s.destroyed
    && s'.machine == s.machine && s'.terminationRecorded == s.terminationRecorded
  }

  lemma KillLeads(s: State, reason: string)
    requires Books(s) && s.watcher.kill.None?
    ensures JustKilled(s, s.(watcher := W.KillStep(s.watcher, reason, s.process).state))
  {
    W.KillKeeps(s.watcher, reason, s.process);
    KillOutcome(s.watcher, reason, s.process);
    WatcherMoves(s, W.KillStep(s.watcher, reason, s.process).state);
  }

  lemma KillFreshKeeps(s: State, reason: string, backend: Backend, at: int)
    requires Books(s) && s.watcher.kill.None?
    ensures Good(s, KillLocked(s, reason, backend, at).state, backend.Replies?)
  {
    hide W.KillStep, W.Invariant, W.Keeps, W.Unsupervised, W.Write, DestroyUnit, AfterKill, Books;
    var k := W.KillStep(s.watcher, reason, s.process);
    var s' := s.(watcher := k.state);
    KillOutcome(s.watcher, reason, s.process);
    KillLeads(s, reason);
    DestroyKeeps(s', backend);
    AfterKillSettles(DestroyUnit(s', backend).state, backend, at);
  }

  /** A first kill is accounted for at once exactly when no containment backend raises in the middle
      of it. */
  lemma KillSettlesExactly(s: State, reason: string, backend: Backend, at: int)
    requires Books(s) && s.watcher.kill.None? && !s.watcher.sealed && !W.Blank(reason)
    ensures var s' := KillLocked(s, reason, backend, at).state;
            s'.watcher.kill.Some? && (Settled(s') <==> !s.unit || s.destroyed || backend.Replies?)
  {
    NotYetRecorded(s);
    hide W.KillStep, W.Invariant, W.Keeps, W.Unsupervised, W.Write, DestroyUnit, AfterKill, Books;
    var k := W.KillStep(s.watcher, reason, s.process);
    var s' := s.(watcher := k.state);
    KillOutcome(s.watcher, reason, s.process);
    KillLeads(s, reason);
    DestroyKeeps(s', backend);
    var d := DestroyUnit(s', backend);
    if !d.raised {
      DestroyedOnce(d.state, backend);
      AfterKillLands(d.state, backend, at);
    }
  }

  lemma NotYetRecorded(s: State)
    requires Books(s) && s.watcher.kill.None?
    ensures !s.terminationRecorded && s.machine.state != Killed
  {
  }

  lemma DestroyedOnce(s: State, backend: Backend)
    requires !s.unit || s.destroyed
    ensures DestroyUnit(s, backend) == After(s, false)
  {
  }

  /** With nothing left to destroy, the accounting goes through and takes the session along. */
  lemma AfterKillLands(s: State, backend: Backend, at: int)
    requires !s.unit || s.destroyed
    requires s.watcher.kill.Some? && !s.watcher.sealed && !s.terminationRecorded
    ensures var s' := AfterKill(s, backend, at).state;
            && s'.watcher.kill == s.watcher.kill && s'.terminationRecorded
            && s'.machine == MoveQuiet(s.machine, Killed, at, s.watcher.kill.value.reason)
  {
  }

  lemma QuarantineKeeps(s: State, source: string, at: int)
    requires Books(s) && s.watcher.quarantine.None?
    ensures var s' := s.(watcher := W.QuarantineStep(s.watcher, source).state);
            && Good(s, s', true)
            && Good(s, s'.(machine := MoveQuiet(s'.machine, Quarantined, at, source)), true)
  {
    W.QuarantineKeeps(s.watcher, source);
    assert W.QuarantineStep(s.watcher, source).state.kill == s.watcher.kill;
    hide W.QuarantineStep, W.Invariant, W.Keeps, W.Unsupervised;
    WatcherMoves(s, W.QuarantineStep(s.watcher, source).state);
    MoveKeepsLegal(s.machine, Quarantined, at, source);
  }

  lemma SuperviseKeeps(s: State, action: SupervisoryAction, source: string, backend: Backend, at: int)
    requires Books(s)
    ensures Good(s, Supervise(s, action, source, backend, at).state, backend.Replies?)
  {
    hide W.QuarantineStep, KillLocked, Books;
    match action
    case RecordOnly =>
    case QuarantineSession =>
      if s.watcher.quarantine.None? {
        QuarantineKeeps(s, source, at);
      }
    case KillSession => KillKeeps(s, source, backend, at);
  }

  /** An evaluation on a trace that takes entries does not raise. */
  lemma EvaluateReturns(rules: W.Rules, w: W.State, r: W.Request)
    requires W.Invariant(w) && !w.sealed
    ensures W.EvaluateStep(rules, w, r, true).outcome.Ok?
  {
    W.SourceNotBlank(W.Verdict(rules, w, r));
  }

  lemma EvaluateKeeps(rules: W.Rules, s: State, r: W.Request, backend: Backend, at: int)
    requires Books(s)
    ensures Good(s, HandleEvaluate(rules, s, r, backend, at).state, backend.Replies?)
  {
    W.EvaluateKeeps(rules, s.watcher, r, true);
    var e := W.EvaluateStep(rules, s.watcher, r, true);
    var s' := s.(watcher := e.state);
    WatcherMoves(s, e.state);
    if !s.watcher.sealed {
      EvaluateReturns(rules, s.watcher, r);
    }
    EvaluateEnds(s, s', e.outcome, backend, at);
  }

  lemma EvaluateEnds(s: State, s': State, outcome: Result<Evaluation, W.Error>, backend: Backend, at: int)
    requires Books(s) && Good(s, s', s'.watcher.kill == s.watcher.kill)
    requires outcome.Err? ==> s.watcher.sealed
    ensures outcome.Err? ==> Good(s, s', backend.Replies?)
    ensures outcome.Ok? && s'.watcher.kill.Some? ==> Good(s, AfterKill(s', backend, at).state, backend.Replies?)
    ensures outcome.Ok? && s'.watcher.kill.None? ==>
              && Good(s, s', backend.Replies?)
              && Good(s, s'.(machine := MoveQuiet(s'.machine, Quarantined, at, outcome.value.rule)), backend.Replies?)
  {
    if outcome.Ok? {
      AfterKillSettles(s', backend, at);
      MoveKeepsLegal(s'.machine, Quarantined, at, outcome.value.rule);
    }
  }

  lemma MoveKeeps(s: State, target: SessionState, at: int, reason: string)
    requires Books(s) && (target == Killed ==> s.watcher.kill.Some?)
    ensures Good(s, s.(machine := MoveQuiet(s.machine, target, at, reason)), true)
  {
    MoveKeepsLegal(s.machine, target, at, reason);
  }

  lemma PutThenKillKeeps(s: State, p: State, reason: string, backend: Backend, at: int)
    requires Books(s) && Good(s, p, true)
    ensures Good(s, KillLocked(p, reason, backend, at).state, backend.Replies?)
  {
    hide KillLocked, Books;
    KillKeeps(p, reason, backend, at);
  }

  lemma KillRequestKeeps(s: State, reason: string, rejected: bool, backend: Backend, at: int)
    requires Books(s)
    ensures Good(s, HandleKillRequest(s, reason, rejected, backend, at).state, backend.Replies?)
  {
    hide KillLocked, Put, Books;
    PutKeeps(s, "client_field_rejected", Allow, Elevated, "");
    PutThenKillKeeps(s, s, "CLIENT_REQUEST:" + reason, backend, at);
    var p := Put(s, "client_field_rejected", Allow, Elevated, "").state;
    PutThenKillKeeps(s, p, "CLIENT_REQUEST:" + reason, backend, at);
  }

  lemma LossKeeps(s: State, lost: Lost, action: SupervisoryAction, backend: Backend, at: int)
    requires Books(s)
    ensures Good(s, LossStep(s, lost, action, backend, at).state, backend.Replies?)
  {
    assert LostEvent(lost) != "process_termination";
    hide Supervise, Put, Books, LostEvent, LostSource, LostRisk;
    PutKeeps(s, LostEvent(lost), Deny, LostRisk(lost), "");
    SuperviseKeeps(Put(s, LostEvent(lost), Deny, LostRisk(lost), "").state, action, LostSource(lost), backend, at);
  }

  lemma TimeoutKeeps(s: State, backend: Backend, at: int)
    requires Books(s)
    ensures Good(s, TimeoutStep(s, backend, at).state, backend.Replies?)
  {
    hide KillLocked, Put, Books;
    PutKeeps(s, "session_timeout", Kill, High, "");
    PutThenKillKeeps(s, Put(s, "session_timeout", Kill, High, "").state, "MAX_RUNTIME_EXCEEDED", backend, at);
  }

  lemma ShutdownKeeps(s: State, reason: string, backend: Backend, at: int)
    requires Books(s)
    ensures Good(s, ShutdownStep(s, reason, backend, at).state, backend.Replies?)
  {
    hide KillLocked, Put, Books;
    PutKeeps(s, "shutdown_requested", Kill, High, reason);
    PutThenKillKeeps(s, Put(s, "shutdown_requested", Kill, High, reason).state,
                     if reason == "" then "SHUTDOWN_REQUESTED" else reason, backend, at);
  }

  lemma ObserveKeeps(rules: W.Rules, s: State, entry: W.Entry)
    requires Books(s)
    ensures Good(s, s.(watcher := W.Next(rules, s.watcher, W.CallObserve(entry))), true)
  {
    W.NextKeeps(rules, s.watcher, W.CallObserve(entry));
    WatcherMoves(s, W.Next(rules, s.watcher, W.CallObserve(entry)));
  }

  lemma ConcludeKeeps(s: State, verified: bool, exitCode: int, observed: bool, at: int)
    requires Books(s)
    ensures Good(s, Conclude(s, verified, exitCode, observed, at), true)
  {
    hide MoveQuiet, Books;
    MoveKeeps(s, Failed, at, "");
    MoveKeeps(s, Completed, at, "");
    if s.watcher.kill.Some? {
      MoveKeeps(s, Killed, at, "");
    }
  }

  lemma NextKeeps(rules: W.Rules, s: State, a: Action)
    requires Books(s) && Possible(a)
    ensures Good(s, Next(rules, s, a), BackendReplies(a))
  {
    hide HandleEvaluate, HandleKillRequest, LossStep, TimeoutStep, ShutdownStep, KillLocked, Conclude, Put, W.Next,
         MoveQuiet, DestroyUnit, Legal, W.Count;
    match a
    case Stop(reason, backend, at) => KillKeeps(s, reason, backend, at);
    case Evaluate(request, backend, at) => EvaluateKeeps(rules, s, request, backend, at);
    case KillRequest(reason, rejected, backend, at) => KillRequestKeeps(s, reason, rejected, backend, at);
    case Loss(lost, action, backend, at) => LossKeeps(s, lost, action, backend, at);
    case Timeout(backend, at) => TimeoutKeeps(s, backend, at);
    case Shutdown(reason, backend, at) => ShutdownKeeps(s, reason, backend, at);
    case Observe(entry) => ObserveKeeps(rules, s, entry);
    case Lifecycle(eventType) => PutKeeps(s, eventType, Allow, Normal, "");
    case Launch(_) =>
    case Contain =>
    case Dismantle(backend) => DestroyKeeps(s, backend);
    case Advance(target, at) => MoveKeeps(s, target, at, "");
    case Fail(at) => MoveKeeps(s, Failed, at, "");
    case ClaimFinalisation =>
    case Conclusion(verified, exitCode, observed, at) => ConcludeKeeps(s, verified, exitCode, observed, at);
    case SealTrace =>
  }

  /** A kill left without its accounting is accounted for by exactly these steps: an evaluation, the
      session's timeout, and a loss that is answered by killing. `stop`, a client's kill request and a
      requested shutdown return as soon as they see the session killed, and finalisation does not ask. */
  lemma SettledByExactly(rules: W.Rules, s: State, a: Action)
    requires Books(s) && s.watcher.kill.Some? && !s.terminationRecorded && !s.watcher.sealed
    requires Possible(a) && BackendReplies(a)
    ensures Settled(Next(rules, s, a)) <==> a.Evaluate? || a.Timeout? || (a.Loss? && a.action == KillSession)
  {
    match a
    case Evaluate(request, backend, at) => EvaluationSettles(rules, s, request, backend, at);
    case Timeout(backend, at) =>
      PutKeeps(s, "session_timeout", Kill, High, "");
      AfterKillSettles(Put(s, "session_timeout", Kill, High, "").state, backend, at);
    case Loss(lost, action, backend, at) => LossSettles(s, lost, action, backend, at);
    case Dismantle(backend) => DestroyKeeps(s, backend);
    case _ =>
  }

  lemma EvaluationSettles(rules: W.Rules, s: State, r: W.Request, backend: Backend, at: int)
    requires Books(s) && s.watcher.kill.Some? && !s.watcher.sealed && backend.Replies?
    ensures Settled(HandleEvaluate(rules, s, r, backend, at).state)
  {
    W.EvaluateKeeps(rules, s.watcher, r, true);
    EvaluateReturns(rules, s.watcher, r);
    var e := W.EvaluateStep(rules, s.watcher, r, true);
    var s' := s.(watcher := e.state);
    assert e.state.kill == s.watcher.kill && !e.state.sealed;
    hide W.EvaluateStep, W.Invariant, W.Keeps, W.Unsupervised, AfterKill, Books;
    WatcherMoves(s, e.state);
    AfterKillSettles(s', backend, at);
  }

  lemma LossSettles(s: State, lost: Lost, action: SupervisoryAction, backend: Backend, at: int)
    requires Books(s) && s.watcher.kill.Some? && !s.terminationRecorded && !s.watcher.sealed && backend.Replies?
    ensures Settled(LossStep(s, lost, action, backend, at).state) <==> action == KillSession
  {
    assert LostEvent(lost) != "process_termination";
    hide Books, AfterKill, Put, LostEvent, LostRisk, LostSource, W.QuarantineStep;
    PutKeeps(s, LostEvent(lost), Deny, LostRisk(lost), "");
    var p := Put(s, LostEvent(lost), Deny, LostRisk(lost), "").state;
    SuperviseSettles(p, action, LostSource(lost), backend, at);
  }

  lemma SuperviseSettles(s: State, action: SupervisoryAction, source: string, backend: Backend, at: int)
    requires Books(s) && s.watcher.kill.Some? && !s.terminationRecorded && !s.watcher.sealed && backend.Replies?
    ensures Settled(Supervise(s, action, source, backend, at).state) <==> action == KillSession
  {
    assert W.QuarantineStep(s.watcher, source).state.kill == s.watcher.kill;
    hide Books, AfterKill, W.QuarantineStep;
    AfterKillSettles(s, backend, at);
  }

  /** Over every run the books stay in order and the session's history only grows. */
  lemma {:induction false} RunKeepsBooks(rules: W.Rules, s: State, actions: seq<Action>)
    requires Books(s) && forall a :: a in actions ==> Possible(a)
    ensures Good(s, Run(rules, s, actions), forall a :: a in actions ==> BackendReplies(a))
    decreases actions
  {
    if actions != [] {
      var next := Next(rules, s, actions[0]);
      NextKeeps(rules, s, actions[0]);
      RunKeepsBooks(rules, next, actions[1..]);
      assert forall a :: a in actions[1..] ==> a in actions;
      assert actions[0] in actions;
    }
  }

  /** Over every run, on every kill path: the daemon has written one `process_termination` entry if
      the session was killed and none otherwise, as long as the trace is unsealed and no containment
      backend raised; never more than one in any case; a KILLED session has been killed, and its
      history is a legal path that no terminal state lies in the middle of. */
  lemma KillsAccountedFor(rules: W.Rules, at: int, actions: seq<Action>)
    requires forall a :: a in actions ==> Possible(a)
    ensures var s := Run(rules, Initial(at), actions);
            && Terminations(s) <= (if s.watcher.kill.Some? then 1 else 0)
            && (!s.watcher.sealed && (forall a :: a in actions ==> BackendReplies(a)) ==>
                  Terminations(s) == if s.watcher.kill.Some? then 1 else 0)
            && (s.machine.state == Killed ==> s.watcher.kill.Some?)
            && Legal(s.machine)
  {
    RunKeepsBooks(rules, Initial(at), actions);
  }

  lemma KilledFrom(m: Machine, at: int, reason: string)
    requires m.state != Killed
    ensures MoveQuiet(m, Killed, at, reason).state == Killed <==> m.state in {Starting, Running, Quarantined}
  {
  }

  /** A kill reaches the session's state exactly from STARTING, RUNNING and QUARANTINED: before the
      start and after the end the session is killed without ever being KILLED. */
  lemma KilledStateExactly(s: State, reason: string, backend: Backend, at: int)
    requires Books(s) && s.watcher.kill.None? && !s.watcher.sealed && !W.Blank(reason) && backend.Replies?
    ensures KillLocked(s, reason, backend, at).state.machine.state == Killed
            <==> s.machine.state in {Starting, Running, Quarantined}
  {
    NotYetRecorded(s);
    hide W.KillStep, W.Invariant, W.Keeps, W.Unsupervised, W.Write, DestroyUnit, AfterKill, Books, MoveQuiet;
    var k := W.KillStep(s.watcher, reason, s.process);
    var s' := s.(watcher := k.state);
    KillOutcome(s.watcher, reason, s.process);
    KillLeads(s, reason);
    DestroyKeeps(s', backend);
    var d := DestroyUnit(s', backend);
    assert !d.raised && d.state.machine == s.machine;
    DestroyedOnce(d.state, backend);
    AfterKillLands(d.state, backend, at);
    KilledFrom(s.machine, at, d.state.watcher.kill.value.reason);
  }

  // ---- what kills, and what a kill comes to -----------------------------------------------------

  /** The action kills a session that is not yet killed, for this reason. */
  ghost predicate Kills(rules: W.Rules, s: State, a: Action, reason: string) {
    match a
    case Stop(r, _, _) => !s.shuttingDown && !W.Blank(r) && reason == r
    case KillRequest(r, _, _, _) => reason == "CLIENT_REQUEST:" + r
    case Timeout(_, _) => reason == "MAX_RUNTIME_EXCEEDED"
    case Shutdown(r, _, _) =>
      !s.shuttingDown && (r == "" || !W.Blank(r)) && reason == if r == "" then "SHUTDOWN_REQUESTED" else r
    case Loss(lost, action, _, _) =>
      action == KillSession && reason == if lost == HeartbeatLost then "HEARTBEAT_LOST" else "IPC_LOST"
    case Evaluate(r, _, _) => exists e :: W.Judges(rules, s.watcher, r, e) && e.decision == Kill && W.Blames(e, reason)
    case _ => false
  }

  /** What is written before the switch is engaged. */
  ghost predicate Precedes(rules: W.Rules, s: State, a: Action, entries: seq<W.Entry>) {
    match a
    case KillRequest(_, rejected, _, _) =>
      entries == if rejected then [W.Entry(W.Supervisory("client_field_rejected"), Allow, Elevated, "")] else []
    case Timeout(_, _) => entries == [W.Entry(W.Supervisory("session_timeout"), Kill, High, "")]
    case Shutdown(r, _, _) => entries == [W.Entry(W.Supervisory("shutdown_requested"), Kill, High, r)]
    case Loss(HeartbeatLost, _, _, _) => entries == [W.Entry(W.Supervisory("heartbeat_lost"), Deny, High, "")]
    case Loss(IpcLost, _, _, _) => entries == [W.Entry(W.Supervisory("ipc_lost"), Deny, Elevated, "")]
    case Evaluate(r, _, _) => exists e :: W.Judges(rules, s.watcher, r, e) && W.Records(rules, r, true, e, entries)
    case _ => entries == []
  }

  ghost function Note(eventType: string, risk: Risk): W.Entry {
    W.Entry(W.Supervisory(eventType), Kill, risk, "")
  }

  /** How a unit that still stands is torn down. */
  ghost function TearDown(s: State, backend: Backend): seq<W.Entry>
    requires backend.Replies?
  {
    if !s.unit || s.destroyed then []
    else
      [Note("container_termination_started", High)] +
      (if backend.isolated then [Note("network_isolated", High)] else []) +
      [Note("container_terminated", if backend.survivors then Critical else High),
       if backend.empty then Note("containment_verified_empty", High) else Note("kill_failed", Critical)]
  }

  /** The session is killed and the kill accounted for: the switch has the reason and the process, the
      log is as given, the unit is gone, and the session is KILLED if it had started and not ended. */
  ghost predicate KilledFor(s: State, s': State, reason: string, target: Option<int>, log: seq<W.Entry>, at: int) {
    && s'.watcher == W.State(Some(W.KillRecord(reason, target)), true, s.watcher.quarantine, None, false, log)
    && s'.terminationRecorded && (s'.destroyed <==> s.destroyed || s.unit)
    && s'.unit == s.unit && s'.process == s.process && s'.shuttingDown == s.shuttingDown
    && (if s.machine.state in {Starting, Running, Quarantined} then
          s'.machine.state == Killed && s'.machine.history == s.machine.history + [Transition(Killed, at, reason)]
        else s'.machine == s.machine)
  }

  ghost function Engaged(reason: string): seq<W.Entry> {
    [W.Entry(W.KillEngaged, Kill, Critical, reason)]
  }

  ghost function Terminated(reason: string): seq<W.Entry> {
    [W.Entry(W.Supervisory("process_termination"), Kill, Critical, reason)]
  }

  lemma TearDownMeans(s: State, backend: Backend)
    requires backend.Replies? && !s.watcher.sealed
    ensures DestroyUnit(s, backend)
            == After(s.(watcher := s.watcher.(log := s.watcher.log + TearDown(s, backend)),
                        destroyed := s.destroyed || s.unit), false)
  {
    assert s.watcher.log + [] == s.watcher.log;
    assert DestroyEntries(backend) == TearDown(s.(unit := true, destroyed := false), backend);
    hide DestroyEntries;
  }

  /** Where the backend raises, the unit still counts as standing and only the opening entries are
      written; a unit that is gone, and a sealed trace, leave everything as it is. */
  lemma DismantlingMeans(rules: W.Rules, s: State, backend: Backend)
    ensures var s' := Next(rules, s, Dismantle(backend));
            var isolation := [Note("network_isolated", High)];
            if s.watcher.sealed || !s.unit || s.destroyed then s' == s
            else if backend.Replies? then
              s' == s.(watcher := s.watcher.(log := s.watcher.log + TearDown(s, backend)), destroyed := true)
            else
              s' == s.(watcher := s.watcher.(log := s.watcher.log + ([Note("container_termination_started", High)]
                        + if backend.isolation == Some(true) then isolation else [])))
  {
    if backend.Replies? && !s.watcher.sealed {
      TearDownMeans(s, backend);
    }
  }

  lemma AccountMeans(s: State, backend: Backend, at: int)
    requires backend.Replies? && !s.watcher.sealed && s.watcher.kill.Some? && !s.terminationRecorded
    ensures var reason := s.watcher.kill.value.reason;
            AfterKill(s, backend, at)
            == After(s.(watcher := s.watcher.(log := s.watcher.log + TearDown(s, backend) + Terminated(reason)),
                        destroyed := s.destroyed || s.unit, terminationRecorded := true,
                        machine := MoveQuiet(s.machine, Killed, at, reason)), false)
  {
    TearDownMeans(s, backend);
    hide DestroyUnit, TearDown, MoveQuiet;
  }

  /** A session already killed by the watcher is accounted for. */
  lemma AccountedFor(s: State, s1: State, log: seq<W.Entry>, reason: string, target: Option<int>,
                     backend: Backend, at: int)
    requires Books(s) && s.watcher.kill.None? && backend.Replies?
    requires s1 == s.(watcher := W.State(Some(W.KillRecord(reason, target)), true, s.watcher.quarantine, None, false,
                                         log))
    ensures var done := AfterKill(s1, backend, at);
            KilledFor(s, done.state, reason, target, log + TearDown(s, backend) + Terminated(reason), at)
  {
    NotYetRecorded(s);
    AccountMeans(s1, backend, at);
    MovesExactly(s.machine, Killed, at, reason);
    hide AfterKill, MoveQuiet, TearDown, Terminated, Books;
    SameTearDown(s, s1, backend);
  }

  lemma SameTearDown(s: State, s1: State, backend: Backend)
    requires backend.Replies? && s1.unit == s.unit && s1.destroyed == s.destroyed
    ensures TearDown(s1, backend) == TearDown(s, backend)
  {
  }

  function TargetOf(s: State): Option<int> {
    if s.process.Some? then s.process else s.watcher.active
  }

  /** `_kill_locked` on a session that is not yet killed. */
  lemma KillLockedMeans(s: State, reason: string, backend: Backend, at: int)
    requires Books(s) && s.watcher.kill.None? && !s.watcher.sealed && !W.Blank(reason) && backend.Replies?
    ensures KilledFor(s, KillLocked(s, reason, backend, at).state, reason, TargetOf(s),
                      s.watcher.log + Engaged(reason) + TearDown(s, backend) + Terminated(reason), at)
  {
    var target := TargetOf(s);
    W.KillMeans(s.watcher, reason, s.process);
    var k := W.KillStep(s.watcher, reason, s.process);
    var s1 := s.(watcher := k.state);
    hide W.KillStep, W.Blank, TearDown, Terminated, KilledFor;
    TearDownMeans(s1, backend);
    var d := DestroyUnit(s1, backend).state;
    SameTearDown(s, s1, backend);
    hide DestroyUnit;
    AfterKillLater(s1, d, backend, at);
    AccountedFor(s, s1, s.watcher.log + Engaged(reason), reason, target, backend, at);
  }

  /** Tearing the unit down first changes nothing about the accounting. */
  lemma AfterKillLater(s: State, d: State, backend: Backend, at: int)
    requires backend.Replies? && !s.watcher.sealed && s.watcher.kill.Some? && !s.terminationRecorded
    requires d == DestroyUnit(s, backend).state
    ensures AfterKill(d, backend, at) == AfterKill(s, backend, at)
  {
    TearDownMeans(s, backend);
    DestroyedOnce(d, backend);
    hide DestroyUnit, TearDown, MoveQuiet;
  }

  lemma PutMeans(s: State, eventType: string, d: Decision, r: Risk, reason: string)
    requires !s.watcher.sealed
    ensures Put(s, eventType, d, r, reason)
            == After(s.(watcher := s.watcher.(log :=
                 s.watcher.log + [W.Entry(W.Supervisory(eventType), d, r, reason)])), false)
  {
  }

  /** A kill after an entry of its own. */
  lemma PutThenKillMeans(s: State, eventType: string, d: Decision, r: Risk, note: string,
                         reason: string, backend: Backend, at: int)
    requires Books(s) && s.watcher.kill.None? && !s.watcher.sealed && !W.Blank(reason) && backend.Replies?
    requires eventType != "process_termination"
    ensures var entry := W.Entry(W.Supervisory(eventType), d, r, note);
            KilledFor(s, KillLocked(Put(s, eventType, d, r, note).state, reason, backend, at).state, reason,
                      TargetOf(s),
                      s.watcher.log + [entry] + Engaged(reason) + TearDown(s, backend) + Terminated(reason), at)
  {
    var entry := W.Entry(W.Supervisory(eventType), d, r, note);
    PutKeeps(s, eventType, d, r, note);
    PutMeans(s, eventType, d, r, note);
    var p := Put(s, eventType, d, r, note).state;
    hide Put, Books, KillLocked, W.Blank, TearDown, Engaged, Terminated;
    KillLockedMeans(p, reason, backend, at);
    SameTearDown(s, p, backend);
  }

  lemma JudgedOnce(rules: W.Rules, w: W.State, r: W.Request, e: Evaluation, f: Evaluation)
    requires W.Judges(rules, w, r, e) && W.Judges(rules, w, r, f)
    ensures e == f
  {
  }

  /** What an evaluation leaves behind on a trace that takes entries. */
  lemma Evaluated(rules: W.Rules, s: State, r: W.Request)
    returns (e: Evaluation, source: string, entries: seq<W.Entry>)
    requires Books(s) && s.watcher.kill.None? && !s.watcher.sealed
    ensures W.Judges(rules, s.watcher, r, e) && W.Blames(e, source) && W.Records(rules, r, true, e, entries)
    ensures var d := W.EvaluateStep(rules, s.watcher, r, true);
            W.Invariant(d.state) && d.outcome == Ok(e) &&
            W.TakesEffect(s.watcher, d.state, e.decision, source, entries)
  {
    W.EvaluationMeans(rules, s.watcher, r, true);
    W.EvaluateKeeps(rules, s.watcher, r, true);
    hide W.EvaluateStep, W.Judges, W.Blames, W.Records, W.TakesEffect, W.Keeps, W.Unsupervised, Legal;
    e, source, entries :| W.Judges(rules, s.watcher, r, e) && W.Blames(e, source)
                       && W.Records(rules, r, true, e, entries)
                       && W.Enforced(s.watcher, W.EvaluateStep(rules, s.watcher, r, true), e, source, entries);
  }

  lemma SwitchEngaged(w: W.State, w': W.State, source: string, entries: seq<W.Entry>)
    requires w.kill.None? && !w.sealed && W.Invariant(w') && W.TakesEffect(w, w', Kill, source, entries)
    ensures w' == W.State(Some(W.KillRecord(source, w.active)), true, w.quarantine, None, false,
                          w.log + entries + Engaged(source))
  {
    hide W.Count;
  }

  lemma KilledEvaluation(rules: W.Rules, s: State, r: W.Request, backend: Backend, at: int)
    requires var d := W.EvaluateStep(rules, s.watcher, r, true); d.outcome.Ok? && d.state.kill.Some?
    ensures var s1 := s.(watcher := W.EvaluateStep(rules, s.watcher, r, true).state);
            HandleEvaluate(rules, s, r, backend, at) == AfterKill(s1, backend, at)
  {
    hide W.EvaluateStep, AfterKill;
  }

  lemma EvaluationKills(rules: W.Rules, s: State, r: W.Request, reason: string, backend: Backend, at: int)
    requires Books(s) && s.watcher.kill.None? && !s.watcher.sealed && backend.Replies?
    requires Kills(rules, s, Evaluate(r, backend, at), reason)
    ensures KilledBy(rules, s, Evaluate(r, backend, at), reason, HandleEvaluate(rules, s, r, backend, at).state,
                     backend, at)
  {
    hide W.EvaluateStep, W.TakesEffect, W.Invariant, KilledFor, TearDown, Terminated, AfterKill, Books, Engaged,
         HandleEvaluate;
    var e, source, entries := Evaluated(rules, s, r);
    assert Precedes(rules, s, Evaluate(r, backend, at), entries);
    assert e.decision == Kill && source == reason by {
      var f :| W.Judges(rules, s.watcher, r, f) && f.decision == Kill && W.Blames(f, reason);
      JudgedOnce(rules, s.watcher, r, e, f);
      BlamedOnce(e, source, reason);
    }
    var d := W.EvaluateStep(rules, s.watcher, r, true);
    var s1 := s.(watcher := d.state);
    hide W.Judges, W.Blames, W.Records, Precedes, Kills;
    SwitchEngaged(s.watcher, d.state, source, entries);
    KilledEvaluation(rules, s, r, backend, at);
    AccountedFor(s, s1, s.watcher.log + entries + Engaged(reason), reason, s.watcher.active, backend, at);
  }

  lemma RequestKills(s: State, r: string, reason: string, rejected: bool, before: seq<W.Entry>,
                     backend: Backend, at: int)
    requires Books(s) && s.watcher.kill.None? && !s.watcher.sealed && backend.Replies?
    requires reason == "CLIENT_REQUEST:" + r
    requires before == if rejected then [W.Entry(W.Supervisory("client_field_rejected"), Allow, Elevated, "")] else []
    ensures KilledFor(s, HandleKillRequest(s, r, rejected, backend, at).state, reason, TargetOf(s),
                      s.watcher.log + before + Engaged(reason) + TearDown(s, backend) + Terminated(reason), at)
  {
    NotBlank(reason);
    PutKeeps(s, "client_field_rejected", Allow, Elevated, "");
    hide W.Blank, KillLocked, Put, KilledFor, TearDown, Terminated, Engaged, Books;
    if rejected {
      PutThenKillMeans(s, "client_field_rejected", Allow, Elevated, "", reason, backend, at);
    } else {
      KillLockedMeans(s, reason, backend, at);
      assert s.watcher.log + [] == s.watcher.log;
    }
  }

  lemma NotBlank(reason: string)
    requires reason != "" && !IsSpace(reason[0])
    ensures !W.Blank(reason)
  {
    assert reason[0] in reason;
  }

  /** The constant reasons are not blank. */
  lemma ReasonsNotBlank()
    ensures !W.Blank("MAX_RUNTIME_EXCEEDED") && !W.Blank("SHUTDOWN_REQUESTED")
    ensures !W.Blank("HEARTBEAT_LOST") && !W.Blank("IPC_LOST")
  {
    NotBlank("MAX_RUNTIME_EXCEEDED");
    NotBlank("SHUTDOWN_REQUESTED");
    NotBlank("HEARTBEAT_LOST");
    NotBlank("IPC_LOST");
    hide W.Blank;
  }

  lemma LossKills(s: State, lost: Lost, backend: Backend, at: int)
    requires Books(s) && s.watcher.kill.None? && !s.watcher.sealed && backend.Replies?
    ensures var reason := if lost == HeartbeatLost then "HEARTBEAT_LOST" else "IPC_LOST";
            var entry := if lost == HeartbeatLost then W.Entry(W.Supervisory("heartbeat_lost"), Deny, High, "")
                         else W.Entry(W.Supervisory("ipc_lost"), Deny, Elevated, "");
            KilledFor(s, LossStep(s, lost, KillSession, backend, at).state, reason, TargetOf(s),
                      s.watcher.log + [entry] + Engaged(reason) + TearDown(s, backend) + Terminated(reason), at)
  {
    hide W.Blank, KillLocked, Put, KilledFor, TearDown, Terminated, Engaged, Books;
    var event, risk, reason := LostEvent(lost), LostRisk(lost), LostSource(lost);
    NotBlank(reason);
    assert event != "process_termination";
    assert Supervise(Put(s, event, Deny, risk, "").state, KillSession, reason, backend, at)
        == KillLocked(Put(s, event, Deny, risk, "").state, reason, backend, at);
    assert lost == HeartbeatLost ==> event == "heartbeat_lost" && risk == High && reason == "HEARTBEAT_LOST";
    assert lost != HeartbeatLost ==> event == "ipc_lost" && risk == Elevated && reason == "IPC_LOST";
    LostReasonsKill(s, event, risk, reason, backend, at);
  }

  lemma LostReasonsKill(s: State, event: string, risk: Risk, reason: string, backend: Backend, at: int)
    requires Books(s) && s.watcher.kill.None? && !s.watcher.sealed && backend.Replies?
    requires event != "process_termination" && !W.Blank(reason)
    ensures !Put(s, event, Deny, risk, "").raised
    ensures KilledFor(s, KillLocked(Put(s, event, Deny, risk, "").state, reason, backend, at).state, reason,
                      TargetOf(s),
                      s.watcher.log + [W.Entry(W.Supervisory(event), Deny, risk, "")] + Engaged(reason)
                      + TearDown(s, backend) + Terminated(reason), at)
  {
    hide W.Blank, KillLocked, Put, KilledFor, TearDown, Terminated, Engaged, Books;
    PutKeeps(s, event, Deny, risk, "");
    PutThenKillMeans(s, event, Deny, risk, "", reason, backend, at);
  }

  lemma TimeoutKills(s: State, backend: Backend, at: int)
    requires Books(s) && s.watcher.kill.None? && !s.watcher.sealed && backend.Replies?
    ensures var reason := "MAX_RUNTIME_EXCEEDED";
            KilledFor(s, TimeoutStep(s, backend, at).state, reason, TargetOf(s),
                      s.watcher.log + [W.Entry(W.Supervisory("session_timeout"), Kill, High, "")] + Engaged(reason)
                      + TearDown(s, backend) + Terminated(reason), at)
  {
    ReasonsNotBlank();
    PutKeeps(s, "session_timeout", Kill, High, "");
    hide W.Blank, KillLocked, Put, KilledFor, TearDown, Terminated, Engaged, Books;
    PutThenKillMeans(s, "session_timeout", Kill, High, "", "MAX_RUNTIME_EXCEEDED", backend, at);
  }

  lemma ShutdownKills(s: State, r: string, reason: string, backend: Backend, at: int)
    requires Books(s) && s.watcher.kill.None? && !s.watcher.sealed && backend.Replies? && !s.shuttingDown
    requires !W.Blank(reason) && reason == if r == "" then "SHUTDOWN_REQUESTED" else r
    ensures KilledFor(s, ShutdownStep(s, r, backend, at).state, reason, TargetOf(s),
                      s.watcher.log + [W.Entry(W.Supervisory("shutdown_requested"), Kill, High, r)] + Engaged(reason)
                      + TearDown(s, backend) + Terminated(reason), at)
  {
    PutKeeps(s, "shutdown_requested", Kill, High, r);
    hide W.Blank, KillLocked, Put, KilledFor, TearDown, Terminated, Engaged, Books;
    PutThenKillMeans(s, "shutdown_requested", Kill, High, r, reason, backend, at);
  }

  /** The session is killed by the action and the kill accounted for: the kill record has the reason and
      the process, and the action's own entry, the switch's, the teardown's and one `process_termination`
      follow in this order. */
  ghost predicate KilledBy(rules: W.Rules, s: State, a: Action, reason: string, s': State, backend: Backend, at: int)
    requires backend.Replies?
  {
    exists before ::
      Precedes(rules, s, a, before) &&
      KilledFor(s, s', reason, if a.Evaluate? then s.watcher.active else TargetOf(s),
                s.watcher.log + before + Engaged(reason) + TearDown(s, backend) + Terminated(reason), at)
  }

  lemma StopKills(rules: W.Rules, s: State, a: Action)
    requires Books(s) && s.watcher.kill.None? && !s.watcher.sealed && a.Stop? && a.backend.Replies?
    requires !s.shuttingDown && !W.Blank(a.reason)
    ensures KilledBy(rules, s, a, a.reason, Next(rules, s, a), a.backend, a.at)
  {
    hide W.Blank, KillLocked, KilledFor, TearDown, Terminated, Engaged, Books, TargetOf;
    KillLockedMeans(s, a.reason, a.backend, a.at);
    assert Precedes(rules, s, a, []) && s.watcher.log + [] == s.watcher.log;
  }

  lemma EntryKills(rules: W.Rules, s: State, a: Action)
    requires Books(s) && s.watcher.kill.None? && !s.watcher.sealed && (a.Timeout? || a.Loss? || a.KillRequest?)
    requires a.backend.Replies? && (a.Loss? ==> a.action == KillSession)
    ensures forall reason :: Kills(rules, s, a, reason) ==>
              KilledBy(rules, s, a, reason, Next(rules, s, a), a.backend, a.at)
  {
    hide W.Blank, KilledFor, TearDown, Terminated, Engaged, Books, TargetOf, LossStep, TimeoutStep, HandleKillRequest,
         W.Judges, W.Blames, W.Records;
    match a
    case KillRequest(r, rejected, backend, at) =>
      var rejection := W.Entry(W.Supervisory("client_field_rejected"), Allow, Elevated, "");
      RequestKills(s, r, "CLIENT_REQUEST:" + r, rejected, if rejected then [rejection] else [], backend, at);
      assert Precedes(rules, s, a, if rejected then [rejection] else []);
    case Timeout(backend, at) =>
      TimeoutKills(s, backend, at);
      assert Precedes(rules, s, a, [W.Entry(W.Supervisory("session_timeout"), Kill, High, "")]);
    case Loss(lost, _, backend, at) =>
      LossKills(s, lost, backend, at);
      var loss := if lost == HeartbeatLost then W.Entry(W.Supervisory("heartbeat_lost"), Deny, High, "")
                  else W.Entry(W.Supervisory("ipc_lost"), Deny, Elevated, "");
      assert Precedes(rules, s, a, [loss]);
  }

  lemma RequestedShutdownKills(rules: W.Rules, s: State, a: Action, reason: string)
    requires Books(s) && s.watcher.kill.None? && !s.watcher.sealed && a.Shutdown? && a.backend.Replies?
    requires Kills(rules, s, a, reason)
    ensures KilledBy(rules, s, a, reason, Next(rules, s, a), a.backend, a.at)
  {
    hide W.Blank, KilledFor, TearDown, Terminated, Engaged, Books, TargetOf, ShutdownStep;
    var before := [W.Entry(W.Supervisory("shutdown_requested"), Kill, High, a.reason)];
    assert Precedes(rules, s, a, before);
    hide Precedes;
    ShutdownReason(rules, s, a, reason);
    hide Kills;
    ShutdownKills(s, a.reason, reason, a.backend, a.at);
  }

  lemma ShutdownReason(rules: W.Rules, s: State, a: Action, reason: string)
    requires a.Shutdown? && Kills(rules, s, a, reason)
    ensures !s.shuttingDown && !W.Blank(reason) && reason == if a.reason == "" then "SHUTDOWN_REQUESTED" else a.reason
  {
    NotBlank("SHUTDOWN_REQUESTED");
    hide W.Blank;
  }

  /** With a backend that replies, an action that kills leaves exactly this behind, and the session KILLED
      if it had started and not ended. */
  lemma KillComesTo(rules: W.Rules, s: State, a: Action, reason: string)
    requires Books(s) && s.watcher.kill.None? && !s.watcher.sealed && BackendReplies(a) && Kills(rules, s, a, reason)
    ensures KilledBy(rules, s, a, reason, Next(rules, s, a), a.backend, a.at)
  {
    if a.Evaluate? {
      hide W.Judges, W.Blames, W.Records, KilledFor, TearDown, Terminated, Engaged, Books, HandleEvaluate, Precedes;
      EvaluationKills(rules, s, a.request, reason, a.backend, a.at);
    } else {
      hide KilledBy, Next, Books, W.Blank;
      match a
      case Stop(_, _, _) => StopKills(rules, s, a);
      case Shutdown(_, _, _) => RequestedShutdownKills(rules, s, a, reason);
      case _ => EntryKills(rules, s, a);
    }
  }

  lemma AfterKillLeaves(s: State, backend: Backend, at: int)
    ensures AfterKill(s, backend, at).state.watcher.kill == s.watcher.kill
  {
  }

  lemma BlankKillsNobody(s: State, reason: string, backend: Backend, at: int)
    requires s.watcher.kill.None? && W.Blank(reason)
    ensures KillLocked(s, reason, backend, at).state == s
  {
  }

  lemma EvaluationKillsExactly(rules: W.Rules, s: State, a: Action)
    requires Books(s) && s.watcher.kill.None? && !s.watcher.sealed && a.Evaluate?
    ensures Next(rules, s, a).watcher.kill.Some? <==> exists reason :: Kills(rules, s, a, reason)
  {
    var e, source, entries := Evaluated(rules, s, a.request);
    var s1 := s.(watcher := W.EvaluateStep(rules, s.watcher, a.request, true).state);
    AfterKillLeaves(s1, a.backend, a.at);
    forall f | W.Judges(rules, s.watcher, a.request, f)
      ensures f == e
    {
      JudgedOnce(rules, s.watcher, a.request, e, f);
    }
    assert e.decision == Kill ==> Kills(rules, s, a, source);
    hide W.EvaluateStep, AfterKill, W.Judges, W.Blames, W.Records, Books;
  }

  lemma SupervisionKillsExactly(s: State, lost: Lost, action: SupervisoryAction, backend: Backend, at: int)
    requires Books(s) && s.watcher.kill.None? && !s.watcher.sealed
    ensures LossStep(s, lost, action, backend, at).state.watcher.kill.Some? <==> action == KillSession
  {
    hide KillLocked, Books, W.Blank, Put;
    ReasonsNotBlank();
    assert LostEvent(lost) != "process_termination";
    PutKeeps(s, LostEvent(lost), Deny, LostRisk(lost), "");
    var p := Put(s, LostEvent(lost), Deny, LostRisk(lost), "").state;
    KillSettlesExactly(p, LostSource(lost), backend, at);
  }

  /** Exactly these actions kill: `stop` and a requested shutdown with a reason that is not blank before
      finalisation has begun, a client's kill request, the session's timeout, a loss answered by killing,
      and an evaluation whose verdict is KILL. */
  lemma KillsExactly(rules: W.Rules, s: State, a: Action)
    requires Books(s) && s.watcher.kill.None? && !s.watcher.sealed && Possible(a)
    ensures Next(rules, s, a).watcher.kill.Some? <==> exists reason :: Kills(rules, s, a, reason)
  {
    hide KillLocked, HandleEvaluate, HandleKillRequest, LossStep, TimeoutStep, ShutdownStep, W.Blank, Books, Put,
         W.Next, DestroyUnit, MoveQuiet, Conclude;
    match a
    case Stop(r, backend, at) => StopKillsExactly(rules, s, r, backend, at);
    case KillRequest(r, rejected, backend, at) =>
      RequestAlwaysKills(s, r, rejected, backend, at);
      assert Kills(rules, s, a, "CLIENT_REQUEST:" + r);
    case Timeout(backend, at) =>
      TimeoutAlwaysKills(s, backend, at);
      assert Kills(rules, s, a, "MAX_RUNTIME_EXCEEDED");
    case Shutdown(r, backend, at) => ShutdownKillsExactly(rules, s, r, backend, at);
    case Loss(lost, action, backend, at) =>
      SupervisionKillsExactly(s, lost, action, backend, at);
      assert action == KillSession ==>
               Kills(rules, s, a, if lost == HeartbeatLost then "HEARTBEAT_LOST" else "IPC_LOST");
    case Evaluate(_, _, _) => EvaluationKillsExactly(rules, s, a);
    case _ => OthersKillNobody(rules, s, a);
  }

  lemma OthersKillNobody(rules: W.Rules, s: State, a: Action)
    requires !a.Stop? && !a.KillRequest? && !a.Timeout? && !a.Shutdown? && !a.Loss? && !a.Evaluate?
    ensures Next(rules, s, a).watcher.kill == s.watcher.kill
    ensures Next(rules, s, a).watcher.quarantine == s.watcher.quarantine
  {
    hide KillLocked, HandleEvaluate, HandleKillRequest, LossStep, TimeoutStep, ShutdownStep, StopStep, MoveQuiet,
         DestroyEntries, AfterKill;
  }

  lemma StopKillsExactly(rules: W.Rules, s: State, r: string, backend: Backend, at: int)
    requires Books(s) && s.watcher.kill.None? && !s.watcher.sealed
    ensures StopStep(s, r, backend, at).state.watcher.kill.Some?
            <==> exists reason :: Kills(rules, s, Stop(r, backend, at), reason)
  {
    hide KillLocked, W.Blank, Books;
    if W.Blank(r) {
      BlankKillsNobody(s, r, backend, at);
    } else {
      KillSettlesExactly(s, r, backend, at);
      assert !s.shuttingDown ==> Kills(rules, s, Stop(r, backend, at), r);
    }
  }

  lemma TimeoutAlwaysKills(s: State, backend: Backend, at: int)
    requires Books(s) && s.watcher.kill.None? && !s.watcher.sealed
    ensures TimeoutStep(s, backend, at).state.watcher.kill.Some?
  {
    hide KillLocked, Put, Books, W.Blank;
    ReasonsNotBlank();
    PutKeeps(s, "session_timeout", Kill, High, "");
    KillSettlesExactly(Put(s, "session_timeout", Kill, High, "").state, "MAX_RUNTIME_EXCEEDED", backend, at);
  }

  lemma RequestAlwaysKills(s: State, r: string, rejected: bool, backend: Backend, at: int)
    requires Books(s) && s.watcher.kill.None? && !s.watcher.sealed
    ensures HandleKillRequest(s, r, rejected, backend, at).state.watcher.kill.Some?
  {
    hide KillLocked, Books, W.Blank, Put;
    NotBlank("CLIENT_REQUEST:" + r);
    PutKeeps(s, "client_field_rejected", Allow, Elevated, "");
    var p := if rejected then Put(s, "client_field_rejected", Allow, Elevated, "").state else s;
    KillSettlesExactly(p, "CLIENT_REQUEST:" + r, backend, at);
  }

  lemma ShutdownKillsExactly(rules: W.Rules, s: State, r: string, backend: Backend, at: int)
    requires Books(s) && s.watcher.kill.None? && !s.watcher.sealed
    ensures ShutdownStep(s, r, backend, at).state.watcher.kill.Some?
            <==> exists reason :: Kills(rules, s, Shutdown(r, backend, at), reason)
  {
    hide KillLocked, Books, W.Blank, Put;
    ReasonsNotBlank();
    PutKeeps(s, "shutdown_requested", Kill, High, r);
    var p := Put(s, "shutdown_requested", Kill, High, r).state;
    var reason := if r == "" then "SHUTDOWN_REQUESTED" else r;
    if W.Blank(reason) {
      BlankKillsNobody(p, reason, backend, at);
    } else {
      KillSettlesExactly(p, reason, backend, at);
      assert !s.shuttingDown ==> Kills(rules, s, Shutdown(r, backend, at), reason);
    }
  }

  /** In a sealed trace exactly those kill paths that write nothing first still engage the switch: `stop`,
      and a client's kill request none of whose fields was rejected. Nothing is accounted for then. */
  lemma SealedKillsExactly(rules: W.Rules, s: State, a: Action)
    requires Books(s) && s.watcher.kill.None? && s.watcher.sealed
    ensures var s' := Next(rules, s, a);
            && (s'.watcher.kill.Some? <==> (a.Stop? || (a.KillRequest? && !a.rejected)) &&
                                           exists reason :: Kills(rules, s, a, reason))
            && (forall reason :: s'.watcher.kill.Some? && Kills(rules, s, a, reason) ==>
                  s' == s.(watcher := s.watcher.(kill := Some(W.KillRecord(reason, TargetOf(s))),
                                                 killEventWritten := true, active := None)))
  {
    hide DestroyUnit, AfterKill, W.EvaluateStep, W.Blank, W.QuarantineStep, MoveQuiet, W.Next;
    match a
    case Stop(r, backend, at) =>
      W.KillMeans(s.watcher, r, s.process);
      if !s.shuttingDown && !W.Blank(r) {
        assert Kills(rules, s, a, r);
      }
      hide W.KillStep;
    case KillRequest(r, rejected, backend, at) =>
      NotBlank("CLIENT_REQUEST:" + r);
      W.KillMeans(s.watcher, "CLIENT_REQUEST:" + r, s.process);
      assert Kills(rules, s, a, "CLIENT_REQUEST:" + r);
      hide W.KillStep;
    case Evaluate(r, backend, at) => SealedEvaluation(rules, s, r);
    case Timeout(_, _) =>
    case Loss(_, _, _, _) =>
    case Shutdown(_, _, _) =>
    case _ => OthersKillNobody(rules, s, a);
  }

  lemma SealedEvaluation(rules: W.Rules, s: State, r: W.Request)
    requires Books(s) && s.watcher.kill.None? && s.watcher.sealed
    ensures W.EvaluateStep(rules, s.watcher, r, true) == W.Done(s.watcher, Err(W.TraceSealed))
  {
    W.EvaluationMeans(rules, s.watcher, r, true);
    hide W.EvaluateStep, W.Judges, W.Blames, W.TakesEffect, Books;
  }

  /** Once finalisation is claimed, `stop` and a requested shutdown change nothing. */
  lemma FinalisationShutsOut(rules: W.Rules, s: State, a: Action)
    requires a.Stop? || a.Shutdown?
    ensures var claimed := Next(rules, s, ClaimFinalisation);
            claimed == s.(shuttingDown := true) && Next(rules, claimed, a) == claimed
  {
    hide KillLocked, Put;
  }

  /** Whatever kills is accounted for once and only once. */
  lemma KillCountedOnce(rules: W.Rules, s: State, a: Action, reason: string)
    requires Books(s) && s.watcher.kill.None? && !s.watcher.sealed && BackendReplies(a) && Kills(rules, s, a, reason)
    ensures var s' := Next(rules, s, a);
            Terminations(s) == 0 && Terminations(s') == 1 &&
            s'.watcher.kill.Some? && s'.watcher.kill.value.reason == reason
  {
    assert Possible(a);
    hide Next, Kills, Precedes, BackendReplies, Legal, W.Invariant, Terminations, TearDown, Possible;
    KillComesTo(rules, s, a, reason);
    NextKeeps(rules, s, a);
    assert Books(Next(rules, s, a));
  }

  // ---- quarantine and the end -------------------------------------------------------------------

  /** Exactly an evaluation whose verdict is QUARANTINE, and a loss answered by quarantining, put a
      session that is neither killed nor quarantined in quarantine; the session follows from RUNNING. */
  ghost predicate Quarantines(rules: W.Rules, s: State, a: Action, reason: string) {
    match a
    case Evaluate(r, _, _) =>
      exists e :: W.Judges(rules, s.watcher, r, e) && e.decision == Quarantine && W.Blames(e, reason)
    case Loss(lost, action, _, _) =>
      action == QuarantineSession && reason == if lost == HeartbeatLost then "HEARTBEAT_LOST" else "IPC_LOST"
    case _ => false
  }

  ghost predicate InQuarantine(s: State, s': State, reason: string) {
    && s'.watcher.quarantine == Some(reason) && s'.watcher.kill.None?
    && s'.machine.state == (if s.machine.state == Running then Quarantined else s.machine.state)
    && W.Count(s'.watcher.log, W.QuarantineNotice) == W.Count(s.watcher.log, W.QuarantineNotice) + 1
  }

  lemma EvaluationQuarantines(rules: W.Rules, s: State, a: Action)
    requires Books(s) && s.watcher.kill.None? && s.watcher.quarantine.None? && !s.watcher.sealed && a.Evaluate?
    ensures Next(rules, s, a).watcher.quarantine.Some? <==> exists reason :: Quarantines(rules, s, a, reason)
    ensures forall reason :: Quarantines(rules, s, a, reason) ==> InQuarantine(s, Next(rules, s, a), reason)
  {
    hide W.EvaluateStep, AfterKill, W.Judges, W.Blames, W.Records, Books, W.Count, MoveQuiet, InQuarantine,
         HandleEvaluate;
    var e, source, entries := Evaluated(rules, s, a.request);
    forall f | W.Judges(rules, s.watcher, a.request, f)
      ensures f == e
    {
      JudgedOnce(rules, s.watcher, a.request, e, f);
    }
    forall reason | W.Blames(e, reason)
      ensures reason == source
    {
      BlamedOnce(e, source, reason);
    }
    assert e.decision == Quarantine ==> Quarantines(rules, s, a, source);
    EvaluationLands(rules, s, a.request, a.backend, a.at, e, source, entries);
  }

  lemma BlamedOnce(e: Evaluation, source: string, reason: string)
    requires W.Blames(e, source) && W.Blames(e, reason)
    ensures source == reason
  {
  }

  lemma EvaluationLands(rules: W.Rules, s: State, r: W.Request, backend: Backend, at: int,
                        e: Evaluation, source: string, entries: seq<W.Entry>)
    requires s.watcher.kill.None? && s.watcher.quarantine.None? && !s.watcher.sealed
    requires W.Records(rules, r, true, e, entries)
    requires var d := W.EvaluateStep(rules, s.watcher, r, true);
             d.outcome == Ok(e) && W.TakesEffect(s.watcher, d.state, e.decision, source, entries)
    ensures var s' := HandleEvaluate(rules, s, r, backend, at).state;
            if e.decision == Quarantine then InQuarantine(s, s', source) && s'.watcher.quarantine.Some?
            else s'.watcher.quarantine.None?
  {
    hide W.EvaluateStep, AfterKill, W.Count, MoveQuiet;
    var s1 := s.(watcher := W.EvaluateStep(rules, s.watcher, r, true).state);
    AfterKillLeavesQuarantine(s1, backend, at);
    if e.decision == Quarantine {
      W.CountNone(s.watcher.log, entries, W.QuarantineNotice);
      W.CountAppend(s.watcher.log + entries, W.Entry(W.QuarantineNotice, Quarantine, High, source), W.QuarantineNotice);
      MovesExactly(s.machine, Quarantined, at, e.rule);
    }
  }

  lemma AfterKillLeavesQuarantine(s: State, backend: Backend, at: int)
    ensures AfterKill(s, backend, at).state.watcher.quarantine == s.watcher.quarantine
  {
  }

  lemma KillLockedLeavesQuarantine(s: State, reason: string, backend: Backend, at: int)
    ensures KillLocked(s, reason, backend, at).state.watcher.quarantine == s.watcher.quarantine
  {
    var k := W.KillStep(s.watcher, reason, s.process);
    assert k.state.quarantine == s.watcher.quarantine;
    var s' := s.(watcher := k.state);
    AfterKillLeavesQuarantine(s, backend, at);
    AfterKillLeavesQuarantine(DestroyUnit(s', backend).state, backend, at);
    hide AfterKill, W.KillStep;
  }

  lemma LossQuarantines(rules: W.Rules, s: State, lost: Lost, action: SupervisoryAction, backend: Backend, at: int)
    requires Books(s) && s.watcher.kill.None? && s.watcher.quarantine.None? && !s.watcher.sealed
    ensures var s' := LossStep(s, lost, action, backend, at).state;
            if action == QuarantineSession then
              InQuarantine(s, s', if lost == HeartbeatLost then "HEARTBEAT_LOST" else "IPC_LOST")
            else s'.watcher.quarantine.None?
  {
    var entry := W.Entry(W.Supervisory(LostEvent(lost)), Deny, LostRisk(lost), "");
    PutMeans(s, LostEvent(lost), Deny, LostRisk(lost), "");
    var p := Put(s, LostEvent(lost), Deny, LostRisk(lost), "").state;
    W.CountAppend(s.watcher.log, entry, W.QuarantineNotice);
    W.CountAppend(p.watcher.log, W.Entry(W.QuarantineNotice, Quarantine, High, LostSource(lost)), W.QuarantineNotice);
    MovesExactly(s.machine, Quarantined, at, LostSource(lost));
    KillLockedLeavesQuarantine(p, LostSource(lost), backend, at);
    hide KillLocked, W.Count, MoveQuiet, Books;
  }

  lemma QuarantinesExactly(rules: W.Rules, s: State, a: Action)
    requires Books(s) && s.watcher.kill.None? && s.watcher.quarantine.None? && !s.watcher.sealed
    ensures Next(rules, s, a).watcher.quarantine.Some? <==> exists reason :: Quarantines(rules, s, a, reason)
    ensures forall reason :: Quarantines(rules, s, a, reason) ==> InQuarantine(s, Next(rules, s, a), reason)
  {
    hide InQuarantine, KillLocked, HandleEvaluate, LossStep, Books, W.Next, DestroyUnit, MoveQuiet, Conclude;
    match a
    case Evaluate(_, _, _) => EvaluationQuarantines(rules, s, a);
    case Loss(lost, action, backend, at) =>
      LossQuarantines(rules, s, lost, action, backend, at);
      var reason := if lost == HeartbeatLost then "HEARTBEAT_LOST" else "IPC_LOST";
      assert action == QuarantineSession ==> Quarantines(rules, s, a, reason);
      InQuarantineMeans(s, LossStep(s, lost, action, backend, at).state, reason);
    case Stop(reason, backend, at) => KillLockedLeavesQuarantine(s, reason, backend, at);
    case KillRequest(reason, rejected, backend, at) =>
      KillLockedLeavesQuarantine(Put(s, "client_field_rejected", Allow, Elevated, "").state,
                                 "CLIENT_REQUEST:" + reason, backend, at);
      KillLockedLeavesQuarantine(s, "CLIENT_REQUEST:" + reason, backend, at);
    case Timeout(backend, at) =>
      KillLockedLeavesQuarantine(Put(s, "session_timeout", Kill, High, "").state, "MAX_RUNTIME_EXCEEDED", backend, at);
    case Shutdown(reason, backend, at) =>
      KillLockedLeavesQuarantine(Put(s, "shutdown_requested", Kill, High, reason).state,
                                 if reason == "" then "SHUTDOWN_REQUESTED" else reason, backend, at);
    case _ => OthersKillNobody(rules, s, a);
  }

  lemma InQuarantineMeans(s: State, s': State, reason: string)
    ensures InQuarantine(s, s', reason) ==> s'.watcher.quarantine.Some?
  {
  }

  /** Where a session ends: a trace that does not verify makes it FAILED, a kill KILLED if it had
      started, a clean exit that was seen COMPLETED if it had run, and anything else FAILED; an ended
      session stays as it is, and nothing but the state machine moves. */
  lemma ConcludesExactly(rules: W.Rules, s: State, a: Action)
    requires a.Conclusion?
    ensures var s', before := Next(rules, s, a), s.machine.state;
            && s' == s.(machine := s'.machine)
            && s'.machine.state ==
                 if before in {Completed, Failed, Killed} then before
                 else if !a.verified then Failed
                 else if s.watcher.kill.Some? then (if before == Created then Created else Killed)
                 else if a.exitCode == 0 && a.observed then
                   (if before in {Running, Quarantined} then Completed else before)
                 else Failed
  {
    MovesExactly(s.machine, Failed, a.at, "");
    MovesExactly(s.machine, Killed, a.at, "");
    MovesExactly(s.machine, Completed, a.at, "");
    hide MoveQuiet;
  }

  // ---- a session from its creation --------------------------------------------------------------

  lemma RunFirst(rules: W.Rules, s: State, a: Action, rest: seq<Action>)
    ensures Run(rules, s, [a] + rest) == Run(rules, Next(rules, s, a), rest)
  {
    assert ([a] + rest)[1..] == rest;
    hide Next;
  }

  lemma FiveFirst(rules: W.Rules, s: State, a: Action, b: Action, c: Action, d: Action, e: Action)
    ensures Run(rules, s, [a, b, c, d, e])
            == Next(rules, Next(rules, Next(rules, Next(rules, Next(rules, s, a), b), c), d), e)
  {
    var s1 := Next(rules, s, a);
    var s2 := Next(rules, s1, b);
    var s3 := Next(rules, s2, c);
    var s4 := Next(rules, s3, d);
    RunFirst(rules, s, a, [b, c, d, e]);
    RunFirst(rules, s1, b, [c, d, e]);
    RunFirst(rules, s2, c, [d, e]);
    RunFirst(rules, s3, d, [e]);
    RunFirst(rules, s4, e, []);
    assert [a] + [b, c, d, e] == [a, b, c, d, e] && [b] + [c, d, e] == [b, c, d, e] && [c] + [d, e] == [c, d, e];
    assert [d] + [e] == [d, e] && [e] + [] == [e];
    assert Run(rules, Next(rules, s4, e), []) == Next(rules, s4, e);
    hide Next, Run;
  }

  function Ready(at: int, starting: int, running: int, pid: int, eventType: string): State {
    State(W.State(None, false, None, Some(pid), false, [W.Entry(W.Supervisory(eventType), Allow, Normal, "")]),
          Machine(Running, [Transition(Created, at, "session created"), Transition(Starting, starting, ""),
                            Transition(Running, running, "")], Some(running), None, None),
          false, Some(pid), true, false, false)
  }

  /** A session that is contained, launched and started runs, with its process attached and its unit
      standing, and has recorded what it was told to; from there a failure ends it as FAILED. */
  lemma SessionStarts(rules: W.Rules, at: int, starting: int, running: int, failed: int, pid: int, eventType: string)
    ensures var s := Run(rules, Initial(at), [Advance(Starting, starting), Contain, Launch(pid), Lifecycle(eventType),
                                              Advance(Running, running)]);
            && s == Ready(at, starting, running, pid, eventType)
            && var ended := Next(rules, s, Fail(failed));
               && ended == s.(machine := ended.machine)
               && ended.machine.state == Failed && ended.machine.endedAt == Some(failed)
               && ended.machine.history == s.machine.history + [Transition(Failed, failed, "")]
  {
    FiveFirst(rules, Initial(at), Advance(Starting, starting), Contain, Launch(pid), Lifecycle(eventType),
              Advance(Running, running));
    MovesExactly(NewMachine(at), Starting, starting, "");
    var m := MoveQuiet(NewMachine(at), Starting, starting, "");
    MovesExactly(m, Running, running, "");
    MovesExactly(MoveQuiet(m, Running, running, ""), Failed, failed, "");
    hide Run, MoveQuiet;
  }
}
