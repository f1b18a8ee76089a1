/** The session state machine (`supervisor/session.py`). */
module Session {
  import opened Strings

  datatype SessionState = Created | Starting | Running | Quarantined | Completed | Failed | Killed

  predicate Terminal(s: SessionState) {
    s == Completed || s == Failed || s == Killed
  }

  function Allowed(s: SessionState): set<SessionState> {
    match s
    case Created => {Starting, Failed}
    case Starting => {Running, Failed, Killed}
    case Running => {Quarantined, Completed, Failed, Killed}
    case Quarantined => {Completed, Failed, Killed}
    case _ => {}
  }

  datatype Transition = Transition(state: SessionState, at: int, reason: string)

  datatype Machine = Machine(state: SessionState, history: seq<Transition>,
                             startedAt: Option<int>, endedAt: Option<int>, quarantineReason: Option<string>)

  function NewMachine(at: int): Machine {
    Machine(Created, [Transition(Created, at, "session created")], None, None, None)
  }

  /** `transition`: staying put is always fine, and writes nothing. */
  function Move(m: Machine, target: SessionState, at: int, reason: string): Option<Machine> {
    if m.state == target then Some(m)
    else if target !in Allowed(m.state) then None
    else
      Some(Machine(target, m.history + [Transition(target, at, reason)],
                   if target == Running && m.startedAt.None? then Some(at) else m.startedAt,
                   if Terminal(target) then Some(at) else m.endedAt,
                   if target == Quarantined && reason != "" then Some(reason) else m.quarantineReason))
  }

  function MoveQuiet(m: Machine, target: SessionState, at: int, reason: string): Machine {
    var moved := Move(m, target, at, reason);
    if moved.Some? then moved.value else m
  }

  class SessionStateMachine {
    var state: SessionState
    var history: seq<Transition>
    var startedAt: Option<int>
    var endedAt: Option<int>
    var quarantineReason: Option<string>

    ghost function Value(): Machine
      reads this
    {
      Machine(state, history, startedAt, endedAt, quarantineReason)
    }

    constructor (at: int)
      ensures Value() == NewMachine(at)
    {
      state, history := Created, [Transition(Created, at, "session created")];
      startedAt, endedAt, quarantineReason := None, None, None;
    }

    method MoveTo(target: SessionState, at: int, reason: string) returns (ok: bool)
      modifies this
      ensures ok <==> Move(old(Value()), target, at, reason).Some?
      ensures Value() == MoveQuiet(old(Value()), target, at, reason)
      ensures ok <==> state == target
    {
      if state == target {
        return true;
      }
      if Terminal(state) {
        return false;
      }
      if target !in Allowed(state) {
        return false;
      }
      state := target;
      history := history + [Transition(target, at, reason)];
      if target == Running && startedAt.None? {
        startedAt := Some(at);
      }
      if target == Quarantined && reason != "" {
        quarantineReason := Some(reason);
      }
      if Terminal(target) {
        endedAt := Some(at);
      }
      return true;
    }
  }

  /** CREATED, STARTING, RUNNING and QUARANTINED come in this order and none is skipped; whatever has not
      ended can fail, whatever has started can be killed, and whatever has run can complete. */
  ghost predicate Opens(s: SessionState, t: SessionState) {
    || (s == Created && t == Starting) || (s == Starting && t == Running) || (s == Running && t == Quarantined)
    || (t == Failed && s != Completed && s != Failed && s != Killed)
    || (t == Killed && (s == Starting || s == Running || s == Quarantined))
    || (t == Completed && (s == Running || s == Quarantined))
  }

  /** A move is entered in the history exactly where it opens; anything else changes nothing. */
  lemma MovesExactly(m: Machine, target: SessionState, at: int, reason: string)
    ensures var m' := MoveQuiet(m, target, at, reason);
            if Opens(m.state, target) then
              && m'.state == target && m'.history == m.history + [Transition(target, at, reason)]
              && (m'.startedAt == if target == Running && m.startedAt.None? then Some(at) else m.startedAt)
              && (m'.endedAt == if target in {Completed, Failed, Killed} then Some(at) else m.endedAt)
              && (m'.quarantineReason
                  == if target == Quarantined && reason != "" then Some(reason) else m.quarantineReason)
            else m' == m
  {
    assert Opens(m.state, target) <==> target in Allowed(m.state);
  }

  /** The history is a legal path from CREATED to the present state, and the two dates are set exactly
      when the session has run and has ended. */
  ghost predicate Legal(m: Machine) {
    && m.history != [] && m.history[0].state == Created && m.history[|m.history| - 1].state == m.state
    && (forall i :: 0 < i < |m.history| ==> m.history[i].state in Allowed(m.history[i - 1].state))
    && (m.endedAt.Some? <==> Terminal(m.state))
    && (m.startedAt.Some? <==> exists i :: 0 <= i < |m.history| && m.history[i].state == Running)
  }

  lemma MoveKeepsLegal(m: Machine, target: SessionState, at: int, reason: string)
    requires Legal(m)
    ensures var m' := MoveQuiet(m, target, at, reason); Legal(m') && m.history <= m'.history
  {
    var m' := MoveQuiet(m, target, at, reason);
    if m' != m {
      var n := |m.history|;
      assert forall i :: 0 <= i < n ==> m'.history[i] == m.history[i];
      assert m'.history[n].state == target;
      if m.startedAt.Some? {
        var i :| 0 <= i < n && m.history[i].state == Running;
        assert m'.history[i].state == Running;
      }
    }
  }

  /** How far along a state is: every legal transition goes up. */
  function Progress(s: SessionState): nat {
    match s
    case Created => 0
    case Starting => 1
    case Running => 2
    case Quarantined => 3
    case _ => 4
  }

  lemma {:induction false} ProgressRises(m: Machine, i: nat, j: nat)
    requires Legal(m) && i < j < |m.history|
    ensures Progress(m.history[i].state) + (j - i) <= Progress(m.history[j].state)
    decreases j
  {
    assert m.history[j].state in Allowed(m.history[j - 1].state);
    if i < j - 1 {
      ProgressRises(m, i, j - 1);
    }
  }

  /** A terminal state can only be the last, no state is entered twice, and no history is longer than
      five entries. */
  lemma HistoryIsShort(m: Machine)
    requires Legal(m)
    ensures |m.history| <= 5
    ensures forall i, j :: 0 <= i < j < |m.history| ==>
              m.history[i].state != m.history[j].state && !Terminal(m.history[i].state)
  {
    forall i, j | 0 <= i < j < |m.history|
      ensures m.history[i].state != m.history[j].state && !Terminal(m.history[i].state)
    {
      ProgressRises(m, i, j);
    }
    if |m.history| > 1 {
      ProgressRises(m, 0, |m.history| - 1);
    }
  }
}
