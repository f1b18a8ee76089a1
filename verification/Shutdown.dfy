/** The shutdown protocol: the IPC server's accept thread and workers, the finaliser that drains
    them and seals the trace, and `stop()` called from outside, interleaved in every way
    (`ipc/server.py`, and `_finalize` and `stop` in `supervisor/daemon.py`).

    Each action is one atomic step: a block under the writers' condition, under the daemon lock, or
    one recorder append. Waiting is not modelled: a bounded wait may end at any time, and the state
    remembers whether it ended because the deadline broke it.
  */
module Shutdown {
  import opened Strings
  import opened Trace

  datatype ServerState = Running | Draining | Stopped

  datatype WorkerPc =
    | Unstarted    // its connection is registered, the thread has not started
    | Connecting   // handshake and connection hooks
    | Polling      // top of the read loop; unclaimed replies are also sent from here
    | Received     // a request is in hand, admission not yet asked for
    | Dispatching  // admitted: the handler runs
    | Replying     // admitted: the reply is on the wire
    | Refused      // not admitted, no claim taken yet
    | Refusing     // a NOT_READY frame is on the wire, under a claim
    | Closing      // leaving: the disconnect hook may still record
    | Exited

  /** A worker, and what became of the requests it received. */
  datatype Worker = Worker(pc: WorkerPc, listed: bool,
                           received: nat, admitted: nat, refused: nat, dropped: nat)

  datatype AcceptPc =
    | Accepting | Accepted | Registering(id: nat) | Starting(id: nat) | Gone

  datatype FinaliserPc =
    | NotBegun | Claimed | DrainBegun | WaitingForWriters | WaitingForResponses | ClosingTransports
    | DrainOver | CountRead(count: nat) | SealRecorded | Finished

  /** The server's shared fields, all guarded by the writers' condition. */
  datatype Server = Server(state: ServerState, stopping: bool, claimsClosed: bool, writers: int, responses: int)

  /** The finaliser and what its drain saw, with the daemon lock. */
  datatype Finaliser = Finaliser(
    pc: FinaliserPc, shuttingDown: bool, stopHoldsLock: bool,
    joined: set<nat>, snapshotComplete: bool, deadlineBroke: bool, frameCut: bool, drained: bool)

  datatype State = State(server: Server, workers: seq<Worker>, accept: AcceptPc, fin: Finaliser, trace: TraceValue)

  datatype AcceptAction = Connection | Reject | Register | List | Start | Leave

  datatype WorkerAction =
    | Serve | Receive | Begin | Reply | End(sent: bool) | ClaimRefusal | EndRefusal
    | Note(event: Event) | Close | Exit

  /** What the finaliser does, with the drain it calls, and an outside `stop()` that found the
      session neither killed nor shutting down. */
  datatype FinaliserAction =
    | StopEnter | StopRecord(event: Event) | StopLeave
    | Claim | Record(event: Event)
    | BeginDrain | Snapshot | WritersWaited | ResponsesWaited | CloseTransport(id: nat) | EndDrain
    | ReadCount | RecordSeal(seal: Event) | Seal

  datatype Action =
    | Accepts(accept: AcceptAction)
    | Works(id: nat, worker: WorkerAction)
    | Finalises(finaliser: FinaliserAction)

  const TRACE_SEALED := "trace_sealed"

  /** The seal event, whose count includes itself. */
  ghost predicate IsSeal(c: Content, count: nat) {
    c.eventType == TRACE_SEALED && "event_count" in c.metadata && c.metadata["event_count"] == Num(count)
  }

  function SealEvent(count: nat): Event {
    var metadata: map<string, Json> := map["event_count" := Num(count)];
    Event(0, 0, Content(TRACE_SEALED, "seal", "", "ALLOW", "NORMAL", "sealed", metadata), "", "")
  }

  function Initial(sessionId: string, createdAt: int, history: seq<Event>, h: Hash): State {
    State(Server(Running, false, false, 0, 0), [], Accepting,
          Finaliser(NotBegun, false, false, {}, false, false, false, false),
          TraceValue(sessionId, "watcher-poe/1", createdAt, Built(h, history), None))
  }

  // ---- the steps --------------------------------------------------------------------------------

  /** A recorder append: refused, and so without effect, once the trace is sealed. */
  function Recorded(h: Hash, t: TraceValue, e: Event): TraceValue {
    if t.declared.Some? then t else t.(events := t.events + [Chained(h, t.events, e)])
  }

  /** `Thread.is_alive`: false before the start as well as after the end. */
  predicate Alive(w: Worker) {
    w.pc != Unstarted && w.pc != Exited
  }

  predicate AcceptEnabled(s: State, a: AcceptAction) {
    match a
    case Connection => s.accept == Accepting && !s.server.stopping
    case Reject => s.accept == Accepted
    case Register => s.accept == Accepted
    case List => s.accept.Registering? && s.accept.id < |s.workers|
    case Start => s.accept.Starting? && s.accept.id < |s.workers| && s.workers[s.accept.id].pc == Unstarted
    case Leave => s.accept == Accepting
  }

  const NEW_WORKER := Worker(Unstarted, false, 0, 0, 0, 0)

  function AcceptStep(s: State, a: AcceptAction): State
    requires AcceptEnabled(s, a)
  {
    match a
    case Connection => s.(accept := Accepted)
    case Reject => s.(accept := Accepting)
    case Register => s.(workers := s.workers + [NEW_WORKER], accept := Registering(|s.workers|))
    case List =>
      var id := s.accept.id;
      s.(workers := s.workers[id := s.workers[id].(listed := true)], accept := Starting(id))
    case Start =>
      var id := s.accept.id;
      s.(workers := s.workers[id := s.workers[id].(pc := Connecting)], accept := Accepting)
    case Leave => s.(accept := Gone)
  }

  predicate WorkerEnabled(pc: WorkerPc, a: WorkerAction) {
    match a
    case Serve => pc == Connecting
    case Receive => pc == Polling
    case Begin => pc == Received
    case Reply => pc == Dispatching
    case End(_) => pc == Replying
    case ClaimRefusal => pc == Refused
    case EndRefusal => pc == Refusing
    case Note(_) => pc == Connecting || pc == Polling || pc == Dispatching || pc == Closing
    case Close => pc == Connecting || pc == Polling
    case Exit => pc == Closing
  }

  /** The worker after its step. Admission is decided in `Begin`, that is `_begin_write`, and
      nowhere else; `ClaimRefusal` and `EndRefusal` are the two ends of `_send_refusal`. */
  function WorkerAfter(server: Server, w: Worker, a: WorkerAction): Worker {
    match a
    case Serve => w.(pc := Polling)
    case Receive => w.(pc := Received, received := w.received + 1)
    case Begin =>
      if server.state != Running || server.claimsClosed then w.(pc := Refused)
      else w.(pc := Dispatching, admitted := w.admitted + 1)
    case Reply => w.(pc := Replying)
    case End(sent) => w.(pc := if sent then Polling else Closing)
    case ClaimRefusal =>
      if server.claimsClosed then w.(pc := Polling, dropped := w.dropped + 1)
      else w.(pc := Refusing, refused := w.refused + 1)
    case EndRefusal => w.(pc := Polling)
    case Note(_) => w
    case Close => w.(pc := Closing)
    case Exit => w.(pc := Exited)
  }

  /** The two counters after the step. */
  function CountsAfter(server: Server, a: WorkerAction): Server {
    match a
    case Begin =>
      if server.state != Running || server.claimsClosed then server
      else server.(writers := server.writers + 1, responses := server.responses + 1)
    case End(_) => server.(writers := server.writers - 1, responses := server.responses - 1)
    case ClaimRefusal => if server.claimsClosed then server else server.(responses := server.responses + 1)
    case EndRefusal => server.(responses := server.responses - 1)
    case _ => server
  }

  function WorkerStep(h: Hash, s: State, id: nat, a: WorkerAction): State
    requires id < |s.workers|
  {
    s.(workers := s.workers[id := WorkerAfter(s.server, s.workers[id], a)],
       server := CountsAfter(s.server, a),
       trace := if a.Note? then Recorded(h, s.trace, a.event) else s.trace)
  }

  ghost predicate FinaliserEnabled(s: State, a: FinaliserAction) {
    match a
    case StopEnter => !s.fin.stopHoldsLock && !s.fin.shuttingDown
    case StopRecord(_) => s.fin.stopHoldsLock
    case StopLeave => s.fin.stopHoldsLock
    case Claim => s.fin.pc == NotBegun && !s.fin.stopHoldsLock
    case Record(_) => s.fin.pc == Claimed || s.fin.pc == DrainOver
    case BeginDrain => s.fin.pc == Claimed
    case Snapshot => s.fin.pc == DrainBegun
    case WritersWaited => s.fin.pc == WaitingForWriters
    case ResponsesWaited => s.fin.pc == WaitingForResponses
    case CloseTransport(id) => s.fin.pc == ClosingTransports && id < |s.workers|
    case EndDrain => s.fin.pc == ClosingTransports
    case ReadCount => s.fin.pc == DrainOver
    case RecordSeal(seal) => s.fin.pc.CountRead? && IsSeal(seal.content, s.fin.pc.count)
    case Seal => s.fin.pc == SealRecorded
  }

  /** The accept thread is not between its check of `_stopping` and the start of a worker. */
  predicate BetweenConnections(accept: AcceptPc) {
    accept == Accepting || accept == Gone
  }

  predicate JoinedGone(s: State) {
    forall id :: id in s.fin.joined && id < |s.workers| ==> !Alive(s.workers[id])
  }

  /** Whether the drain found no writer left and every joined worker not alive. */
  predicate DrainClean(s: State) {
    s.server.writers == 0 && JoinedGone(s)
  }

  ghost function FinaliserAfter(s: State, a: FinaliserAction): Finaliser
    requires FinaliserEnabled(s, a)
  {
    match a
    case StopEnter => s.fin.(stopHoldsLock := true)
    case StopLeave => s.fin.(stopHoldsLock := false)
    case StopRecord(_) => s.fin
    case Claim => s.fin.(pc := Claimed, shuttingDown := true)
    case Record(_) => s.fin
    case BeginDrain => s.fin.(pc := DrainBegun)
    case Snapshot =>
      s.fin.(pc := WaitingForWriters, snapshotComplete := BetweenConnections(s.accept),
             joined := set id | 0 <= id < |s.workers| && s.workers[id].listed)
    case WritersWaited => s.fin.(pc := WaitingForResponses)
    case ResponsesWaited => s.fin.(pc := ClosingTransports, deadlineBroke := s.server.responses > 0)
    case CloseTransport(id) =>
      s.fin.(frameCut := s.fin.frameCut || Claims(s.workers[id].pc, true) > 0)
    case EndDrain => s.fin.(pc := DrainOver, drained := DrainClean(s))
    case ReadCount => s.fin.(pc := CountRead(|s.trace.events| + 1))
    case RecordSeal(_) => s.fin.(pc := SealRecorded)
    case Seal => s.fin.(pc := Finished)
  }

  function ServerAfter(s: State, a: FinaliserAction): Server {
    match a
    case BeginDrain => s.server.(state := Draining, stopping := true)
    case WritersWaited => s.server.(claimsClosed := true)
    case EndDrain => if DrainClean(s) then s.server.(state := Stopped) else s.server
    case _ => s.server
  }

  ghost function TraceAfter(h: Hash, s: State, a: FinaliserAction): TraceValue
    requires FinaliserEnabled(s, a)
  {
    match a
    case StopRecord(event) => Recorded(h, s.trace, event)
    case Record(event) => Recorded(h, s.trace, event)
    case RecordSeal(seal) => Recorded(h, s.trace, seal)
    case Seal => s.trace.(declared := Some(FinalHash(h, s.trace)))
    case _ => s.trace
  }

  ghost function FinaliserStep(h: Hash, s: State, a: FinaliserAction): State
    requires FinaliserEnabled(s, a)
  {
    s.(server := ServerAfter(s, a), fin := FinaliserAfter(s, a), trace := TraceAfter(h, s, a))
  }

  ghost predicate Enabled(s: State, a: Action) {
    match a
    case Accepts(accept) => AcceptEnabled(s, accept)
    case Works(id, worker) => id < |s.workers| && WorkerEnabled(s.workers[id].pc, worker)
    case Finalises(finaliser) => FinaliserEnabled(s, finaliser)
  }

  ghost function Next(h: Hash, s: State, a: Action): State
    requires Enabled(s, a)
  {
    match a
    case Accepts(accept) => AcceptStep(s, accept)
    case Works(id, worker) => WorkerStep(h, s, id, worker)
    case Finalises(finaliser) => FinaliserStep(h, s, finaliser)
  }

  /** A run: every action is enabled where it is taken. */
  ghost predicate CanRun(h: Hash, s: State, actions: seq<Action>)
    decreases actions
  {
    actions == [] || (Enabled(s, actions[0]) && CanRun(h, Next(h, s, actions[0]), actions[1..]))
  }

  ghost function Run(h: Hash, s: State, actions: seq<Action>): State
    requires CanRun(h, s, actions)
    decreases actions
  {
    if actions == [] then s else Run(h, Next(h, s, actions[0]), actions[1..])
  }

  // ---- counting claims --------------------------------------------------------------------------

  /** The claims a worker holds: on the writer count, or on the response count. */
  function Claims(pc: WorkerPc, onResponses: bool): nat {
    if pc == Dispatching || pc == Replying || (onResponses && pc == Refusing) then 1 else 0
  }

  function TotalClaims(ws: seq<Worker>, onResponses: bool): nat {
    if ws == [] then 0 else Claims(ws[0].pc, onResponses) + TotalClaims(ws[1..], onResponses)
  }

  lemma {:induction false} TotalUpdate(ws: seq<Worker>, id: nat, w: Worker, onResponses: bool)
    requires id < |ws|
    ensures TotalClaims(ws[id := w], onResponses)
            == TotalClaims(ws, onResponses) - Claims(ws[id].pc, onResponses) + Claims(w.pc, onResponses)
  {
    if id == 0 {
      assert ws[0 := w][1..] == ws[1..];
    } else {
      assert ws[id := w][1..] == ws[1..][id - 1 := w];
      TotalUpdate(ws[1..], id - 1, w, onResponses);
    }
  }

  lemma {:induction false} TotalAppend(ws: seq<Worker>, w: Worker, onResponses: bool)
    ensures TotalClaims(ws + [w], onResponses) == TotalClaims(ws, onResponses) + Claims(w.pc, onResponses)
  {
    if ws != [] {
      assert (ws + [w])[1..] == ws[1..] + [w];
      TotalAppend(ws[1..], w, onResponses);
    }
  }

  lemma {:induction false} TotalAtLeast(ws: seq<Worker>, id: nat, onResponses: bool)
    requires id < |ws|
    ensures Claims(ws[id].pc, onResponses) <= TotalClaims(ws, onResponses)
  {
    if id > 0 {
      TotalAtLeast(ws[1..], id - 1, onResponses);
    }
  }

  // ---- the invariant ----------------------------------------------------------------------------

  /** The two counters are exactly the claims held. */
  ghost predicate CountsHold(s: State) {
    s.server.writers == TotalClaims(s.workers, false) && s.server.responses == TotalClaims(s.workers, true)
  }

  /** Every request received was admitted, refused or dropped, exactly one of them, unless its
      worker is still about to ask. */
  ghost predicate RequestsHold(s: State) {
    forall id :: 0 <= id < |s.workers| ==>
      var w := s.workers[id];
      w.received == w.admitted + w.refused + w.dropped + Asking(w.pc)
  }

  function Asking(pc: WorkerPc): nat {
    if pc == Received || pc == Refused then 1 else 0
  }

  /** The finaliser's stages, in order. */
  function Stage(f: FinaliserPc): nat {
    match f
    case NotBegun => 0
    case Claimed => 1
    case DrainBegun => 2
    case WaitingForWriters => 3
    case WaitingForResponses => 4
    case ClosingTransports => 5
    case DrainOver => 6
    case CountRead(_) => 7
    case SealRecorded => 8
    case Finished => 9
  }

  /** What the drain has established at each of its stages. */
  ghost predicate DrainHolds(s: State) {
    && (s.fin.shuttingDown <==> s.fin.pc != NotBegun)
    && (s.fin.shuttingDown ==> !s.fin.stopHoldsLock)
    && (s.server.state == Running <==> Stage(s.fin.pc) < 2)
    && (s.server.stopping <==> Stage(s.fin.pc) >= 2)
    && (s.server.claimsClosed <==> Stage(s.fin.pc) >= 4)
    && (Stage(s.fin.pc) >= 5 && !s.fin.deadlineBroke ==> s.server.responses == 0)
    && (s.fin.frameCut ==> Stage(s.fin.pc) >= 5 && s.fin.deadlineBroke)
    && (s.server.state == Stopped <==> s.fin.drained)
    && (s.fin.drained ==> Stage(s.fin.pc) >= 6 && s.server.writers == 0)
  }

  /** Only the accept thread adds workers, so while it is between connections every worker has been
      listed and started, and a snapshot taken then misses none, now or later. */
  ghost predicate WorkersHold(s: State) {
    && (s.accept.Registering? ==> s.accept.id < |s.workers| && s.workers[s.accept.id].pc == Unstarted)
    && (s.accept.Starting? ==> s.accept.id < |s.workers| && s.workers[s.accept.id].pc == Unstarted)
    && (forall id :: 0 <= id < |s.workers| ==>
          (s.workers[id].pc == Unstarted ==>
             (s.accept.Registering? || s.accept.Starting?) && s.accept.id == id)
          && (s.workers[id].listed || (s.accept.Registering? && s.accept.id == id)))
    && (s.fin.snapshotComplete ==> s.server.stopping && BetweenConnections(s.accept))
    && (s.fin.snapshotComplete ==> forall id :: 0 <= id < |s.workers| ==> id in s.fin.joined)
  }

  /** The chain is always intact, and a seal matches it. */
  ghost predicate TraceHolds(h: Hash, s: State) {
    && Linked(h, s.trace.events, |s.trace.events|) && Ordered(s.trace.events)
    && (s.trace.declared.Some? ==> s.trace.declared.value == FinalHash(h, s.trace))
    && (s.trace.declared.Some? <==> s.fin.pc == Finished)
  }

  /** The last event is the seal event, and its count is the length of the trace. */
  ghost predicate EndsInSeal(t: TraceValue) {
    t.events != [] &&
    IsSeal(t.events[|t.events| - 1].content, |t.events|)
  }

  /** After a clean drain over a complete snapshot nobody else writes. */
  ghost predicate QuietEnd(s: State) {
    s.fin.drained && s.fin.snapshotComplete ==>
      && (forall id :: 0 <= id < |s.workers| ==> s.workers[id].pc == Exited)
      && (s.fin.pc.CountRead? ==> s.fin.pc.count == |s.trace.events| + 1)
      && (s.fin.pc == SealRecorded || s.fin.pc == Finished ==> EndsInSeal(s.trace))
  }

  ghost predicate Invariant(h: Hash, s: State) {
    CountsHold(s) && RequestsHold(s) && DrainHolds(s) && WorkersHold(s) && TraceHolds(h, s) && QuietEnd(s)
  }

  // ---- every step keeps the invariant -----------------------------------------------------------

  lemma InitialHolds(sessionId: string, createdAt: int, history: seq<Event>, h: Hash)
    ensures Invariant(h, Initial(sessionId, createdAt, history, h))
  {
    BuiltLinked(h, history);
  }

  /** What any worker step does to its worker: claims move with the counters, none is taken once
      the window is closed or a dispatch once draining has begun, and requests are accounted for. */
  lemma WorkerMove(server: Server, w: Worker, a: WorkerAction)
    requires WorkerEnabled(w.pc, a)
    ensures var w', server' := WorkerAfter(server, w, a), CountsAfter(server, a);
            && server'.writers - server.writers == Claims(w'.pc, false) - Claims(w.pc, false)
            && server'.responses - server.responses == Claims(w'.pc, true) - Claims(w.pc, true)
            && server'.state == server.state && server'.stopping == server.stopping
            && server'.claimsClosed == server.claimsClosed
            && (server.claimsClosed ==> server'.responses <= server.responses)
            && (server.state != Running ==> server'.writers <= server.writers && w'.admitted == w.admitted)
            && w'.listed == w.listed && w.pc != Unstarted && w.pc != Exited && w'.pc != Unstarted
            && (w'.received - w'.admitted - w'.refused - w'.dropped - Asking(w'.pc)
                == w.received - w.admitted - w.refused - w.dropped - Asking(w.pc))
  {
  }

  lemma WorkerKeeps(h: Hash, s: State, id: nat, a: WorkerAction)
    requires Enabled(s, Works(id, a)) && Invariant(h, s)
    ensures Invariant(h, Next(h, s, Works(id, a)))
  {
    WorkerCountsKeep(h, s, id, a);
    WorkerListKeeps(h, s, id, a);
    WorkerTraceKeeps(h, s, id, a);
    hide CountsHold, RequestsHold, DrainHolds, WorkersHold, TraceHolds, QuietEnd, WorkerStep;
  }

  lemma WorkerCountsKeep(h: Hash, s: State, id: nat, a: WorkerAction)
    requires id < |s.workers| && WorkerEnabled(s.workers[id].pc, a)
    requires CountsHold(s) && RequestsHold(s) && DrainHolds(s)
    ensures var s' := WorkerStep(h, s, id, a); CountsHold(s') && RequestsHold(s') && DrainHolds(s')
  {
    var w := WorkerAfter(s.server, s.workers[id], a);
    WorkerMove(s.server, s.workers[id], a);
    hide WorkerAfter, CountsAfter, Claims, TotalClaims, WorkerEnabled;
    var ws := s.workers[id := w];
    assert WorkerStep(h, s, id, a).workers == ws;
    TotalUpdate(s.workers, id, w, false);
    TotalUpdate(s.workers, id, w, true);
    TotalAtLeast(ws, id, true);
    TotalAtLeast(ws, id, false);
  }

  lemma WorkerListKeeps(h: Hash, s: State, id: nat, a: WorkerAction)
    requires id < |s.workers| && WorkerEnabled(s.workers[id].pc, a) && WorkersHold(s)
    ensures WorkersHold(WorkerStep(h, s, id, a))
  {
    WorkerMove(s.server, s.workers[id], a);
    hide WorkerAfter, CountsAfter, Claims, WorkerEnabled;
  }

  lemma WorkerTraceKeeps(h: Hash, s: State, id: nat, a: WorkerAction)
    requires id < |s.workers| && WorkerEnabled(s.workers[id].pc, a) && TraceHolds(h, s) && QuietEnd(s)
    ensures var s' := WorkerStep(h, s, id, a); TraceHolds(h, s') && QuietEnd(s')
  {
    WorkerMove(s.server, s.workers[id], a);
    hide WorkerAfter, CountsAfter, Claims, WorkerEnabled, EndsInSeal, Linked, Ordered;
    if a.Note? && s.trace.declared.None? {
      AppendKeepsChain(h, s.trace.events, a.event);
    }
  }

  /** Registering and listing a worker, and starting it, move no claim and leave every request where
      it was. */
  lemma RegisterKeeps(h: Hash, s: State)
    requires Enabled(s, Accepts(Register)) && Invariant(h, s)
    ensures Invariant(h, Next(h, s, Accepts(Register)))
  {
    TotalAppend(s.workers, NEW_WORKER, false);
    TotalAppend(s.workers, NEW_WORKER, true);
    hide TotalClaims, Linked, Ordered, IsSeal;
    assert WorkersHold(AcceptStep(s, Register));
  }

  /** A worker that is not in a handler can be replaced by another that is not and that has seen the same
      requests, with the counters and the requests in order. */
  lemma ReplaceKeeps(h: Hash, s: State, id: nat, w: Worker, accept: AcceptPc)
    requires Invariant(h, s) && id < |s.workers|
    requires Claims(w.pc, true) == Claims(s.workers[id].pc, true) == 0
    requires Claims(w.pc, false) == Claims(s.workers[id].pc, false)
    requires Asking(w.pc) == Asking(s.workers[id].pc) && w.(pc := Exited, listed := true)
             == s.workers[id].(pc := Exited, listed := true)
    requires !QuietOver(s)
    requires WorkersHold(s.(workers := s.workers[id := w], accept := accept))
    ensures Invariant(h, s.(workers := s.workers[id := w], accept := accept))
  {
    TotalUpdate(s.workers, id, w, false);
    TotalUpdate(s.workers, id, w, true);
    hide TotalClaims, Claims, Asking, Linked, Ordered, EndsInSeal, WorkersHold;
  }

  /** The drain reported success over a complete snapshot. */
  ghost predicate QuietOver(s: State) {
    s.fin.drained && s.fin.snapshotComplete
  }

  lemma StartedHolds(s: State, a: AcceptAction)
    requires AcceptEnabled(s, a) && (a.List? || a.Start?) && WorkersHold(s)
    ensures WorkersHold(AcceptStep(s, a)) && !QuietOver(s)
  {
  }

  lemma ListKeeps(h: Hash, s: State)
    requires Enabled(s, Accepts(List)) && Invariant(h, s)
    ensures Invariant(h, Next(h, s, Accepts(List)))
  {
    var id := s.accept.id;
    StartedHolds(s, List);
    assert s.workers[id].pc == Unstarted;
    hide WorkersHold, CountsHold, RequestsHold, DrainHolds, TraceHolds, QuietEnd;
    ReplaceKeeps(h, s, id, s.workers[id].(listed := true), Starting(id));
  }

  lemma StartKeeps(h: Hash, s: State)
    requires Enabled(s, Accepts(Start)) && Invariant(h, s)
    ensures Invariant(h, Next(h, s, Accepts(Start)))
  {
    var id := s.accept.id;
    StartedHolds(s, Start);
    hide WorkersHold, CountsHold, RequestsHold, DrainHolds, TraceHolds, QuietEnd;
    ReplaceKeeps(h, s, id, s.workers[id].(pc := Connecting), Accepting);
  }

  lemma AcceptOnlyKeeps(h: Hash, s: State, a: AcceptAction)
    requires Enabled(s, Accepts(a)) && Invariant(h, s) && (a.Connection? || a.Reject? || a.Leave?)
    ensures Invariant(h, Next(h, s, Accepts(a)))
  {
    hide TotalClaims, Linked, Ordered, IsSeal;
  }

  lemma AcceptKeeps(h: Hash, s: State, a: AcceptAction)
    requires Enabled(s, Accepts(a)) && Invariant(h, s)
    ensures Invariant(h, Next(h, s, Accepts(a)))
  {
    hide Invariant;
    match a
    case Register => RegisterKeeps(h, s);
    case List => ListKeeps(h, s);
    case Start => StartKeeps(h, s);
    case _ => AcceptOnlyKeeps(h, s, a);
  }

  lemma SealEventEnds(h: Hash, t: TraceValue, seal: Event)
    requires t.declared.None? && IsSeal(seal.content, |t.events| + 1)
    ensures EndsInSeal(Recorded(h, t, seal))
  {
  }

  /** The finaliser's appends, and those of an outside `stop()`, which is shut out once
      finalisation has claimed the session. */
  lemma RecordKeeps(h: Hash, s: State, a: FinaliserAction)
    requires Enabled(s, Finalises(a)) && Invariant(h, s) && (a.StopRecord? || a.Record?)
    ensures Invariant(h, Next(h, s, Finalises(a)))
  {
    AppendKeepsChain(h, s.trace.events, a.event);
  }

  /** Everything but the trace carries over when only the finaliser's place and the trace change. */
  lemma OnlyTraceMoves(s: State, t: TraceValue)
    requires CountsHold(s) && RequestsHold(s) && DrainHolds(s) && WorkersHold(s) && s.fin.pc.CountRead?
    ensures var s' := s.(fin := s.fin.(pc := SealRecorded), trace := t);
            CountsHold(s') && RequestsHold(s') && DrainHolds(s') && WorkersHold(s')
  {
  }

  lemma RecordSealKeeps(h: Hash, s: State, seal: Event)
    requires Enabled(s, Finalises(RecordSeal(seal))) && Invariant(h, s)
    ensures Invariant(h, Next(h, s, Finalises(RecordSeal(seal))))
  {
    var t := Recorded(h, s.trace, seal);
    var s' := s.(fin := s.fin.(pc := SealRecorded), trace := t);
    assert Next(h, s, Finalises(RecordSeal(seal))) == s';
    OnlyTraceMoves(s, t);
    assert TraceHolds(h, s') by {
      RecordedHolds(h, s.trace, seal);
    }
    assert QuietEnd(s') by {
      if s.fin.pc.count == |s.trace.events| + 1 {
        SealEventEnds(h, s.trace, seal);
      }
    }
  }

  lemma RecordedHolds(h: Hash, t: TraceValue, e: Event)
    requires t.declared.None? && Linked(h, t.events, |t.events|) && Ordered(t.events)
    ensures var t' := Recorded(h, t, e);
            t'.declared.None? && Linked(h, t'.events, |t'.events|) && Ordered(t'.events)
  {
    AppendKeepsChain(h, t.events, e);
  }

  lemma SealKeeps(h: Hash, s: State)
    requires Enabled(s, Finalises(Seal)) && Invariant(h, s)
    ensures Invariant(h, Next(h, s, Finalises(Seal)))
  {
    hide IsSeal, Linked, Ordered, TotalClaims;
    var s' := FinaliserStep(h, s, Seal);
    assert FinalPreImage(s'.trace) == FinalPreImage(s.trace);
  }

  lemma CloseTransportKeeps(h: Hash, s: State, id: nat)
    requires Enabled(s, Finalises(CloseTransport(id))) && Invariant(h, s)
    ensures Invariant(h, Next(h, s, Finalises(CloseTransport(id))))
  {
    hide TotalClaims, Linked, Ordered, EndsInSeal;
    TotalAtLeast(s.workers, id, true);
  }

  lemma DrainKeeps(h: Hash, s: State, a: FinaliserAction)
    requires Enabled(s, Finalises(a)) && Invariant(h, s)
    requires a.BeginDrain? || a.WritersWaited? || a.ResponsesWaited?
    ensures Invariant(h, Next(h, s, Finalises(a)))
  {
    hide TotalClaims, Linked, Ordered, EndsInSeal;
    TotalNonNegative(s);
  }

  lemma SnapshotKeeps(h: Hash, s: State)
    requires Enabled(s, Finalises(Snapshot)) && Invariant(h, s)
    ensures Invariant(h, Next(h, s, Finalises(Snapshot)))
  {
    assert WorkersHold(Next(h, s, Finalises(Snapshot)));
  }

  lemma EndDrainKeeps(h: Hash, s: State)
    requires Enabled(s, Finalises(EndDrain)) && Invariant(h, s)
    ensures Invariant(h, Next(h, s, Finalises(EndDrain)))
  {
    hide TotalClaims, Linked, Ordered, IsSeal;
    assert QuietEnd(Next(h, s, Finalises(EndDrain)));
  }

  lemma TotalNonNegative(s: State)
    requires CountsHold(s)
    ensures 0 <= s.server.writers && 0 <= s.server.responses
  {
  }

  lemma ControlKeeps(h: Hash, s: State, a: FinaliserAction)
    requires Enabled(s, Finalises(a)) && Invariant(h, s)
    requires a.StopEnter? || a.StopLeave? || a.Claim? || a.ReadCount?
    ensures Invariant(h, Next(h, s, Finalises(a)))
  {
  }

  lemma FinaliserKeeps(h: Hash, s: State, a: FinaliserAction)
    requires Enabled(s, Finalises(a)) && Invariant(h, s)
    ensures Invariant(h, Next(h, s, Finalises(a)))
  {
    match a
    case StopRecord(_) => RecordKeeps(h, s, a);
    case Record(_) => RecordKeeps(h, s, a);
    case RecordSeal(seal) => RecordSealKeeps(h, s, seal);
    case Seal => SealKeeps(h, s);
    case CloseTransport(id) => CloseTransportKeeps(h, s, id);
    case StopEnter => ControlKeeps(h, s, a);
    case StopLeave => ControlKeeps(h, s, a);
    case Claim => ControlKeeps(h, s, a);
    case ReadCount => ControlKeeps(h, s, a);
    case Snapshot => SnapshotKeeps(h, s);
    case EndDrain => EndDrainKeeps(h, s);
    case _ => DrainKeeps(h, s, a);
  }

  lemma StepKeepsInvariant(h: Hash, s: State, a: Action)
    requires Enabled(s, a) && Invariant(h, s)
    ensures Invariant(h, Next(h, s, a))
  {
    match a
    case Accepts(accept) => AcceptKeeps(h, s, accept);
    case Works(id, worker) => WorkerKeeps(h, s, id, worker);
    case Finalises(finaliser) => FinaliserKeeps(h, s, finaliser);
  }

  /** The invariant holds after every run, of any number of workers, in any interleaving. */
  lemma {:induction false} RunKeepsInvariant(h: Hash, s: State, actions: seq<Action>)
    requires Invariant(h, s) && CanRun(h, s, actions)
    ensures Invariant(h, Run(h, s, actions))
    decreases actions
  {
    if actions != [] {
      StepKeepsInvariant(h, s, actions[0]);
      RunKeepsInvariant(h, Next(h, s, actions[0]), actions[1..]);
    }
  }

  // ---- what every run guarantees ----------------------------------------------------------------

  lemma AcceptFrame(s: State, a: AcceptAction)
    requires AcceptEnabled(s, a)
    ensures var s' := AcceptStep(s, a);
            && s'.server.state == s.server.state && s'.fin.pc == s.fin.pc
            && s'.fin.snapshotComplete == s.fin.snapshotComplete && s'.fin.joined == s.fin.joined
            && |s.workers| <= |s'.workers|
            && forall id :: 0 <= id < |s'.workers| ==>
                 s'.workers[id].admitted == if id < |s.workers| then s.workers[id].admitted else 0
  {
    match a
    case Connection =>
    case Reject =>
    case Register =>
    case List =>
    case Start =>
    case Leave =>
  }

  lemma WorkerFrame(h: Hash, s: State, id: nat, a: WorkerAction)
    requires id < |s.workers| && WorkerEnabled(s.workers[id].pc, a)
    ensures var s' := WorkerStep(h, s, id, a);
            && s'.server.state == s.server.state && s'.fin.pc == s.fin.pc
            && s'.fin.snapshotComplete == s.fin.snapshotComplete && s'.fin.joined == s.fin.joined
            && |s.workers| == |s'.workers|
            && (s.server.state != Running ==>
                  forall w :: 0 <= w < |s'.workers| ==> s'.workers[w].admitted == s.workers[w].admitted)
  {
    var w' := WorkerAfter(s.server, s.workers[id], a);
    assert s.server.state != Running ==> w'.admitted == s.workers[id].admitted by {
      WorkerMove(s.server, s.workers[id], a);
    }
    assert WorkerStep(h, s, id, a).workers == s.workers[id := w'];
  }

  lemma FinaliserFrame(h: Hash, s: State, a: FinaliserAction)
    requires FinaliserEnabled(s, a)
    ensures FinaliserStep(h, s, a).workers == s.workers
    ensures s.server.state != Running ==> FinaliserStep(h, s, a).server.state != Running
    ensures Stage(FinaliserStep(h, s, a).fin.pc) >= Stage(s.fin.pc)
  {
    match a
    case StopEnter =>
    case StopRecord(_) =>
    case StopLeave =>
    case Claim =>
    case Record(_) =>
    case BeginDrain =>
    case Snapshot =>
    case WritersWaited =>
    case ResponsesWaited =>
    case CloseTransport(_) =>
    case EndDrain =>
    case ReadCount =>
    case RecordSeal(_) =>
    case Seal =>
  }

  lemma NoAdmissionStep(h: Hash, s: State, a: Action, id: nat)
    requires s.server.state != Running && Enabled(s, a)
    ensures var s' := Next(h, s, a);
            s'.server.state != Running && |s.workers| <= |s'.workers| &&
            (id < |s'.workers| ==>
               s'.workers[id].admitted == if id < |s.workers| then s.workers[id].admitted else 0)
  {
    match a
    case Accepts(accept) => AcceptFrame(s, accept);
    case Works(w, worker) => WorkerFrame(h, s, w, worker);
    case Finalises(finaliser) => FinaliserFrame(h, s, finaliser);
  }

  /** Once the server has left RUNNING it never returns, and no request is admitted any more, to a
      worker that was there or to one that came later. */
  lemma {:induction false} NoAdmissionAfterDraining(h: Hash, s: State, actions: seq<Action>, id: nat)
    requires s.server.state != Running && CanRun(h, s, actions)
    ensures var s' := Run(h, s, actions);
            s'.server.state != Running && |s.workers| <= |s'.workers| &&
            (id < |s'.workers| ==>
               s'.workers[id].admitted == if id < |s.workers| then s.workers[id].admitted else 0)
    decreases actions
  {
    if actions != [] {
      NoAdmissionStep(h, s, actions[0], id);
      NoAdmissionAfterDraining(h, Next(h, s, actions[0]), actions[1..], id);
    }
  }

  /** Once the claim window is closed and no claim is left, that stays so: nothing can be on the wire
      under a claim when the transports go. */
  lemma {:induction false} NoClaimsStable(h: Hash, s: State, actions: seq<Action>)
    requires Invariant(h, s) && CanRun(h, s, actions) && s.server.claimsClosed && s.server.responses == 0
    ensures var s' := Run(h, s, actions);
            s'.server.claimsClosed && s'.server.responses == 0 && s'.server.writers == 0
    decreases actions
  {
    if actions == [] {
      TotalOrder(s.workers);
    } else {
      var a, next := actions[0], Next(h, s, actions[0]);
      StepKeepsInvariant(h, s, a);
      if a.Works? {
        WorkerMove(s.server, s.workers[a.id], a.worker);
      }
      NoClaimsStable(h, next, actions[1..]);
    }
  }

  lemma {:induction false} TotalOrder(ws: seq<Worker>)
    ensures TotalClaims(ws, false) <= TotalClaims(ws, true)
  {
    if ws != [] {
      TotalOrder(ws[1..]);
    }
  }

  /** The drain cuts no claimed frame unless its deadline broke the wait for responses; and a drain
      that reports success leaves a stopped server with nobody inside a handler. */
  lemma DrainSound(h: Hash, s: State, actions: seq<Action>)
    requires Invariant(h, s) && CanRun(h, s, actions)
    ensures var s' := Run(h, s, actions);
            && (s'.fin.frameCut ==> s'.fin.deadlineBroke)
            && (s'.fin.drained ==> s'.server.state == Stopped && s'.server.writers == 0)
            && (s'.fin.drained ==> forall id :: 0 <= id < |s'.workers| ==>
                  s'.workers[id].pc != Dispatching && s'.workers[id].pc != Replying)
            && (s'.fin.drained && s'.fin.snapshotComplete ==>
                  forall id :: 0 <= id < |s'.workers| ==> s'.workers[id].pc == Exited)
  {
    RunKeepsInvariant(h, s, actions);
    var s' := Run(h, s, actions);
    forall id | s'.fin.drained && 0 <= id < |s'.workers|
      ensures s'.workers[id].pc != Dispatching && s'.workers[id].pc != Replying
    {
      TotalAtLeast(s'.workers, id, false);
    }
  }

  lemma {:induction false} SealedStays(h: Hash, s: State, actions: seq<Action>)
    requires Invariant(h, s) && CanRun(h, s, actions) && s.trace.declared.Some?
    ensures Run(h, s, actions).trace == s.trace
    decreases actions
  {
    if actions != [] {
      StepKeepsInvariant(h, s, actions[0]);
      SealedStays(h, Next(h, s, actions[0]), actions[1..]);
    }
  }

  /** Whether or not the drain succeeded, a sealed trace verifies, and no run changes it again. */
  lemma SealedForGood(h: Hash, s: State, actions: seq<Action>)
    requires HexValued(h) && Invariant(h, s) && CanRun(h, s, actions) && s.trace.declared.Some?
    ensures Signals(h, s.trace) == [] && Run(h, s, actions).trace == s.trace
  {
    VerifiesExactly(h, s.trace);
    SealedStays(h, s, actions);
  }

  // ---- exactly when the seal event is the last one ----------------------------------------------

  /** Whatever happens from here, if the drain reports success the sealed trace ends in its seal
      event, with the right count. */
  ghost predicate SealAlwaysLast(h: Hash, s: State) {
    forall actions :: CanRun(h, s, actions) ==>
      var s' := Run(h, s, actions);
      s'.fin.drained && s'.fin.pc == Finished ==> EndsInSeal(s'.trace)
  }

  lemma {:induction false} RunAppend(h: Hash, s: State, first: seq<Action>, second: seq<Action>)
    requires CanRun(h, s, first) && CanRun(h, Run(h, s, first), second)
    ensures CanRun(h, s, first + second)
    ensures Run(h, s, first + second) == Run(h, Run(h, s, first), second)
    decreases first
  {
    if first == [] {
      assert first + second == second;
    } else {
      assert (first + second)[1..] == first[1..] + second;
      RunAppend(h, Next(h, s, first[0]), first[1..], second);
    }
  }

  /** How far a started worker is from its exit. */
  function Distance(pc: WorkerPc): nat {
    match pc
    case Unstarted => 0
    case Exited => 0
    case Closing => 1
    case Connecting => 2
    case Polling => 2
    case Refusing => 3
    case Refused => 4
    case Received => 5
    case Replying => 2
    case Dispatching => 3
  }

  function TotalDistance(ws: seq<Worker>): nat {
    if ws == [] then 0 else Distance(ws[0].pc) + TotalDistance(ws[1..])
  }

  lemma {:induction false} DistanceUpdate(ws: seq<Worker>, id: nat, w: Worker)
    requires id < |ws|
    ensures TotalDistance(ws[id := w]) == TotalDistance(ws) - Distance(ws[id].pc) + Distance(w.pc)
  {
    if id == 0 {
      assert ws[0 := w][1..] == ws[1..];
    } else {
      assert ws[id := w][1..] == ws[1..][id - 1 := w];
      DistanceUpdate(ws[1..], id - 1, w);
    }
  }

  lemma {:induction false} SomeoneLive(ws: seq<Worker>) returns (id: nat)
    requires TotalDistance(ws) > 0
    ensures id < |ws| && Distance(ws[id].pc) > 0
  {
    if Distance(ws[0].pc) > 0 {
      id := 0;
    } else {
      id := SomeoneLive(ws[1..]);
      id := id + 1;
    }
  }

  lemma {:induction false} NoDistance(ws: seq<Worker>)
    requires TotalDistance(ws) == 0
    ensures forall id :: 0 <= id < |ws| ==> !Alive(ws[id])
    ensures TotalClaims(ws, false) == 0
  {
    if ws != [] {
      NoDistance(ws[1..]);
    }
  }

  /** The way out for a worker. */
  function TowardsExit(pc: WorkerPc): WorkerAction
    requires Distance(pc) > 0
  {
    match pc
    case Closing => Exit
    case Connecting => Close
    case Polling => Close
    case Refusing => EndRefusal
    case Refused => ClaimRefusal
    case Received => Begin
    case Replying => End(false)
    case Dispatching => Reply
  }

  /** While draining, every started worker can always be brought to its exit, with the accept thread
      and the finaliser standing still. */
  lemma {:induction false} AllCanExit(h: Hash, s: State) returns (actions: seq<Action>)
    requires s.server.state != Running
    ensures CanRun(h, s, actions)
    ensures var s' := Run(h, s, actions);
            && TotalDistance(s'.workers) == 0 && |s'.workers| == |s.workers|
            && s'.accept == s.accept && s'.fin == s.fin && s'.server.state == s.server.state
            && s'.trace == s.trace
    decreases TotalDistance(s.workers)
  {
    if TotalDistance(s.workers) == 0 {
      actions := [];
    } else {
      var id := SomeoneLive(s.workers);
      var a := TowardsExit(s.workers[id].pc);
      var next := WorkerStep(h, s, id, a);
      OneCloser(h, s, id);
      hide WorkerStep, TotalDistance, Distance, TowardsExit, WorkerEnabled;
      var rest := AllCanExit(h, next);
      actions := [Works(id, a)] + rest;
      assert actions[1..] == rest;
    }
  }

  /** While draining, a step towards the exit is enabled and brings the worker closer to it. */
  lemma OneCloser(h: Hash, s: State, id: nat)
    requires s.server.state != Running && id < |s.workers| && Distance(s.workers[id].pc) > 0
    ensures var a := TowardsExit(s.workers[id].pc);
            var next := WorkerStep(h, s, id, a);
            && WorkerEnabled(s.workers[id].pc, a)
            && TotalDistance(next.workers) < TotalDistance(s.workers)
            && |next.workers| == |s.workers| && next.accept == s.accept && next.fin == s.fin
            && next.server.state == s.server.state && next.trace == s.trace
  {
    var a := TowardsExit(s.workers[id].pc);
    var w := WorkerAfter(s.server, s.workers[id], a);
    assert Distance(w.pc) < Distance(s.workers[id].pc);
    hide TotalDistance, Distance, WorkerAfter;
    DistanceUpdate(s.workers, id, w);
  }

  /** The snapshot is taken once. */
  lemma {:induction false} SnapshotStays(h: Hash, s: State, actions: seq<Action>)
    requires CanRun(h, s, actions) && Stage(s.fin.pc) > 2
    ensures Run(h, s, actions).fin.snapshotComplete == s.fin.snapshotComplete
    decreases actions
  {
    if actions != [] {
      var next := Next(h, s, actions[0]);
      assert Stage(next.fin.pc) > 2
          && next.fin.snapshotComplete == s.fin.snapshotComplete by {
        SnapshotStep(h, s, actions[0]);
      }
      SnapshotStays(h, next, actions[1..]);
    }
  }

  lemma SnapshotStep(h: Hash, s: State, a: Action)
    requires Enabled(s, a) && Stage(s.fin.pc) > 2
    ensures var s' := Next(h, s, a);
            Stage(s'.fin.pc) > 2 && s'.fin.snapshotComplete == s.fin.snapshotComplete &&
            s'.fin.joined == s.fin.joined && |s.workers| <= |s'.workers|
  {
    match a
    case Accepts(accept) => AcceptFrame(s, accept);
    case Works(id, worker) => WorkerFrame(h, s, id, worker);
    case Finalises(finaliser) => SnapshotFrame(h, s, finaliser);
  }

  lemma SnapshotFrame(h: Hash, s: State, a: FinaliserAction)
    requires FinaliserEnabled(s, a) && Stage(s.fin.pc) > 2
    ensures var s' := FinaliserStep(h, s, a);
            Stage(s'.fin.pc) > 2 && s'.fin.snapshotComplete == s.fin.snapshotComplete &&
            s'.fin.joined == s.fin.joined && |s.workers| <= |s'.workers|
  {
    match a
    case StopEnter =>
    case StopRecord(_) =>
    case StopLeave =>
    case Claim =>
    case Record(_) =>
    case BeginDrain =>
    case Snapshot =>
    case WritersWaited =>
    case ResponsesWaited =>
    case CloseTransport(_) =>
    case EndDrain =>
    case ReadCount =>
    case RecordSeal(_) =>
    case Seal =>
  }

  /** Some event that is not a seal event. */
  function Disconnect(): Event {
    Event(0, 0, Content("client_disconnected", "disconnect", "", "ALLOW", "NORMAL", "", map[]), "", "")
  }

  lemma OneStep(h: Hash, s: State, a: Action)
    requires Enabled(s, a)
    ensures CanRun(h, s, [a]) && Run(h, s, [a]) == Next(h, s, a)
  {
    assert [a][1..] == [];
    assert CanRun(h, Next(h, s, a), []);
  }

  lemma Extend(h: Hash, s: State, actions: seq<Action>, a: Action)
    requires CanRun(h, s, actions) && Enabled(Run(h, s, actions), a)
    ensures CanRun(h, s, actions + [a]) && Run(h, s, actions + [a]) == Next(h, Run(h, s, actions), a)
  {
    OneStep(h, Run(h, s, actions), a);
    RunAppend(h, s, actions, [a]);
  }

  /** With every started worker gone, the drain ends clean. */
  lemma DrainToCount(h: Hash, s: State) returns (actions: seq<Action>)
    requires Invariant(h, s) && s.fin.pc == WaitingForWriters && TotalDistance(s.workers) == 0
    ensures CanRun(h, s, actions)
    ensures var s' := Run(h, s, actions);
            s'.fin.drained && s'.fin.pc.CountRead? && s'.accept == s.accept && s'.workers == s.workers
  {
    NoDistance(s.workers);
    var s1 := Next(h, s, Finalises(WritersWaited));
    OneStep(h, s, Finalises(WritersWaited));
    actions := ClosingToCount(h, s1);
    RunAppend(h, s, [Finalises(WritersWaited)], actions);
    actions := [Finalises(WritersWaited)] + actions;
  }

  lemma ClosingToCount(h: Hash, s: State) returns (actions: seq<Action>)
    requires s.fin.pc == WaitingForResponses && DrainClean(s)
    ensures CanRun(h, s, actions)
    ensures var s' := Run(h, s, actions);
            s'.fin.drained && s'.fin.pc.CountRead? && s'.accept == s.accept && s'.workers == s.workers
  {
    var s1 := Next(h, s, Finalises(ResponsesWaited));
    var s2 := Next(h, s1, Finalises(EndDrain));
    OneStep(h, s, Finalises(ResponsesWaited));
    Extend(h, s, [Finalises(ResponsesWaited)], Finalises(EndDrain));
    actions := [Finalises(ResponsesWaited)] + [Finalises(EndDrain)];
    assert Run(h, s, actions) == s2 && s2.fin.drained;
    Extend(h, s, actions, Finalises(ReadCount));
    actions := actions + [Finalises(ReadCount)];
  }

  lemma StartListed(h: Hash, s: State) returns (actions: seq<Action>)
    requires WorkersHold(s) && s.accept.Starting?
    ensures CanRun(h, s, actions) && StartedLate(s, Run(h, s, actions))
  {
    actions := [Accepts(Start)];
    OneStep(h, s, Accepts(Start));
    assert Run(h, s, actions).workers[s.accept.id].pc == Connecting;
  }

  lemma StartRegistered(h: Hash, s: State) returns (actions: seq<Action>)
    requires WorkersHold(s) && s.accept.Registering?
    ensures CanRun(h, s, actions) && StartedLate(s, Run(h, s, actions))
  {
    var s1 := AcceptStep(s, List);
    OneStep(h, s, Accepts(List));
    var rest := StartListed(h, s1);
    RunAppend(h, s, [Accepts(List)], rest);
    actions := [Accepts(List)] + rest;
  }

  /** A worker has been started while everybody else stood still. */
  ghost predicate StartedLate(s: State, s': State) {
    s'.fin.pc == s.fin.pc && s'.fin.drained == s.fin.drained && s'.trace == s.trace &&
    exists id :: 0 <= id < |s'.workers| && s'.workers[id].pc == Connecting
  }

  /** An accept thread caught between its check and the start of a worker can finish starting it. */
  lemma StartLate(h: Hash, s: State) returns (actions: seq<Action>)
    requires WorkersHold(s) && !BetweenConnections(s.accept)
    ensures CanRun(h, s, actions) && StartedLate(s, Run(h, s, actions))
  {
    if s.accept.Starting? {
      actions := StartListed(h, s);
    } else if s.accept.Registering? {
      actions := StartRegistered(h, s);
    } else {
      var s1 := AcceptStep(s, Register);
      OneStep(h, s, Accepts(Register));
      var rest := StartRegistered(h, s1);
      RunAppend(h, s, [Accepts(Register)], rest);
      actions := [Accepts(Register)] + rest;
    }
  }

  lemma NotASeal(h: Hash, t: TraceValue)
    requires t.declared.None?
    ensures !EndsInSeal(Recorded(h, t, Disconnect()))
  {
  }

  lemma RecordAndSeal(h: Hash, s: State) returns (actions: seq<Action>)
    requires s.fin.pc == SealRecorded && s.trace.declared.None?
    requires exists id :: 0 <= id < |s.workers| && s.workers[id].pc == Connecting
    ensures CanRun(h, s, actions)
    ensures var s' := Run(h, s, actions);
            s'.fin.drained == s.fin.drained && s'.fin.pc == Finished && !EndsInSeal(s'.trace)
  {
    var id :| 0 <= id < |s.workers| && s.workers[id].pc == Connecting;
    NotASeal(h, s.trace);
    OneStep(h, s, Works(id, Note(Disconnect())));
    var s1 := Next(h, s, Works(id, Note(Disconnect())));
    assert s1.trace == Recorded(h, s.trace, Disconnect());
    Extend(h, s, [Works(id, Note(Disconnect()))], Finalises(Seal));
    actions := [Works(id, Note(Disconnect()))] + [Finalises(Seal)];
  }

  /** From there a late worker can record between the seal event and the seal. */
  lemma LateRecord(h: Hash, s: State) returns (actions: seq<Action>)
    requires Invariant(h, s) && s.fin.drained && s.fin.pc.CountRead? && !BetweenConnections(s.accept)
    ensures CanRun(h, s, actions)
    ensures var s' := Run(h, s, actions);
            s'.fin.drained && s'.fin.pc == Finished && !EndsInSeal(s'.trace)
  {
    var seal := Finalises(RecordSeal(SealEvent(s.fin.pc.count)));
    var first := [seal];
    var s1 := Next(h, s, seal);
    StepKeepsInvariant(h, s, seal);
    OneStep(h, s, seal);
    var start := StartLate(h, s1);
    var rest := RecordAndSeal(h, Run(h, s1, start));
    RunAppend(h, s1, start, rest);
    RunAppend(h, s, first, start + rest);
    actions := first + (start + rest);
  }

  lemma CompleteSnapshotSeals(h: Hash, s: State)
    requires Invariant(h, s) && s.fin.pc == WaitingForWriters && s.fin.snapshotComplete
    ensures SealAlwaysLast(h, s)
  {
    forall actions | CanRun(h, s, actions)
      ensures var s' := Run(h, s, actions); s'.fin.drained && s'.fin.pc == Finished ==> EndsInSeal(s'.trace)
    {
      RunKeepsInvariant(h, s, actions);
      SnapshotStays(h, s, actions);
    }
  }

  lemma IncompleteSnapshotFails(h: Hash, s: State)
    requires Invariant(h, s) && s.fin.pc == WaitingForWriters && !BetweenConnections(s.accept)
    ensures !SealAlwaysLast(h, s)
  {
    var out := AllCanExit(h, s);
    RunKeepsInvariant(h, s, out);
    var s1 := Run(h, s, out);
    var drain := DrainToCount(h, s1);
    RunKeepsInvariant(h, s1, drain);
    var s2 := Run(h, s1, drain);
    var late := LateRecord(h, s2);
    RunAppend(h, s1, drain, late);
    RunAppend(h, s, out, drain + late);
    assert CanRun(h, s, out + (drain + late));
  }

  /** The drain waits a bounded time for the accept thread, and takes its snapshot of the workers
      either way. From the snapshot on, a drain that reports success is certain to leave a trace
      ending in its seal event, with the right count, exactly when the accept thread was between
      connections at that moment. Otherwise it may go on to start a worker the drain never saw. */
  lemma SealLastExactly(h: Hash, s: State)
    requires Invariant(h, s) && s.fin.pc == DrainBegun
    ensures SealAlwaysLast(h, Next(h, s, Finalises(Snapshot))) <==> BetweenConnections(s.accept)
  {
    StepKeepsInvariant(h, s, Finalises(Snapshot));
    var s1 := Next(h, s, Finalises(Snapshot));
    if BetweenConnections(s.accept) {
      CompleteSnapshotSeals(h, s1);
    } else {
      IncompleteSnapshotFails(h, s1);
    }
  }

  /** A run from the start that reaches the snapshot while the accept thread is between its check and
      the start of a worker. */
  lemma MidConnectionReached(h: Hash, s: State) returns (actions: seq<Action>)
    requires s.accept == Accepting && !s.server.stopping && s.fin.pc == NotBegun && !s.fin.stopHoldsLock
    ensures CanRun(h, s, actions)
    ensures Run(h, s, actions).fin.pc == DrainBegun && !BetweenConnections(Run(h, s, actions).accept)
  {
    OneStep(h, s, Accepts(Connection));
    Extend(h, s, [Accepts(Connection)], Finalises(Claim));
    actions := [Accepts(Connection)] + [Finalises(Claim)];
    Extend(h, s, actions, Finalises(BeginDrain));
    actions := actions + [Finalises(BeginDrain)];
  }

  /** So there is a run from the very start whose drain reports success and whose sealed trace does
      not end in its seal event. */
  lemma LateEventReached(h: Hash, s: State) returns (actions: seq<Action>)
    requires Invariant(h, s)
    requires s.accept == Accepting && !s.server.stopping && s.fin.pc == NotBegun && !s.fin.stopHoldsLock
    ensures CanRun(h, s, actions)
    ensures var s' := Run(h, s, actions);
            s'.fin.drained && s'.fin.pc == Finished && !EndsInSeal(s'.trace)
  {
    var first := MidConnectionReached(h, s);
    RunKeepsInvariant(h, s, first);
    var s1 := Run(h, s, first);
    hide EndsInSeal, Invariant, AcceptStep, FinaliserAfter, ServerAfter, TraceAfter;
    SealLastExactly(h, s1);
    OneStep(h, s1, Finalises(Snapshot));
    var s2 := Next(h, s1, Finalises(Snapshot));
    var late :| CanRun(h, s2, late) && Run(h, s2, late).fin.drained && Run(h, s2, late).fin.pc == Finished
                && !EndsInSeal(Run(h, s2, late).trace);
    RunAppend(h, s1, [Finalises(Snapshot)], late);
    RunAppend(h, s, first, [Finalises(Snapshot)] + late);
    actions := first + ([Finalises(Snapshot)] + late);
  }

  lemma LateEventFromStart(sessionId: string, createdAt: int, history: seq<Event>, h: Hash)
    ensures !SealAlwaysLast(h, Initial(sessionId, createdAt, history, h))
  {
    var s := Initial(sessionId, createdAt, history, h);
    InitialHolds(sessionId, createdAt, history, h);
    hide Invariant, EndsInSeal;
    var actions := LateEventReached(h, s);
  }

  // ---- what a drain that reports success has seen -----------------------------------------------

  ghost predicate InHandler(w: Worker) {
    w.pc == Dispatching || w.pc == Replying
  }

  /** A frame of this worker's is on the wire, or will be, under a claim. */
  ghost predicate HoldsFrame(w: Worker) {
    w.pc == Dispatching || w.pc == Replying || w.pc == Refusing
  }

  ghost predicate Holding(w: Worker, onResponses: bool) {
    if onResponses then HoldsFrame(w) else InHandler(w)
  }

  lemma {:induction false} TotalZero(ws: seq<Worker>, onResponses: bool)
    ensures TotalClaims(ws, onResponses) == 0 <==> forall w :: w in ws ==> !Holding(w, onResponses)
  {
    if ws != [] {
      TotalZero(ws[1..], onResponses);
      assert Claims(ws[0].pc, onResponses) == 0 <==> !Holding(ws[0], onResponses);
      hide Holding, Claims;
      assert forall w :: w in ws <==> w == ws[0] || w in ws[1..];
    }
  }

  ghost predicate Followed(s: State, id: nat) {
    && id < |s.workers| && s.workers[id].pc != Unstarted
    && id in s.fin.joined && Stage(s.fin.pc) >= 3
    && (s.fin.drained ==> s.workers[id].pc == Exited)
  }

  lemma FollowedByAccept(h: Hash, s: State, a: AcceptAction, id: nat)
    requires Enabled(s, Accepts(a)) && Followed(s, id)
    ensures Followed(Next(h, s, Accepts(a)), id)
  {
    match a
    case Connection =>
    case Reject =>
    case Register =>
    case List =>
    case Start =>
    case Leave =>
  }

  lemma FollowedByFinaliser(h: Hash, s: State, a: FinaliserAction, id: nat)
    requires Enabled(s, Finalises(a)) && Followed(s, id)
    ensures Followed(Next(h, s, Finalises(a)), id)
  {
    match a
    case StopEnter =>
    case StopRecord(_) =>
    case StopLeave =>
    case Claim =>
    case Record(_) =>
    case BeginDrain =>
    case Snapshot =>
    case WritersWaited =>
    case ResponsesWaited =>
    case CloseTransport(_) =>
    case EndDrain =>
    case ReadCount =>
    case RecordSeal(_) =>
    case Seal =>
  }

  lemma FollowedByWorker(h: Hash, s: State, worker: nat, a: WorkerAction, id: nat)
    requires Enabled(s, Works(worker, a)) && Followed(s, id)
    ensures Followed(Next(h, s, Works(worker, a)), id)
  {
    WorkerMove(s.server, s.workers[worker], a);
    hide WorkerAfter, CountsAfter, WorkerEnabled, Claims;
  }

  lemma FollowedStep(h: Hash, s: State, a: Action, id: nat)
    requires Enabled(s, a) && Followed(s, id)
    ensures Followed(Next(h, s, a), id)
  {
    hide Followed;
    match a
    case Accepts(accept) => FollowedByAccept(h, s, accept, id);
    case Works(worker, step) => FollowedByWorker(h, s, worker, step, id);
    case Finalises(finaliser) => FollowedByFinaliser(h, s, finaliser, id);
  }

  lemma {:induction false} FollowedToTheEnd(h: Hash, s: State, actions: seq<Action>, id: nat)
    requires CanRun(h, s, actions) && Followed(s, id)
    ensures Followed(Run(h, s, actions), id)
    decreases actions
  {
    if actions != [] {
      FollowedStep(h, s, actions[0], id);
      hide Followed, Next, Enabled;
      FollowedToTheEnd(h, Next(h, s, actions[0]), actions[1..], id);
    }
  }

  /** A drain that reports success leaves no worker behind that was listed and started when it took
      its snapshot, whatever the accept thread was doing then. */
  lemma DrainedLeavesNone(h: Hash, s: State, actions: seq<Action>, id: nat)
    requires Invariant(h, s) && s.fin.pc == DrainBegun && CanRun(h, Next(h, s, Finalises(Snapshot)), actions)
    requires id < |s.workers| && s.workers[id].listed && s.workers[id].pc != Unstarted
    ensures var s' := Run(h, Next(h, s, Finalises(Snapshot)), actions);
            s'.fin.drained ==> id < |s'.workers| && s'.workers[id].pc == Exited
  {
    var s1 := Next(h, s, Finalises(Snapshot));
    assert Followed(s1, id);
    FollowedToTheEnd(h, s1, actions, id);
  }

  lemma {:induction false} JoinedStays(h: Hash, s: State, actions: seq<Action>)
    requires CanRun(h, s, actions) && Stage(s.fin.pc) > 2
    ensures var s' := Run(h, s, actions); s'.fin.joined == s.fin.joined && |s.workers| <= |s'.workers|
    decreases actions
  {
    if actions != [] {
      var next := Next(h, s, actions[0]);
      assert Stage(next.fin.pc) > 2 && next.fin.joined == s.fin.joined && |s.workers| <= |next.workers| by {
        SnapshotStep(h, s, actions[0]);
      }
      JoinedStays(h, next, actions[1..]);
    }
  }

  /** Exactly when the drain reports success: nobody is inside a handler at its end, and every worker
      that was listed at the snapshot has exited or was never started. */
  lemma DrainedExactly(h: Hash, s: State, actions: seq<Action>)
    requires Invariant(h, s) && s.fin.pc == DrainBegun && CanRun(h, Next(h, s, Finalises(Snapshot)), actions)
    requires Run(h, Next(h, s, Finalises(Snapshot)), actions).fin.pc == ClosingTransports
    ensures var before := Run(h, Next(h, s, Finalises(Snapshot)), actions);
            var after := Next(h, before, Finalises(EndDrain));
            && |s.workers| <= |before.workers|
            && (after.fin.drained <==>
                  (forall w :: w in before.workers ==> !InHandler(w)) &&
                  forall id :: 0 <= id < |s.workers| && s.workers[id].listed ==>
                    before.workers[id].pc == Unstarted || before.workers[id].pc == Exited)
            && after.server.state == (if after.fin.drained then Stopped else Draining)
  {
    var s1 := Next(h, s, Finalises(Snapshot));
    StepKeepsInvariant(h, s, Finalises(Snapshot));
    RunKeepsInvariant(h, s1, actions);
    JoinedStays(h, s1, actions);
    var before := Run(h, s1, actions);
    TotalZero(before.workers, false);
    assert forall id :: id in before.fin.joined <==> 0 <= id < |s.workers| && s.workers[id].listed;
    ConcludeStep(h, before);
    hide Invariant, Next, TotalClaims, Run, CanRun;
  }

  lemma ConcludeStep(h: Hash, s: State)
    requires Invariant(h, s) && s.fin.pc == ClosingTransports
    ensures var s' := Next(h, s, Finalises(EndDrain));
            && (s'.fin.drained <==>
                  TotalClaims(s.workers, false) == 0 &&
                  forall id :: id in s.fin.joined && id < |s.workers| ==>
                    s.workers[id].pc == Unstarted || s.workers[id].pc == Exited)
            && s'.server.state == (if s'.fin.drained then Stopped else Draining)
  {
    hide TotalClaims, RequestsHold, WorkersHold, TraceHolds, QuietEnd;
    assert s.server.state == Draining;
  }

  /** The wait for responses ends by its deadline exactly when a worker still holds a frame then. */
  lemma DeadlineBreaksExactly(h: Hash, s: State)
    requires Invariant(h, s) && s.fin.pc == WaitingForResponses
    ensures Next(h, s, Finalises(ResponsesWaited)).fin.deadlineBroke <==> exists w :: w in s.workers && HoldsFrame(w)
  {
    TotalZero(s.workers, true);
  }

  /** Somewhere on the run a transport is closed whose worker holds a frame. */
  ghost predicate CutsAFrame(h: Hash, s: State, actions: seq<Action>)
    requires CanRun(h, s, actions)
    decreases actions
  {
    actions != [] && (Cuts(s, actions[0]) || CutsAFrame(h, Next(h, s, actions[0]), actions[1..]))
  }

  ghost predicate Cuts(s: State, a: Action) {
    a.Finalises? && a.finaliser.CloseTransport? && a.finaliser.id < |s.workers| && HoldsFrame(s.workers[a.finaliser.id])
  }

  lemma CutByAccept(s: State, a: AcceptAction)
    requires AcceptEnabled(s, a)
    ensures AcceptStep(s, a).fin == s.fin
  {
  }

  lemma CutByFinaliser(h: Hash, s: State, a: FinaliserAction)
    requires FinaliserEnabled(s, a)
    ensures FinaliserStep(h, s, a).fin.frameCut <==> s.fin.frameCut || Cuts(s, Finalises(a))
  {
    hide TraceAfter, Recorded, ServerAfter, IsSeal, DrainClean;
    match a
    case StopEnter =>
    case StopRecord(_) =>
    case StopLeave =>
    case Claim =>
    case Record(_) =>
    case BeginDrain =>
    case Snapshot =>
    case WritersWaited =>
    case ResponsesWaited =>
    case CloseTransport(_) =>
    case EndDrain =>
    case ReadCount =>
    case RecordSeal(_) =>
    case Seal =>
  }

  lemma CutStep(h: Hash, s: State, a: Action)
    requires Enabled(s, a)
    ensures Next(h, s, a).fin.frameCut <==> s.fin.frameCut || Cuts(s, a)
  {
    match a
    case Accepts(accept) => CutByAccept(s, accept);
    case Works(_, _) =>
    case Finalises(finaliser) => CutByFinaliser(h, s, finaliser);
  }

  /** The drain has cut a frame exactly when it closed a transport whose worker held one. */
  lemma {:induction false} FrameCutExactly(h: Hash, s: State, actions: seq<Action>)
    requires CanRun(h, s, actions)
    ensures Run(h, s, actions).fin.frameCut <==> s.fin.frameCut || CutsAFrame(h, s, actions)
    decreases actions
  {
    if actions != [] {
      CutStep(h, s, actions[0]);
      FrameCutExactly(h, Next(h, s, actions[0]), actions[1..]);
    }
  }

  // ---- finalisation always gets to its end -------------------------------------------------------

  lemma FinaliserGoesOn(h: Hash, s: State) returns (a: FinaliserAction)
    requires Invariant(h, s) && s.fin.shuttingDown && s.fin.pc != Finished
    ensures FinaliserEnabled(s, a)
    ensures var s' := FinaliserStep(h, s, a);
            && Stage(s'.fin.pc) == Stage(s.fin.pc) + 1 && s'.fin.shuttingDown
            && s'.workers == s.workers && s'.accept == s.accept
  {
    hide CountsHold, RequestsHold, WorkersHold, TraceHolds, QuietEnd, TraceAfter, ServerAfter;
    match s.fin.pc
    case Claimed => a := BeginDrain;
    case DrainBegun => a := Snapshot;
    case WaitingForWriters => a := WritersWaited;
    case WaitingForResponses => a := ResponsesWaited;
    case ClosingTransports => a := EndDrain;
    case DrainOver => a := ReadCount;
    case CountRead(count) => a := RecordSeal(SealEvent(count));
    case SealRecorded => a := Seal;
  }

  /** From every state after its beginning finalisation can go on to the seal, with everybody else
      standing still: nobody can keep it from ending. */
  lemma {:induction false} FinishReached(h: Hash, s: State) returns (actions: seq<Action>)
    requires Invariant(h, s) && s.fin.shuttingDown
    ensures CanRun(h, s, actions)
    ensures var s' := Run(h, s, actions);
            s'.fin.pc == Finished && s'.trace.declared.Some? && s'.workers == s.workers && s'.accept == s.accept
    decreases 9 - Stage(s.fin.pc)
  {
    if s.fin.pc == Finished {
      actions := [];
    } else {
      var a := FinaliserGoesOn(h, s);
      StepKeepsInvariant(h, s, Finalises(a));
      hide Invariant, FinaliserEnabled, FinaliserStep;
      var rest := FinishReached(h, Next(h, s, Finalises(a)));
      actions := [Finalises(a)] + rest;
      assert actions[1..] == rest;
    }
  }

  /** Closing a transport touches nothing but the record of what was cut. */
  lemma TransportCloses(h: Hash, s: State, id: nat)
    requires s.fin.pc == ClosingTransports && id < |s.workers|
    ensures Enabled(s, Finalises(CloseTransport(id)))
    ensures Next(h, s, Finalises(CloseTransport(id)))
            == s.(fin := s.fin.(frameCut := s.fin.frameCut || HoldsFrame(s.workers[id])))
  {
    hide Recorded, FinalHash;
  }

  // ---- what a request, a connection and a recording come to -------------------------------------

  /** The state with worker `id` and the server's fields replaced. */
  function With(s: State, id: nat, w: Worker, server: Server): State
    requires id < |s.workers|
  {
    s.(workers := s.workers[id := w], server := server)
  }

  lemma WithMeans(s: State, id: nat, w: Worker)
    requires id < |s.workers|
    ensures With(s, id, w, s.server) == s.(workers := s.workers[id := w])
    ensures s == With(s, id, s.workers[id], s.server)
  {
    assert s.workers == s.workers[id := s.workers[id]];
  }

  /** The steps take a worker and the server's fields there, and record nothing. */
  ghost predicate Walks(w: Worker, server: Server, steps: seq<WorkerAction>, w': Worker, server': Server)
    decreases steps
  {
    if steps == [] then w' == w && server' == server
    else WorkerEnabled(w.pc, steps[0]) && !steps[0].Note? &&
         Walks(WorkerAfter(server, w, steps[0]), CountsAfter(server, steps[0]), steps[1..], w', server')
  }

  function Taken(id: nat, steps: seq<WorkerAction>): seq<Action> {
    seq(|steps|, i requires 0 <= i < |steps| => Works(id, steps[i]))
  }

  lemma WorkOnce(h: Hash, s: State, id: nat, w: Worker, server: Server, a: WorkerAction)
    requires id < |s.workers| && WorkerEnabled(w.pc, a) && !a.Note?
    ensures Enabled(With(s, id, w, server), Works(id, a))
    ensures Next(h, With(s, id, w, server), Works(id, a))
            == With(s, id, WorkerAfter(server, w, a), CountsAfter(server, a))
  {
    var w' := WorkerAfter(server, w, a);
    hide WorkerAfter, CountsAfter, WorkerEnabled;
    assert s.workers[id := w][id := w'] == s.workers[id := w'];
  }

  /** With everybody else standing still, that is what the run does. */
  lemma {:induction false} WorkAlone(h: Hash, s: State, id: nat, w: Worker, server: Server, steps: seq<WorkerAction>,
                                     w': Worker, server': Server)
    requires id < |s.workers| && Walks(w, server, steps, w', server')
    ensures CanRun(h, With(s, id, w, server), Taken(id, steps))
    ensures Run(h, With(s, id, w, server), Taken(id, steps)) == With(s, id, w', server')
    decreases steps
  {
    if steps != [] {
      var a := steps[0];
      WorkOnce(h, s, id, w, server, a);
      WorkAlone(h, s, id, WorkerAfter(server, w, a), CountsAfter(server, a), steps[1..], w', server');
      assert Taken(id, steps)[1..] == Taken(id, steps[1..]) && Taken(id, steps)[0] == Works(id, a);
      hide With, Enabled, Next, WorkerAfter, CountsAfter, WorkerEnabled, Taken;
    }
  }

  lemma WorkRound(h: Hash, s: State, id: nat, steps: seq<WorkerAction>, w': Worker)
    requires id < |s.workers| && Walks(s.workers[id], s.server, steps, w', s.server)
    ensures CanRun(h, s, Taken(id, steps))
    ensures Run(h, s, Taken(id, steps)) == s.(workers := s.workers[id := w'])
  {
    hide Walks, With, CanRun, Run, Taken;
    WithMeans(s, id, w');
    WithMeans(s, id, s.workers[id]);
    WorkAlone(h, s, id, s.workers[id], s.server, steps, w', s.server);
  }

  lemma FourWalk(w: Worker, server: Server, steps: seq<WorkerAction>, w1: Worker, server1: Server,
                 w2: Worker, server2: Server, w3: Worker, server3: Server)
    requires |steps| == 4 && forall i :: 0 <= i < 4 ==> !steps[i].Note?
    requires WorkerEnabled(w.pc, steps[0]) && w1 == WorkerAfter(server, w, steps[0])
    requires server1 == CountsAfter(server, steps[0])
    requires WorkerEnabled(w1.pc, steps[1]) && w2 == WorkerAfter(server1, w1, steps[1])
    requires server2 == CountsAfter(server1, steps[1])
    requires WorkerEnabled(w2.pc, steps[2]) && w3 == WorkerAfter(server2, w2, steps[2])
    requires server3 == CountsAfter(server2, steps[2])
    requires WorkerEnabled(w3.pc, steps[3])
    ensures Walks(w, server, steps, WorkerAfter(server3, w3, steps[3]), CountsAfter(server3, steps[3]))
  {
    hide WorkerAfter, CountsAfter, WorkerEnabled;
    var w4, server4 := WorkerAfter(server3, w3, steps[3]), CountsAfter(server3, steps[3]);
    assert Walks(w4, server4, steps[4..], w4, server4);
    assert Walks(w3, server3, steps[3..], w4, server4) by { assert steps[3..][1..] == steps[4..]; }
    assert Walks(w2, server2, steps[2..], w4, server4) by { assert steps[2..][1..] == steps[3..]; }
    assert Walks(w1, server1, steps[1..], w4, server4) by { assert steps[1..][1..] == steps[2..]; }
  }

  /** An admitted request gives its claims back, whether or not its reply could be sent. */
  lemma AdmittedRound(h: Hash, s: State, id: nat, sent: bool)
    requires id < |s.workers| && s.workers[id].pc == Polling && s.server.state == Running && !s.server.claimsClosed
    ensures var round := Taken(id, [Receive, Begin, Reply, End(sent)]);
            var w := s.workers[id];
            && CanRun(h, s, round)
            && Run(h, s, round) == s.(workers := s.workers[id := w.(
                 pc := if sent then Polling else Closing, received := w.received + 1, admitted := w.admitted + 1)])
  {
    hide CanRun, Run, Taken, Walks;
    var w, server := s.workers[id], s.server;
    var w1 := w.(pc := Received, received := w.received + 1);
    var w2 := w1.(pc := Dispatching, admitted := w.admitted + 1);
    var server2 := server.(writers := server.writers + 1, responses := server.responses + 1);
    FourWalk(w, server, [Receive, Begin, Reply, End(sent)], w1, server, w2, server2, w2.(pc := Replying), server2);
    WorkRound(h, s, id, [Receive, Begin, Reply, End(sent)], w2.(pc := if sent then Polling else Closing));
  }

  /** While draining, a request is refused by a frame that is claimed for and given back. */
  lemma RefusedRound(h: Hash, s: State, id: nat)
    requires id < |s.workers| && s.workers[id].pc == Polling && s.server.state != Running && !s.server.claimsClosed
    ensures var round := Taken(id, [Receive, Begin, ClaimRefusal, EndRefusal]);
            var w := s.workers[id];
            && CanRun(h, s, round)
            && Run(h, s, round) == s.(workers := s.workers[id := w.(
                 received := w.received + 1, refused := w.refused + 1)])
  {
    hide CanRun, Run, Taken, Walks;
    var w, server := s.workers[id], s.server;
    var w1 := w.(pc := Received, received := w.received + 1);
    var w3 := w1.(pc := Refusing, refused := w.refused + 1);
    var server3 := server.(responses := server.responses + 1);
    var w2 := w1.(pc := Refused);
    FourWalk(w, server, [Receive, Begin, ClaimRefusal, EndRefusal], w1, server, w2, server, w3, server3);
    WorkRound(h, s, id, [Receive, Begin, ClaimRefusal, EndRefusal], w3.(pc := Polling));
  }

  /** Once the window for claims is closed, the first request of a late connection is dropped without
      a frame, and its worker reads on. */
  lemma DroppedRound(h: Hash, s: State, id: nat)
    requires id < |s.workers| && s.workers[id].pc == Connecting && s.server.claimsClosed
    ensures var round := Taken(id, [Serve, Receive, Begin, ClaimRefusal]);
            var w := s.workers[id];
            && CanRun(h, s, round)
            && Run(h, s, round) == s.(workers := s.workers[id := w.(
                 pc := Polling, received := w.received + 1, dropped := w.dropped + 1)])
  {
    hide CanRun, Run, Taken, Walks;
    var w, server := s.workers[id], s.server;
    var w1 := w.(pc := Polling);
    var w2 := w.(pc := Received, received := w.received + 1);
    FourWalk(w, server, [Serve, Receive, Begin, ClaimRefusal], w1, server, w2, server, w2.(pc := Refused), server);
    WorkRound(h, s, id, [Serve, Receive, Begin, ClaimRefusal], w2.(pc := Polling, dropped := w.dropped + 1));
  }

  lemma TwoSteps(h: Hash, s: State, actions: seq<Action>)
    requires |actions| == 2 && Enabled(s, actions[0]) && Enabled(Next(h, s, actions[0]), actions[1])
    ensures CanRun(h, s, actions)
    ensures Run(h, s, actions) == Next(h, Next(h, s, actions[0]), actions[1])
  {
    hide Enabled, Next;
    OneStep(h, Next(h, s, actions[0]), actions[1]);
    assert actions[1..] == [actions[1]];
  }

  lemma ThreeSteps(h: Hash, s: State, actions: seq<Action>)
    requires |actions| == 3 && Enabled(s, actions[0])
    requires var s1 := Next(h, s, actions[0]);
             Enabled(s1, actions[1]) && Enabled(Next(h, s1, actions[1]), actions[2])
    ensures CanRun(h, s, actions)
    ensures Run(h, s, actions) == Next(h, Next(h, Next(h, s, actions[0]), actions[1]), actions[2])
  {
    hide Enabled, Next;
    TwoSteps(h, Next(h, s, actions[0]), actions[1..]);
  }

  lemma FourSteps(h: Hash, s: State, actions: seq<Action>)
    requires |actions| == 4 && Enabled(s, actions[0])
    requires var s1 := Next(h, s, actions[0]);
             Enabled(s1, actions[1]) && var s2 := Next(h, s1, actions[1]);
             Enabled(s2, actions[2]) && Enabled(Next(h, s2, actions[2]), actions[3])
    ensures CanRun(h, s, actions)
    ensures Run(h, s, actions) == Next(h, Next(h, Next(h, Next(h, s, actions[0]), actions[1]), actions[2]), actions[3])
  {
    hide Enabled, Next;
    ThreeSteps(h, Next(h, s, actions[0]), actions[1..]);
  }

  /** A connection that is accepted adds one worker, listed and started, and nothing else. */
  lemma ConnectionRound(h: Hash, s: State)
    requires s.accept == Accepting && !s.server.stopping
    ensures var round := [Accepts(Connection), Accepts(Register), Accepts(List), Accepts(Start)];
            && CanRun(h, s, round)
            && Run(h, s, round) == s.(workers := s.workers + [Worker(Connecting, true, 0, 0, 0, 0)])
  {
    FourSteps(h, s, [Accepts(Connection), Accepts(Register), Accepts(List), Accepts(Start)]);
  }

  /** A rejected connection leaves nothing behind, and the accept thread may leave while it waits. */
  lemma RejectionRound(h: Hash, s: State)
    requires s.accept == Accepting && !s.server.stopping
    ensures var round := [Accepts(Connection), Accepts(Reject)];
            && CanRun(h, s, round) && Run(h, s, round) == s
            && Enabled(s, Accepts(Leave)) && Next(h, s, Accepts(Leave)) == s.(accept := Gone)
  {
    TwoSteps(h, s, [Accepts(Connection), Accepts(Reject)]);
  }

  /** A worker that receives nothing serves, closes and exits. */
  lemma IdleRound(h: Hash, s: State, id: nat)
    requires id < |s.workers| && s.workers[id].pc == Connecting
    ensures var round := [Works(id, Serve), Works(id, Close), Works(id, Exit)];
            && CanRun(h, s, round)
            && Run(h, s, round) == s.(workers := s.workers[id := s.workers[id].(pc := Exited)])
  {
    ThreeSteps(h, s, [Works(id, Serve), Works(id, Close), Works(id, Exit)]);
  }

  /** An outside `stop()` that enters before finalisation records its entry and leaves everything else
      as it was, and finalisation waits for it. */
  lemma StopRound(h: Hash, s: State, event: Event)
    requires !s.fin.stopHoldsLock && !s.fin.shuttingDown && s.trace.declared.None?
    ensures var round := [Finalises(StopEnter), Finalises(StopRecord(event)), Finalises(StopLeave)];
            && CanRun(h, s, round)
            && (exists stored :: Stored(h, s.trace.events, event, stored) &&
                  Run(h, s, round) == s.(trace := s.trace.(events := s.trace.events + [stored])))
            && !Enabled(Next(h, s, Finalises(StopEnter)), Finalises(Claim))
  {
    ChainedIsStored(h, s.trace.events, event);
    hide Chained, Stored, CanRun, Run;
    ThreeSteps(h, s, [Finalises(StopEnter), Finalises(StopRecord(event)), Finalises(StopLeave)]);
  }

  /** The hooks and the handler of a worker record where they run, and once the trace is sealed to no
      effect. */
  lemma WorkerRecords(h: Hash, s: State, id: nat, event: Event)
    requires id < |s.workers| && s.workers[id].pc in {Connecting, Polling, Dispatching, Closing}
    ensures Enabled(s, Works(id, Note(event)))
    ensures var s' := Next(h, s, Works(id, Note(event)));
            if s.trace.declared.Some? then s' == s
            else exists stored :: Stored(h, s.trace.events, event, stored) &&
                   s' == s.(trace := s.trace.(events := s.trace.events + [stored]))
  {
    ChainedIsStored(h, s.trace.events, event);
    hide Chained, Stored;
    assert s.workers[id := s.workers[id]] == s.workers;
  }

  /** The finaliser's own entries go in before the drain and after it, whatever the drain found. */
  lemma FinaliserRecords(h: Hash, s: State, event: Event)
    requires Invariant(h, s) && (s.fin.pc == Claimed || s.fin.pc == DrainOver)
    ensures Enabled(s, Finalises(Record(event)))
    ensures exists stored :: Stored(h, s.trace.events, event, stored) &&
              Next(h, s, Finalises(Record(event))) == s.(trace := s.trace.(events := s.trace.events + [stored]))
  {
    ChainedIsStored(h, s.trace.events, event);
    hide Chained, Stored, Linked, Ordered, CountsHold, RequestsHold, DrainHolds, WorkersHold, QuietEnd;
  }

  /** With nobody else recording, finalisation ends with the seal event and the seal, whatever the drain
      found. */
  lemma SealRound(h: Hash, s: State, seal: Event)
    requires Invariant(h, s) && s.fin.pc == DrainOver && IsSeal(seal.content, |s.trace.events| + 1)
    ensures var round := [Finalises(ReadCount), Finalises(RecordSeal(seal)), Finalises(Seal)];
            && CanRun(h, s, round)
            && var t := Run(h, s, round).trace; t.declared.Some? && s.trace.events <= t.events && EndsInSeal(t)
  {
    hide EndsInSeal, IsSeal, CanRun, Run, Chained, CountsHold, RequestsHold, DrainHolds, WorkersHold, QuietEnd, Linked,
         Ordered, FinalHash, DrainClean;
    assert s.trace.declared.None?;
    hide Invariant, TraceHolds;
    SealEventEnds(h, s.trace, seal);
    SealKeepsEnd(h, Recorded(h, s.trace, seal));
    var s1 := Next(h, s, Finalises(ReadCount));
    assert s1 == s.(fin := s.fin.(pc := CountRead(|s.trace.events| + 1)));
    var s2 := Next(h, s1, Finalises(RecordSeal(seal)));
    assert s2.fin.pc == SealRecorded && s2.trace == Recorded(h, s.trace, seal);
    assert Next(h, s2, Finalises(Seal)).trace == s2.trace.(declared := Some(FinalHash(h, s2.trace)));
    var round := [Finalises(ReadCount), Finalises(RecordSeal(seal)), Finalises(Seal)];
    assert s.trace.events <= s2.trace.events;
    hide Recorded;
    ThreeSteps(h, s, round);
  }

  lemma SealKeepsEnd(h: Hash, t: TraceValue)
    ensures EndsInSeal(t) ==> EndsInSeal(t.(declared := Some(FinalHash(h, t))))
  {
    hide IsSeal, FinalHash;
  }

  /** The event an action hands to the recorder. */
  function HandedOver(a: Action): Option<Event> {
    match a
    case Works(_, Note(event)) => Some(event)
    case Finalises(StopRecord(event)) => Some(event)
    case Finalises(Record(event)) => Some(event)
    case Finalises(RecordSeal(event)) => Some(event)
    case _ => None
  }

  /** The events handed to the recorder before the seal. */
  function Recordings(actions: seq<Action>): seq<Event> {
    if actions == [] || actions[0] == Finalises(Seal) then []
    else if HandedOver(actions[0]).None? then Recordings(actions[1..])
    else [HandedOver(actions[0]).value] + Recordings(actions[1..])
  }

  /** What an event says, the clock evidence aside. */
  function Said(e: Event): Content {
    e.content.(metadata := e.content.metadata - {CLOCK_REGRESSION_KEY})
  }

  /** `later` says what `events` say, then what `more` say. */
  ghost predicate Says(later: seq<Event>, events: seq<Event>, more: seq<Event>) {
    events <= later && |later| == |events| + |more| &&
    forall i :: 0 <= i < |more| ==> Said(later[|events| + i]) == Said(more[i])
  }

  lemma SaysFirst(later: seq<Event>, events: seq<Event>, stored: Event, e: Event, more: seq<Event>)
    requires Says(later, events + [stored], more) && Said(stored) == Said(e)
    ensures Says(later, events, [e] + more)
  {
    forall i | 0 <= i < |[e] + more|
      ensures Said(later[|events| + i]) == Said(([e] + more)[i])
    {
      if i > 0 {
        assert Said(later[|events + [stored]| + (i - 1)]) == Said(more[i - 1]);
      }
    }
  }

  lemma StoredSaysSame(h: Hash, before: seq<Event>, e: Event, stored: Event)
    requires Stored(h, before, e, stored)
    ensures Said(stored) == Said(e)
  {
    var c, d := stored.content, e.content;
    assert c.(metadata := map[]).(metadata := Said(e).metadata) == d.(metadata := map[]).(metadata := Said(e).metadata);
  }

  ghost predicate SameHeader(t: TraceValue, t': TraceValue) {
    t'.sessionId == t.sessionId && t'.schemaVersion == t.schemaVersion && t'.createdAt == t.createdAt
  }

  /** One step hands the trace what its action records, and nothing else. */
  lemma TraceStep(h: Hash, s: State, a: Action) returns (stored: Event)
    requires Enabled(s, a) && s.trace.declared.None?
    ensures var t, t' := s.trace, Next(h, s, a).trace;
            if a == Finalises(Seal) then t' == t.(declared := Some(FinalHash(h, t)))
            else if HandedOver(a).None? then t' == t
            else t' == t.(events := t.events + [stored]) && Stored(h, t.events, HandedOver(a).value, stored)
  {
    hide Chained, Stored, FinalHash, WorkerAfter, CountsAfter, WorkerEnabled, FinaliserAfter, ServerAfter, IsSeal;
    stored := Disconnect();
    if HandedOver(a).Some? {
      stored := Chained(h, s.trace.events, HandedOver(a).value);
      ChainedIsStored(h, s.trace.events, HandedOver(a).value);
    }
  }

  /** Until the seal nothing recorded is lost, changed or reordered, and nothing else appears: the
      trace says what it said, and then what the actions recorded. */
  lemma {:induction false} RecordingsConserved(h: Hash, s: State, actions: seq<Action>)
    requires Invariant(h, s) && CanRun(h, s, actions) && s.trace.declared.None?
    ensures var t := Run(h, s, actions).trace;
            Says(t.events, s.trace.events, Recordings(actions)) && SameHeader(s.trace, t)
    decreases actions
  {
    SaysNothing(s.trace.events);
    if actions != [] {
      var a, next, rest := actions[0], Next(h, s, actions[0]), actions[1..];
      var stored := TraceStep(h, s, a);
      StepKeepsInvariant(h, s, a);
      hide Invariant, Enabled, Next, Stored, Says, Said, HandedOver;
      if a == Finalises(Seal) {
        SealedStays(h, next, rest);
      } else {
        RecordingsConserved(h, next, rest);
        if HandedOver(a).Some? {
          StoredSaysSame(h, s.trace.events, HandedOver(a).value, stored);
          SaysFirst(Run(h, next, rest).trace.events, s.trace.events, stored, HandedOver(a).value, Recordings(rest));
        }
      }
    }
  }

  lemma SaysNothing(events: seq<Event>)
    ensures Says(events, events, [])
  {
  }

  // ---- the fields under the writers' condition --------------------------------------------------

  /** The server's own counting, one method for each block that holds the condition. */
  class WriterGate {
    var state: ServerState
    var stopping: bool
    var claimsClosed: bool
    var writers: int
    var responses: int

    ghost function Value(): Server
      reads this
    {
      Server(state, stopping, claimsClosed, writers, responses)
    }

    constructor ()
      ensures Value() == Server(Running, false, false, 0, 0)
    {
      state, stopping, claimsClosed, writers, responses := Running, false, false, 0, 0;
    }

    /** `_begin_write`. */
    method BeginWrite() returns (admitted: bool)
      modifies this
      ensures Value() == CountsAfter(old(Value()), Begin)
      ensures admitted <==> old(state) == Running && !old(claimsClosed)
      ensures writers == old(writers) + (if admitted then 1 else 0)
      ensures responses == old(responses) + (if admitted then 1 else 0)
      ensures forall w :: WorkerAfter(old(Value()), w, Begin).pc == if admitted then Dispatching else Refused
    {
      if state != Running || claimsClosed {
        return false;
      }
      writers := writers + 1;
      responses := responses + 1;
      return true;
    }

    /** `_end_write`. */
    method EndWrite(sent: bool)
      modifies this
      ensures Value() == CountsAfter(old(Value()), End(sent))
      ensures writers == old(writers) - 1 && responses == old(responses) - 1
    {
      writers := writers - 1;
      responses := responses - 1;
    }

    /** The first half of `_send_refusal`. */
    method ClaimRefusalFrame() returns (claimed: bool)
      modifies this
      ensures Value() == CountsAfter(old(Value()), ClaimRefusal)
      ensures claimed <==> !old(claimsClosed)
      ensures responses == old(responses) + (if claimed then 1 else 0)
      ensures forall w :: WorkerAfter(old(Value()), w, ClaimRefusal).pc == if claimed then Refusing else Polling
    {
      if claimsClosed {
        return false;
      }
      responses := responses + 1;
      return true;
    }

    /** The second half of `_send_refusal`. */
    method EndRefusalFrame()
      modifies this
      ensures Value() == CountsAfter(old(Value()), EndRefusal)
      ensures writers == old(writers) && responses == old(responses) - 1
    {
      responses := responses - 1;
    }

    /** The first block of `drain`. */
    method StartDraining()
      modifies this
      ensures forall s: State :: s.server == old(Value()) ==> Value() == ServerAfter(s, BeginDrain)
      ensures state == Draining && stopping
    {
      state, stopping := Draining, true;
    }

    /** Where the window for claims closes. */
    method CloseClaims()
      modifies this
      ensures forall s: State :: s.server == old(Value()) ==> Value() == ServerAfter(s, WritersWaited)
      ensures claimsClosed
    {
      claimsClosed := true;
    }

    /** The last block; `idle` says that no joined worker is alive. */
    method Conclude(idle: bool)
      modifies this
      ensures forall s: State :: s.server == old(Value()) && idle == JoinedGone(s) ==>
                Value() == ServerAfter(s, EndDrain)
      ensures state == if old(writers) == 0 && idle then Stopped else old(state)
    {
      if writers == 0 && idle {
        state := Stopped;
      }
    }
  }
}
