/** The hash-chained execution trace and its verifier (`poe/trace.py`, `poe/verifier.py`,
    `poe/event.py`).

    The digest is an arbitrary function of its pre-image. Where a result needs that no collision
    occurs, it says so as a hypothesis about the finitely many pre-images involved, never about all
    of them: a 64-digit digest cannot be injective everywhere.
  */
module Trace {
  import opened Strings

  type Digest = string

  const GENESIS_HASH: Digest :=
    "0000000000000000000000000000000000000000000000000000000000000000"
  const CLOCK_REGRESSION_KEY := "clock_regression"

  datatype Json =
    | Null | Flag(flag: bool) | Num(num: int) | Text(text: string)
    | Arr(items: seq<Json>) | Obj(fields: map<string, Json>)

  /** What an event says, apart from its place in the chain. */
  datatype Content = Content(eventType: string, action: string, resource: string, decision: string,
                             risk: string, reason: string, metadata: map<string, Json>)

  datatype Event = Event(sequence: nat, timestamp: int, content: Content,
                         previousHash: Digest, eventHash: Digest)

  /** Everything that is ever hashed: an event without its own hash, or the summary of a trace. */
  datatype PreImage =
    | EventPreImage(sequence: nat, timestamp: int, content: Content, previousHash: Digest)
    | TracePreImage(schemaVersion: string, sessionId: string, eventCount: nat,
                    genesisHash: Digest, finalEventHash: Digest)

  type Hash = PreImage -> Digest

  predicate IsHexDigest(d: Digest) {
    |d| == 64 && forall i :: 0 <= i < 64 ==> '0' <= d[i] <= '9' || 'a' <= d[i] <= 'f' || 'A' <= d[i] <= 'F'
  }

  ghost predicate HexValued(h: Hash) {
    forall x :: IsHexDigest(h(x))
  }

  ghost predicate CollisionFree(h: Hash, xs: set<PreImage>) {
    forall x, y :: x in xs && y in xs && h(x) == h(y) ==> x == y
  }

  /** The state of a trace. */
  datatype TraceValue = TraceValue(sessionId: string, schemaVersion: string, createdAt: int,
                                   events: seq<Event>, declared: Option<Digest>)

  // ---- the chain --------------------------------------------------------------------------------

  function PreImageOf(e: Event): PreImage {
    EventPreImage(e.sequence, e.timestamp, e.content, e.previousHash)
  }

  function WithHash(h: Hash, e: Event): Event {
    e.(eventHash := h(PreImageOf(e)))
  }

  function HeadHash(events: seq<Event>): Digest {
    if events == [] then GENESIS_HASH else events[|events| - 1].eventHash
  }

  function FinalPreImage(t: TraceValue): PreImage {
    TracePreImage(t.schemaVersion, t.sessionId, |t.events|, GENESIS_HASH, HeadHash(t.events))
  }

  function FinalHash(h: Hash, t: TraceValue): Digest {
    h(FinalPreImage(t))
  }

  function Evidence(raw: int, previous: int): Json {
    Obj(map["raw_timestamp" := Num(raw), "previous_timestamp" := Num(previous),
            "delta_seconds" := Num(previous - raw)])
  }

  /** The event as stored: linked, its clock clamped, and any caller-supplied clock evidence
      replaced by what the trace itself observed. */
  function Chained(h: Hash, events: seq<Event>, e: Event): Event {
    var clean := e.content.metadata - {CLOCK_REGRESSION_KEY};
    if events != [] && e.timestamp < events[|events| - 1].timestamp then
      var previous := events[|events| - 1].timestamp;
      var noted := clean[CLOCK_REGRESSION_KEY := Evidence(e.timestamp, previous)];
      WithHash(h, Event(|events|, previous, e.content.(metadata := noted), HeadHash(events), ""))
    else
      WithHash(h, Event(|events|, e.timestamp, e.content.(metadata := clean), HeadHash(events), ""))
  }

  /** The trace built by appending `inputs` one after the other. */
  function Built(h: Hash, inputs: seq<Event>): (events: seq<Event>)
    ensures |events| == |inputs|
  {
    if inputs == [] then []
    else
      var before := Built(h, inputs[..|inputs| - 1]);
      before + [Chained(h, before, inputs[|inputs| - 1])]
  }

  // ---- verification -----------------------------------------------------------------------------

  datatype Signal =
    | NonContiguousSequence(index: nat, sequence: nat)
    | InvalidGenesisLink
    | BrokenPreviousHash(index: nat)
    | InvalidEventHash(index: nat)
    | EventHashMismatch(index: nat)
    | TimestampRegression(index: nat)
    | InvalidFinalTraceHash

  /** What the chain expects event `i` to point at. */
  function ExpectedPrevious(events: seq<Event>, i: nat): Digest
    requires i <= |events|
  {
    if i == 0 then GENESIS_HASH else events[i - 1].eventHash
  }

  function SequenceSignals(events: seq<Event>, i: nat): seq<Signal>
    requires i < |events|
  {
    if events[i].sequence != i then [NonContiguousSequence(i, events[i].sequence)] else []
  }

  function LinkSignals(events: seq<Event>, i: nat): seq<Signal>
    requires i < |events|
  {
    if events[i].previousHash == ExpectedPrevious(events, i) then []
    else if i == 0 then [InvalidGenesisLink] else [BrokenPreviousHash(i)]
  }

  function HashSignals(h: Hash, events: seq<Event>, i: nat): seq<Signal>
    requires i < |events|
  {
    if !IsHexDigest(events[i].eventHash) then [InvalidEventHash(i)]
    else if events[i].eventHash != h(PreImageOf(events[i])) then [EventHashMismatch(i)] else []
  }

  function ClockSignals(events: seq<Event>, i: nat): seq<Signal>
    requires i < |events|
  {
    if i > 0 && events[i].timestamp < events[i - 1].timestamp then [TimestampRegression(i)] else []
  }

  /** The signals raised by event `i`. */
  function EventSignals(h: Hash, events: seq<Event>, i: nat): seq<Signal>
    requires i < |events|
  {
    SequenceSignals(events, i) + LinkSignals(events, i) + HashSignals(h, events, i) + ClockSignals(events, i)
  }

  /** The signals of every event, event by event. */
  function Reports(h: Hash, events: seq<Event>): (reports: seq<seq<Signal>>)
    ensures |reports| == |events|
    ensures forall i :: 0 <= i < |events| ==> reports[i] == EventSignals(h, events, i)
  {
    seq(|events|, i requires 0 <= i < |events| => EventSignals(h, events, i))
  }

  function FinalSignals(h: Hash, t: TraceValue): seq<Signal> {
    if t.declared.Some? && t.declared.value != FinalHash(h, t) then [InvalidFinalTraceHash] else []
  }

  function Signals(h: Hash, t: TraceValue): seq<Signal> {
    Concat(Reports(h, t.events)) + FinalSignals(h, t)
  }

  ghost predicate LinkedAt(h: Hash, events: seq<Event>, i: nat)
    requires i < |events|
  {
    events[i].sequence == i && events[i].previousHash == ExpectedPrevious(events, i) &&
    events[i].eventHash == h(PreImageOf(events[i]))
  }

  ghost predicate OrderedAt(events: seq<Event>, i: nat)
    requires i < |events|
  {
    i > 0 ==> events[i - 1].timestamp <= events[i].timestamp
  }

  /** Links, sequence numbers and hashes in order up to `n`, timestamps aside. */
  ghost predicate Linked(h: Hash, events: seq<Event>, n: nat)
    requires n <= |events|
  {
    forall i :: 0 <= i < n ==> LinkedAt(h, events, i)
  }

  ghost predicate Ordered(events: seq<Event>) {
    forall i :: 0 <= i < |events| ==> OrderedAt(events, i)
  }

  lemma SilentEvent(h: Hash, events: seq<Event>, i: nat)
    requires HexValued(h) && i < |events|
    ensures EventSignals(h, events, i) == [] <==> LinkedAt(h, events, i) && OrderedAt(events, i)
  {
  }

  /** A trace verifies exactly when its chain is linked and ordered and a declared final hash is the
      one its content has. */
  lemma VerifiesExactly(h: Hash, t: TraceValue)
    requires HexValued(h)
    ensures Signals(h, t) == [] <==>
              Linked(h, t.events, |t.events|) && Ordered(t.events) &&
              (t.declared.Some? ==> t.declared.value == FinalHash(h, t))
  {
    var reports := Reports(h, t.events);
    ConcatEmpty(reports);
    forall i | 0 <= i < |t.events|
      ensures reports[i] == [] <==> LinkedAt(h, t.events, i) && OrderedAt(t.events, i)
    {
      SilentEvent(h, t.events, i);
    }
  }

  lemma SealSignals(h: Hash, t: TraceValue, chain: seq<Signal>)
    requires Concat(Reports(h, t.events)) == chain
    ensures Signals(h, t) == chain + (if t.declared.Some? && t.declared.value != FinalHash(h, t)
                                      then [InvalidFinalTraceHash] else [])
  {
  }

  /** What each signal reports. */
  ghost predicate Warranted(h: Hash, t: TraceValue, signal: Signal) {
    var events := t.events;
    match signal
    case NonContiguousSequence(i, sequence) => i < |events| && events[i].sequence == sequence && sequence != i
    case InvalidGenesisLink => events != [] && events[0].previousHash != GENESIS_HASH
    case BrokenPreviousHash(i) => 0 < i < |events| && events[i].previousHash != events[i - 1].eventHash
    case InvalidEventHash(i) => i < |events| && !IsHexDigest(events[i].eventHash)
    case EventHashMismatch(i) =>
      i < |events| && IsHexDigest(events[i].eventHash) &&
      events[i].eventHash
        != h(EventPreImage(events[i].sequence, events[i].timestamp, events[i].content, events[i].previousHash))
    case TimestampRegression(i) => 0 < i < |events| && events[i].timestamp < events[i - 1].timestamp
    case InvalidFinalTraceHash =>
      var head := if events == [] then GENESIS_HASH else events[|events| - 1].eventHash;
      t.declared.Some? &&
      t.declared.value != h(TracePreImage(t.schemaVersion, t.sessionId, |events|, GENESIS_HASH, head))
  }

  /** The event a signal is about. */
  function Subject(signal: Signal): nat {
    match signal
    case NonContiguousSequence(i, _) => i
    case BrokenPreviousHash(i) => i
    case InvalidEventHash(i) => i
    case EventHashMismatch(i) => i
    case TimestampRegression(i) => i
    case _ => 0
  }

  lemma EventSignalsMean(h: Hash, t: TraceValue, i: nat, signal: Signal)
    requires i < |t.events|
    ensures signal in EventSignals(h, t.events, i)
            <==> signal != InvalidFinalTraceHash && Subject(signal) == i && Warranted(h, t, signal)
  {
  }

  /** Exactly the warranted signals are raised. */
  lemma SignalsMean(h: Hash, t: TraceValue, signal: Signal)
    ensures signal in Signals(h, t) <==> Warranted(h, t, signal)
  {
    var reports := Reports(h, t.events);
    ConcatHolds(reports, signal);
    forall i | 0 <= i < |t.events|
      ensures signal in reports[i]
              <==> signal != InvalidFinalTraceHash && Subject(signal) == i && Warranted(h, t, signal)
    {
      EventSignalsMean(h, t, i, signal);
    }
    if Warranted(h, t, signal) && signal != InvalidFinalTraceHash {
      assert signal in reports[Subject(signal)];
    }
  }

  // ---- appending --------------------------------------------------------------------------------

  /** What is stored for an event appended after `before`: the event as given, but for its place in the
      chain, its clock and the clock evidence in its metadata. */
  ghost predicate Stored(h: Hash, before: seq<Event>, e: Event, stored: Event) {
    var last := |before| - 1;
    var fell := before != [] && e.timestamp < before[last].timestamp;
    && stored.sequence == |before|
    && stored.previousHash == (if before == [] then GENESIS_HASH else before[last].eventHash)
    && stored.eventHash == h(EventPreImage(stored.sequence, stored.timestamp, stored.content, stored.previousHash))
    && stored.timestamp == (if fell then before[last].timestamp else e.timestamp)
    && stored.content.(metadata := map[]) == e.content.(metadata := map[])
    && stored.content.metadata - {CLOCK_REGRESSION_KEY} == e.content.metadata - {CLOCK_REGRESSION_KEY}
    && (CLOCK_REGRESSION_KEY in stored.content.metadata <==> fell)
    && (fell ==> stored.content.metadata[CLOCK_REGRESSION_KEY]
                 == Obj(map["raw_timestamp" := Num(e.timestamp), "previous_timestamp" := Num(before[last].timestamp),
                            "delta_seconds" := Num(before[last].timestamp - e.timestamp)]))
  }

  lemma ChainedIsStored(h: Hash, events: seq<Event>, e: Event)
    ensures Stored(h, events, e, Chained(h, events, e))
  {
    ChainedClock(h, events, e);
  }

  /** Every event of a built trace says what was appended there. */
  lemma {:induction false} BuiltStores(h: Hash, inputs: seq<Event>, i: nat)
    requires i < |inputs|
    ensures Stored(h, Built(h, inputs)[..i], inputs[i], Built(h, inputs)[i])
    decreases |inputs|
  {
    var last := |inputs| - 1;
    var before := Built(h, inputs[..last]);
    assert Built(h, inputs) == before + [Chained(h, before, inputs[last])];
    hide Stored, Chained, Built;
    if i < last {
      BuiltStores(h, inputs[..last], i);
      assert Built(h, inputs)[..i] == before[..i];
    } else {
      assert Built(h, inputs)[..i] == before;
      ChainedIsStored(h, before, inputs[last]);
    }
  }

  lemma AppendKeepsChain(h: Hash, events: seq<Event>, e: Event)
    requires Linked(h, events, |events|) && Ordered(events)
    ensures var after := events + [Chained(h, events, e)];
            Linked(h, after, |after|) && Ordered(after)
  {
    var after := events + [Chained(h, events, e)];
    forall i | 0 <= i < |after| ensures LinkedAt(h, after, i) && OrderedAt(after, i) {
      if i < |events| {
        assert LinkedAt(h, events, i) && OrderedAt(events, i);
      }
    }
  }

  /** Whatever is appended, in whatever order the clock reads, the trace verifies; sealing it keeps
      it so. */
  lemma {:induction false} BuiltVerifies(h: Hash, inputs: seq<Event>, session: string, schema: string, at: int)
    requires HexValued(h)
    ensures var t := TraceValue(session, schema, at, Built(h, inputs), None);
            Signals(h, t) == [] && Signals(h, t.(declared := Some(FinalHash(h, t)))) == []
  {
    BuiltLinked(h, inputs);
    var t := TraceValue(session, schema, at, Built(h, inputs), None);
    VerifiesExactly(h, t);
    VerifiesExactly(h, t.(declared := Some(FinalHash(h, t))));
    assert FinalHash(h, t.(declared := Some(FinalHash(h, t)))) == FinalHash(h, t);
  }

  lemma {:induction false} BuiltLinked(h: Hash, inputs: seq<Event>)
    ensures Linked(h, Built(h, inputs), |inputs|) && Ordered(Built(h, inputs))
  {
    if inputs != [] {
      var before := inputs[..|inputs| - 1];
      BuiltLinked(h, before);
      AppendKeepsChain(h, Built(h, before), inputs[|inputs| - 1]);
    }
  }

  // ---- the clock --------------------------------------------------------------------------------

  /** The largest of the first `n` clock readings. */
  function RunningMax(inputs: seq<Event>, n: nat): int
    requires 0 < n <= |inputs|
  {
    if n == 1 then inputs[0].timestamp
    else
      var before := RunningMax(inputs, n - 1);
      if inputs[n - 1].timestamp < before then before else inputs[n - 1].timestamp
  }

  ghost predicate FellBack(inputs: seq<Event>, i: nat)
    requires i < |inputs|
  {
    i > 0 && inputs[i].timestamp < RunningMax(inputs, i)
  }

  /** The clock reading behind a stored event. */
  function RawReading(e: Event): int {
    if CLOCK_REGRESSION_KEY in e.content.metadata then
      match e.content.metadata[CLOCK_REGRESSION_KEY]
      case Obj(fields) =>
        if "raw_timestamp" in fields && fields["raw_timestamp"].Num? then fields["raw_timestamp"].num
        else e.timestamp
      case _ => e.timestamp
    else e.timestamp
  }

  lemma {:induction false} RunningMaxPrefix(inputs: seq<Event>, m: nat, n: nat)
    requires 0 < n <= m <= |inputs|
    ensures RunningMax(inputs[..m], n) == RunningMax(inputs, n)
  {
    if n > 1 {
      RunningMaxPrefix(inputs, m, n - 1);
    }
  }

  /** No clock reading is lost. Stored timestamps are the running maximum of the readings; evidence
      is attached exactly to the readings that fell below it, whatever the caller put under that
      key; every reading can be recovered; and nothing else of the metadata changes. */
  lemma {:induction false} ClockConserved(h: Hash, inputs: seq<Event>, i: nat)
    requires i < |inputs|
    ensures var stored := Built(h, inputs)[i];
            && stored.timestamp == RunningMax(inputs, i + 1)
            && RawReading(stored) == inputs[i].timestamp
            && (CLOCK_REGRESSION_KEY in stored.content.metadata <==> FellBack(inputs, i))
            && (FellBack(inputs, i) ==>
                  stored.content.metadata[CLOCK_REGRESSION_KEY]
                  == Evidence(inputs[i].timestamp, RunningMax(inputs, i)))
            && stored.content.metadata - {CLOCK_REGRESSION_KEY}
               == inputs[i].content.metadata - {CLOCK_REGRESSION_KEY}
            && stored.content.(metadata := map[]) == inputs[i].content.(metadata := map[])
    decreases |inputs|
  {
    var last := |inputs| - 1;
    var before := inputs[..last];
    assert Built(h, inputs) == Built(h, before) + [Chained(h, Built(h, before), inputs[last])];
    hide Chained, RawReading, Evidence;
    if i < last {
      ClockConserved(h, before, i);
      RunningMaxPrefix(inputs, last, i + 1);
      if i > 0 {
        RunningMaxPrefix(inputs, last, i);
      }
    } else {
      if last > 0 {
        ClockConserved(h, before, last - 1);
        RunningMaxPrefix(inputs, last, last);
      }
      ChainedClock(h, Built(h, before), inputs[last]);
    }
  }

  lemma ChainedClock(h: Hash, events: seq<Event>, e: Event)
    ensures var stored := Chained(h, events, e);
            var fell := events != [] && e.timestamp < events[|events| - 1].timestamp;
            && stored.timestamp == (if fell then events[|events| - 1].timestamp else e.timestamp)
            && RawReading(stored) == e.timestamp
            && (CLOCK_REGRESSION_KEY in stored.content.metadata <==> fell)
            && (fell ==> stored.content.metadata[CLOCK_REGRESSION_KEY]
                         == Evidence(e.timestamp, events[|events| - 1].timestamp))
            && stored.content.metadata - {CLOCK_REGRESSION_KEY} == e.content.metadata - {CLOCK_REGRESSION_KEY}
            && stored.content.(metadata := map[]) == e.content.(metadata := map[])
  {
  }

  function EvidenceOf(e: Event): Option<map<string, Json>> {
    var metadata := e.content.metadata;
    if CLOCK_REGRESSION_KEY in metadata && metadata[CLOCK_REGRESSION_KEY].Obj?
    then Some(metadata[CLOCK_REGRESSION_KEY].fields) else None
  }

  /** `clock_regressions`, for events `0 .. n`. */
  function Regressions(events: seq<Event>, n: nat): seq<map<string, Json>>
    requires n <= |events|
  {
    if n == 0 then []
    else
      var rest := Regressions(events, n - 1);
      match EvidenceOf(events[n - 1])
      case Some(fields) => rest + [map["sequence" := Num(events[n - 1].sequence)] + fields]
      case None => rest
  }

  function Entry(n: nat, raw: int, previous: int): map<string, Json> {
    map["sequence" := Num(n), "raw_timestamp" := Num(raw),
        "previous_timestamp" := Num(previous), "delta_seconds" := Num(previous - raw)]
  }

  /** The backward steps of the clock, read off the inputs alone. */
  function BackwardSteps(inputs: seq<Event>, n: nat): seq<map<string, Json>>
    requires n <= |inputs|
  {
    if n == 0 then []
    else
      var rest := BackwardSteps(inputs, n - 1);
      if n > 1 && inputs[n - 1].timestamp < RunningMax(inputs, n - 1) then
        rest + [Entry(n - 1, inputs[n - 1].timestamp, RunningMax(inputs, n - 1))]
      else rest
  }

  lemma EvidenceEntry(n: nat, raw: int, previous: int)
    ensures map["sequence" := Num(n)] + Evidence(raw, previous).fields == Entry(n, raw, previous)
  {
  }

  /** Event `i` of `stored` carries what the clock did at step `i`. */
  ghost predicate Noted(stored: seq<Event>, inputs: seq<Event>, i: nat)
    requires i < |stored| == |inputs|
  {
    stored[i].sequence == i &&
    EvidenceOf(stored[i]) ==
      if FellBack(inputs, i) then Some(Evidence(inputs[i].timestamp, RunningMax(inputs, i)).fields) else None
  }

  lemma {:induction false} NotedReported(stored: seq<Event>, inputs: seq<Event>, n: nat)
    requires n <= |stored| == |inputs| && forall i :: 0 <= i < n ==> Noted(stored, inputs, i)
    ensures Regressions(stored, n) == BackwardSteps(inputs, n)
  {
    if n > 0 {
      NotedReported(stored, inputs, n - 1);
      assert Noted(stored, inputs, n - 1);
      if FellBack(inputs, n - 1) {
        EvidenceEntry(n - 1, inputs[n - 1].timestamp, RunningMax(inputs, n - 1));
      }
    }
  }

  /** The report lists exactly the backward steps of the clock, in order. */
  lemma RegressionsExact(h: Hash, inputs: seq<Event>)
    ensures Regressions(Built(h, inputs), |inputs|) == BackwardSteps(inputs, |inputs|)
  {
    forall i | 0 <= i < |inputs| ensures Noted(Built(h, inputs), inputs, i) {
      BuiltLinked(h, inputs);
      assert LinkedAt(h, Built(h, inputs), i);
      ClockConserved(h, inputs, i);
    }
    NotedReported(Built(h, inputs), inputs, |inputs|);
  }

  // ---- exact signals for tampering --------------------------------------------------------------

  lemma EditedEvent(h: Hash, events: seq<Event>, k: nat, edited: Content, i: nat)
    requires HexValued(h) && Linked(h, events, |events|) && Ordered(events)
    requires k < |events| && edited != events[k].content && i < |events|
    requires CollisionFree(h, {PreImageOf(events[k]), PreImageOf(events[k].(content := edited))})
    ensures EventSignals(h, events[k := events[k].(content := edited)], i)
            == if i == k then [EventHashMismatch(k)] else []
  {
    var forged := events[k := events[k].(content := edited)];
    assert LinkedAt(h, events, i) && OrderedAt(events, i);
    assert ExpectedPrevious(forged, i) == ExpectedPrevious(events, i);
    assert SequenceSignals(forged, i) == [] && LinkSignals(forged, i) == [] && ClockSignals(forged, i) == [];
    if i == k {
      assert PreImageOf(forged[k]) != PreImageOf(events[k]);
      assert HashSignals(h, forged, k) == [EventHashMismatch(k)];
    } else {
      assert HashSignals(h, forged, i) == [];
    }
  }

  lemma EditedReports(h: Hash, events: seq<Event>, k: nat, edited: Content)
    requires HexValued(h) && Linked(h, events, |events|) && Ordered(events)
    requires k < |events| && edited != events[k].content
    requires CollisionFree(h, {PreImageOf(events[k]), PreImageOf(events[k].(content := edited))})
    ensures Concat(Reports(h, events[k := events[k].(content := edited)])) == [EventHashMismatch(k)]
  {
    var reports := Reports(h, events[k := events[k].(content := edited)]);
    var expected := seq(|events|, i requires 0 <= i => if i == k then [EventHashMismatch(k)] else []);
    assert |reports| == |expected|;
    forall i | 0 <= i < |reports| ensures reports[i] == expected[i] {
      EditedEvent(h, events, k, edited, i);
    }
    assert reports == expected;
    ConcatOnly(expected, k);
  }

  /** Editing what one event says, and nothing else, raises exactly one signal, at that event. */
  lemma EditDetected(h: Hash, t: TraceValue, k: nat, edited: Content)
    requires HexValued(h) && Signals(h, t) == [] && k < |t.events| && edited != t.events[k].content
    requires CollisionFree(h, {PreImageOf(t.events[k]), PreImageOf(t.events[k].(content := edited))})
    ensures var forged := t.(events := t.events[k := t.events[k].(content := edited)]);
            Signals(h, forged) == [EventHashMismatch(k)]
  {
    hide PreImageOf, HexValued, Linked, Ordered, Reports, Concat, Signals, CollisionFree;
    VerifiesExactly(h, t);
    var forged := t.(events := t.events[k := t.events[k].(content := edited)]);
    EditedReports(h, t.events, k, edited);
    SealSignals(h, forged, [EventHashMismatch(k)]);
    EditKeepsSummary(t, k, edited);
  }

  /** The summary that is hashed for a trace does not look at what its events say. */
  lemma EditKeepsSummary(t: TraceValue, k: nat, edited: Content)
    requires k < |t.events|
    ensures FinalPreImage(t.(events := t.events[k := t.events[k].(content := edited)])) == FinalPreImage(t)
  {
  }

  function Without1(events: seq<Event>, k: nat): seq<Event>
    requires k < |events|
  {
    events[..k] + events[k + 1..]
  }

  /** The link signal raised by the event that took the place of a deleted one. */
  function GapSignal(events: seq<Event>, k: nat): seq<Signal>
    requires k < |events|
  {
    if k > 0 then [BrokenPreviousHash(k)]
    else if events[0].eventHash != GENESIS_HASH then [InvalidGenesisLink]
    else []
  }

  /** What event `i` reports after event `k` was deleted: every event from `k` on has moved up by
      one, and the first of them points across the gap. */
  function ShiftedReport(events: seq<Event>, k: nat, i: nat): seq<Signal>
    requires k < |events|
  {
    if i < k then [] else [NonContiguousSequence(i, i + 1)] + (if i == k then GapSignal(events, k) else [])
  }

  function ShiftedReports(events: seq<Event>, k: nat): seq<seq<Signal>>
    requires k < |events|
  {
    seq(|events| - 1, i requires 0 <= i => ShiftedReport(events, k, i))
  }

  lemma ShiftedEvent(h: Hash, events: seq<Event>, k: nat, i: nat)
    requires HexValued(h) && Linked(h, events, |events|) && Ordered(events)
    requires k < |events| && i + 1 < |events|
    requires k > 0 ==> CollisionFree(h, {PreImageOf(events[k - 1]), PreImageOf(events[k])})
    ensures EventSignals(h, Without1(events, k), i) == ShiftedReport(events, k, i)
  {
    var gapped := Without1(events, k);
    assert LinkedAt(h, events, i) && OrderedAt(events, i);
    assert LinkedAt(h, events, i + 1) && OrderedAt(events, i + 1);
    if i < k {
      assert gapped[i] == events[i] && ExpectedPrevious(gapped, i) == ExpectedPrevious(events, i);
    } else {
      assert gapped[i] == events[i + 1];
      if i > k {
        assert gapped[i - 1] == events[i];
      } else if k > 0 {
        assert gapped[k - 1] == events[k - 1];
        assert LinkedAt(h, events, k - 1);
        assert PreImageOf(events[k]).sequence != PreImageOf(events[k - 1]).sequence;
      }
      assert SequenceSignals(gapped, i) == [NonContiguousSequence(i, i + 1)];
      assert HashSignals(h, gapped, i) == [] && ClockSignals(gapped, i) == [];
      assert LinkSignals(gapped, i) == if i == k then GapSignal(events, k) else [];
    }
  }

  lemma DeletedReports(h: Hash, events: seq<Event>, k: nat)
    requires HexValued(h) && Linked(h, events, |events|) && Ordered(events) && k < |events|
    requires k > 0 ==> CollisionFree(h, {PreImageOf(events[k - 1]), PreImageOf(events[k])})
    ensures Reports(h, Without1(events, k)) == ShiftedReports(events, k)
  {
    var reports, shifted := Reports(h, Without1(events, k)), ShiftedReports(events, k);
    assert |reports| == |shifted|;
    forall i | 0 <= i < |reports| ensures reports[i] == shifted[i] {
      ShiftedEvent(h, events, k, i);
    }
  }

  /** Deleting event `k` of a verified trace. Every later event is out of sequence; the link breaks
      once, at the gap; and a seal notices the missing event. Cutting off the last event of an
      unsealed trace raises nothing at all, which is what sealing is for. */
  lemma DeletionDetected(h: Hash, t: TraceValue, k: nat)
    requires HexValued(h) && Signals(h, t) == [] && k < |t.events|
    requires k > 0 ==> CollisionFree(h, {PreImageOf(t.events[k - 1]), PreImageOf(t.events[k])})
    requires CollisionFree(h, {FinalPreImage(t), FinalPreImage(t.(events := Without1(t.events, k)))})
    ensures Signals(h, t.(events := Without1(t.events, k))) ==
              Concat(ShiftedReports(t.events, k)) + (if t.declared.Some? then [InvalidFinalTraceHash] else [])
    ensures k + 1 == |t.events| ==> Concat(ShiftedReports(t.events, k)) == []
  {
    var gapped := t.(events := Without1(t.events, k));
    assert FinalPreImage(t) != FinalPreImage(gapped);
    NothingShiftedAtEnd(t.events, k);
    hide PreImageOf, FinalPreImage, HexValued, Linked, Ordered, Reports, Concat, Signals, Without1, ShiftedReports;
    VerifiesExactly(h, t);
    DeletedReports(h, t.events, k);
    SealSignals(h, gapped, Concat(ShiftedReports(t.events, k)));
    assert t.declared.Some? ==> t.declared.value != FinalHash(h, gapped);
  }

  lemma NothingShiftedAtEnd(events: seq<Event>, k: nat)
    requires k < |events|
    ensures k + 1 == |events| ==> Concat(ShiftedReports(events, k)) == []
  {
    ConcatEmpty(ShiftedReports(events, k));
  }

  // ---- relinking --------------------------------------------------------------------------------

  /** One event put back into the chain at position `i`. */
  function Relink1(h: Hash, events: seq<Event>, i: nat): seq<Event>
    requires i < |events|
  {
    events[i := WithHash(h, events[i].(sequence := i, previousHash := ExpectedPrevious(events, i), eventHash := ""))]
  }

  function Relinked(h: Hash, events: seq<Event>, start: nat): (result: seq<Event>)
    ensures |result| == |events|
    decreases |events| - start
  {
    if start >= |events| then events else Relinked(h, Relink1(h, events, start), start + 1)
  }

  ghost predicate SameContent(a: seq<Event>, b: seq<Event>) {
    |a| == |b| && forall i :: 0 <= i < |a| ==> a[i].content == b[i].content && a[i].timestamp == b[i].timestamp
  }

  /** Relinking after an intact prefix restores every link and hash, and changes neither what the
      events say nor when they were recorded. */
  lemma {:induction false} RelinkRestores(h: Hash, events: seq<Event>, start: nat)
    requires start <= |events| && Linked(h, events, start)
    ensures var result := Relinked(h, events, start);
            Linked(h, result, |result|) && SameContent(events, result) && result[..start] == events[..start]
    decreases |events| - start
  {
    if start < |events| {
      var next := Relink1(h, events, start);
      forall i | 0 <= i < start + 1 ensures LinkedAt(h, next, i) {
        if i < start {
          assert LinkedAt(h, events, i);
        }
      }
      RelinkRestores(h, next, start + 1);
      var result := Relinked(h, events, start);
      assert result[..start] == result[..start + 1][..start] == next[..start + 1][..start] == events[..start];
    }
  }

  /** On an intact chain relinking changes nothing. */
  lemma {:induction false} RelinkIdentity(h: Hash, events: seq<Event>, start: nat)
    requires Linked(h, events, |events|)
    ensures Relinked(h, events, start) == events
    decreases |events| - start
  {
    if start < |events| {
      assert LinkedAt(h, events, start);
      assert Relink1(h, events, start) == events;
      RelinkIdentity(h, events, start + 1);
    }
  }

  lemma LinkedPrefix(h: Hash, events: seq<Event>, n: nat)
    requires n <= |events| && Linked(h, events, n)
    ensures Linked(h, events[..n], n)
  {
    forall i | 0 <= i < n ensures LinkedAt(h, events[..n], i) {
      assert LinkedAt(h, events, i);
    }
  }

  ghost function PreImages(events: seq<Event>): set<PreImage> {
    set e | e in events :: PreImageOf(e)
  }

  lemma LastEventsEqual(h: Hash, a: seq<Event>, b: seq<Event>)
    requires |a| == |b| > 0 && Linked(h, a, |a|) && Linked(h, b, |b|) && HeadHash(a) == HeadHash(b)
    requires CollisionFree(h, PreImages(a) + PreImages(b))
    ensures a[|a| - 1] == b[|a| - 1]
  {
    var n := |a| - 1;
    assert a[n] in a && b[n] in b;
    assert PreImageOf(a[n]) in PreImages(a) && PreImageOf(b[n]) in PreImages(b);
    assert LinkedAt(h, a, n) && LinkedAt(h, b, n);
  }

  /** Backward induction from the head: linked chains of one length with one head are equal. */
  lemma {:induction false} HeadDecidesChain(h: Hash, a: seq<Event>, b: seq<Event>)
    requires |a| == |b| && Linked(h, a, |a|) && Linked(h, b, |b|) && HeadHash(a) == HeadHash(b)
    requires CollisionFree(h, PreImages(a) + PreImages(b))
    ensures a == b
  {
    if a != [] {
      var n := |a| - 1;
      LastEventsEqual(h, a, b);
      assert LinkedAt(h, a, n) && LinkedAt(h, b, n);
      var a', b' := a[..n], b[..n];
      assert PreImages(a') <= PreImages(a) && PreImages(b') <= PreImages(b);
      assert HeadHash(a') == ExpectedPrevious(a, n) && HeadHash(b') == ExpectedPrevious(b, n);
      LinkedPrefix(h, a, n);
      LinkedPrefix(h, b, n);
      HeadDecidesChain(h, a', b');
      assert a == a' + [a[n]] && b == b' + [b[n]];
    }
  }

  lemma RewriteUnchanged(h: Hash, events: seq<Event>, edited: seq<Event>)
    requires Linked(h, events, |events|) && SameContent(events, edited)
    ensures Relinked(h, edited, 0) == events
  {
    RelinkRestores(h, edited, 0);
    var result := Relinked(h, edited, 0);
    forall i | 0 <= i < |events|
      ensures events[i].content == result[i].content && events[i].timestamp == result[i].timestamp
    {
      assert edited[i].content == result[i].content;
    }
    SameContentSameChain(h, events, result, |events|);
    assert events[..|events|] == events && result[..|events|] == result;
  }

  lemma RewriteChanged(h: Hash, events: seq<Event>, edited: seq<Event>)
    requires Linked(h, events, |events|) && |edited| == |events| && !SameContent(events, edited)
    requires CollisionFree(h, PreImages(events) + PreImages(Relinked(h, edited, 0)))
    ensures HeadHash(Relinked(h, edited, 0)) != HeadHash(events)
  {
    RelinkRestores(h, edited, 0);
    var result := Relinked(h, edited, 0);
    if HeadHash(result) == HeadHash(events) {
      HeadDecidesChain(h, events, result);
    }
  }

  lemma RewriteLinks(h: Hash, edited: seq<Event>)
    requires HexValued(h) && Ordered(edited)
    ensures Concat(Reports(h, Relinked(h, edited, 0))) == []
  {
    RelinkRestores(h, edited, 0);
    var result := Relinked(h, edited, 0);
    forall i | 0 <= i < |result| ensures OrderedAt(result, i) {
      assert OrderedAt(edited, i);
    }
    VerifiesExactly(h, TraceValue("", "", 0, result, None));
  }

  /** A sealed trace rewritten and relinked in full is consistent again in every link, and is still
      given away by the published hash, exactly when something it says was changed. */
  lemma RewriteDetected(h: Hash, t: TraceValue, edited: seq<Event>)
    requires HexValued(h) && Signals(h, t) == [] && t.declared.Some?
    requires |edited| == |t.events| && Ordered(edited)
    requires var forged := t.(events := Relinked(h, edited, 0));
             CollisionFree(h, PreImages(t.events) + PreImages(forged.events)) &&
             CollisionFree(h, {FinalPreImage(t), FinalPreImage(forged)})
    ensures var forged := t.(events := Relinked(h, edited, 0));
            Signals(h, forged) == if SameContent(t.events, edited) then [] else [InvalidFinalTraceHash]
  {
    hide PreImages, HexValued, Linked, Ordered, Reports, Concat, Signals, SameContent, Relinked, HeadHash;
    VerifiesExactly(h, t);
    RewriteLinks(h, edited);
    var forged := t.(events := Relinked(h, edited, 0));
    SealSignals(h, forged, []);
    if SameContent(t.events, edited) {
      RewriteUnchanged(h, t.events, edited);
      assert forged == t;
    } else {
      RewriteChanged(h, t.events, edited);
      assert FinalPreImage(forged) != FinalPreImage(t);
    }
  }

  lemma {:induction false} SameContentSameChain(h: Hash, a: seq<Event>, b: seq<Event>, n: nat)
    requires n <= |a| == |b| && Linked(h, a, |a|) && Linked(h, b, |b|) && SameContent(a, b)
    ensures a[..n] == b[..n]
  {
    if n > 0 {
      SameContentSameChain(h, a, b, n - 1);
      assert n > 1 ==> a[n - 2] == a[..n - 1][n - 2] && b[n - 2] == b[..n - 1][n - 2];
      assert LinkedAt(h, a, n - 1) && LinkedAt(h, b, n - 1);
      assert a[n - 1] == b[n - 1];
      assert a[..n] == a[..n - 1] + [a[n - 1]] && b[..n] == b[..n - 1] + [b[n - 1]];
    }
  }

  /** Tamper evidence. Two traces that verify and publish the same hash are the same session, under
      the same schema, with the same events in the same order. Only the creation time is outside the
      hash. */
  lemma TamperEvident(h: Hash, a: TraceValue, b: TraceValue)
    requires HexValued(h) && Signals(h, a) == [] && Signals(h, b) == []
    requires a.declared.Some? && a.declared == b.declared
    requires CollisionFree(h, PreImages(a.events) + PreImages(b.events))
    requires CollisionFree(h, {FinalPreImage(a), FinalPreImage(b)})
    ensures a.(createdAt := 0) == b.(createdAt := 0)
  {
    VerifiesExactly(h, a);
    VerifiesExactly(h, b);
    assert FinalPreImage(a) == FinalPreImage(b);
    HeadDecidesChain(h, a.events, b.events);
  }

  // ---- the trace object -------------------------------------------------------------------------

  datatype TraceError = TraceSealed | RelinkOutOfRange

  /** `ExecutionTrace`. */
  class ExecutionTrace {
    const hash: Hash
    const sessionId: string
    const schemaVersion: string
    const createdAt: int
    var events: seq<Event>
    var declaredFinalHash: Option<Digest>

    function Value(): TraceValue
      reads this
    {
      TraceValue(sessionId, schemaVersion, createdAt, events, declaredFinalHash)
    }

    constructor (hash: Hash, sessionId: string, createdAt: int)
      ensures Value() == TraceValue(sessionId, "watcher-poe/1", createdAt, [], None)
      ensures this.hash == hash
    {
      this.hash, this.sessionId, this.createdAt := hash, sessionId, createdAt;
      schemaVersion, events, declaredFinalHash := "watcher-poe/1", [], None;
    }

    /** `append`: refused once sealed. */
    method Append(event: Event) returns (r: Result<Event, TraceError>)
      modifies this
      ensures old(declaredFinalHash).Some? ==> r == Err(TraceSealed) && Value() == old(Value())
      ensures old(declaredFinalHash).None? ==>
                r == Ok(Chained(hash, old(events), event)) &&
                Value() == old(Value()).(events := old(events) + [Chained(hash, old(events), event)])
      ensures old(declaredFinalHash).None? ==>
                r.Ok? && Stored(hash, old(events), event, r.value) && events == old(events) + [r.value]
    {
      if declaredFinalHash.Some? {
        return Err(TraceSealed);
      }
      var metadata := event.content.metadata - {CLOCK_REGRESSION_KEY};
      var timestamp := event.timestamp;
      if events != [] && timestamp < events[|events| - 1].timestamp {
        var previous := events[|events| - 1].timestamp;
        metadata := metadata[CLOCK_REGRESSION_KEY := Evidence(timestamp, previous)];
        timestamp := previous;
      }
      var content := event.content.(metadata := metadata);
      var chained := WithHash(hash, Event(|events|, timestamp, content, HeadHash(events), ""));
      ChainedIsStored(hash, events, event);
      assert chained == Chained(hash, events, event);
      hide Stored, Chained;
      events := events + [chained];
      return Ok(chained);
    }

    /** `seal`. */
    method Seal() returns (digest: Digest)
      modifies this
      ensures digest == FinalHash(hash, old(Value()))
      ensures Value() == old(Value()).(declared := Some(digest))
      ensures FinalSignals(hash, Value()) == []
    {
      digest := FinalHash(hash, Value());
      declaredFinalHash := Some(digest);
    }

    /** `relink`. */
    method Relink(start: int) returns (r: Result<(), TraceError>)
      modifies this
      ensures r.Ok? <==> 0 <= start <= |old(events)|
      ensures r.Ok? ==> Value() == old(Value()).(events := Relinked(hash, old(events), start))
      ensures r.Err? ==> Value() == old(Value())
    {
      if !(0 <= start <= |events|) {
        return Err(RelinkOutOfRange);
      }
      ghost var before := events;
      var index := start;
      while index < |events|
        invariant start <= index <= |events| == |before|
        invariant Relinked(hash, events, index) == Relinked(hash, before, start)
        invariant Value() == old(Value()).(events := events)
      {
        var previous := if index > 0 then events[index - 1].eventHash else GENESIS_HASH;
        var moved := events[index].(sequence := index, previousHash := previous, eventHash := "");
        events := events[index := WithHash(hash, moved)];
        index := index + 1;
      }
      return Ok(());
    }

    /** `clock_regressions`. */
    method ClockRegressions() returns (found: seq<map<string, Json>>)
      ensures found == Regressions(events, |events|)
    {
      found := [];
      for n := 0 to |events|
        invariant found == Regressions(events, n)
      {
        var evidence := EvidenceOf(events[n]);
        if evidence.Some? {
          found := found + [map["sequence" := Num(events[n].sequence)] + evidence.value];
        }
      }
    }
  }

  /** One turn of the verifier's loop. */
  method CheckEvent(h: Hash, events: seq<Event>, index: nat,
                    expectedPrevious: Digest, previousTimestamp: Option<int>)
    returns (raised: seq<Signal>)
    requires index < |events| && expectedPrevious == ExpectedPrevious(events, index)
    requires previousTimestamp == if index == 0 then None else Some(events[index - 1].timestamp)
    ensures raised == EventSignals(h, events, index)
  {
    var event := events[index];
    raised := [];
    if event.sequence != index {
      raised := raised + [NonContiguousSequence(index, event.sequence)];
    }
    assert raised == SequenceSignals(events, index);
    if event.previousHash != expectedPrevious {
      if index == 0 && event.previousHash != GENESIS_HASH {
        raised := raised + [InvalidGenesisLink];
      } else {
        raised := raised + [BrokenPreviousHash(index)];
      }
    }
    assert raised == SequenceSignals(events, index) + LinkSignals(events, index);
    if !IsHexDigest(event.eventHash) {
      raised := raised + [InvalidEventHash(index)];
    } else if event.eventHash != h(PreImageOf(event)) {
      raised := raised + [EventHashMismatch(index)];
    }
    assert raised == SequenceSignals(events, index) + LinkSignals(events, index) + HashSignals(h, events, index);
    if previousTimestamp.Some? && event.timestamp < previousTimestamp.value {
      raised := raised + [TimestampRegression(index)];
    }
  }

  /** `TraceVerifier.verify`. */
  method Verify(h: Hash, t: TraceValue) returns (signals: seq<Signal>)
    ensures signals == Signals(h, t)
  {
    hide SequenceSignals, LinkSignals, HashSignals, ClockSignals, EventSignals;
    signals := [];
    ghost var reports := Reports(h, t.events);
    var expectedPrevious := GENESIS_HASH;
    var previousTimestamp: Option<int> := None;
    for index := 0 to |t.events|
      invariant signals == Concat(reports[..index])
      invariant expectedPrevious == ExpectedPrevious(t.events, index)
      invariant previousTimestamp == if index == 0 then None else Some(t.events[index - 1].timestamp)
    {
      var raised := CheckEvent(h, t.events, index, expectedPrevious, previousTimestamp);
      signals := signals + raised;
      assert reports[..index + 1][..index] == reports[..index];
      expectedPrevious := t.events[index].eventHash;
      previousTimestamp := Some(t.events[index].timestamp);
    }
    assert reports[..|t.events|] == reports;
    var computed := FinalHash(h, t);
    if t.declared.Some? && t.declared.value != computed {
      signals := signals + [InvalidFinalTraceHash];
    }
  }
}
