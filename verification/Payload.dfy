/** What is hashed, as text (`poe/event.py`, `poe/trace.py`, `poe/canonical.py`). The digest of an event
    or a trace is that of the canonical text of its payload, and since the text tells the payload,
    collisions only have to be excluded between texts.
  */
module Payload {
  import opened Strings
  import opened Trace
  import C = Canonical

  /** Some order of iteration; which one is immaterial. */
  ghost function KeyList(keys: set<string>): (list: seq<string>)
    ensures forall key :: key in list <==> key in keys
    ensures C.Distinct(list)
  {
    if keys == {} then []
    else
      var key :| key in keys;
      [key] + KeyList(keys - {key})
  }

  /** A JSON value as it is handed to `canonical_json`. */
  ghost function ToValue(j: Json): C.Value
    decreases j
  {
    match j
    case Null => C.Null
    case Flag(flag) => C.Flag(flag)
    case Num(num) => C.Integer(num)
    case Text(text) => C.Text(text)
    case Arr(items) => C.List(seq(|items|, i requires 0 <= i < |items| => ToValue(items[i])))
    case Obj(fields) =>
      var keys := KeyList(fields.Keys);
      C.Mapping(seq(|keys|, i requires 0 <= i < |keys| => C.Item(keys[i], ToValue(fields[keys[i]]))))
  }

  /** A normal value read as JSON again, its fields no longer in any order. */
  function Back(c: C.Normal): Json {
    match c
    case JNull => Null
    case JFlag(b) => Flag(b)
    case JInteger(n) => Num(n)
    case JNumber(_) => Null
    case JText(s) => Text(s)
    case JArray(elements) => Arr(seq(|elements|, i requires 0 <= i < |elements| => Back(elements[i])))
    case JObject(fields) =>
      var values := seq(|fields|, i requires 0 <= i < |fields| => Back(fields[i].value));
      Obj(ByName(C.Names(fields), values))
  }

  function ByName(names: seq<string>, values: seq<Json>): map<string, Json>
    requires |names| == |values|
  {
    map name | name in names :: C.Lookup(names, values, name, Null)
  }

  lemma {:induction false} TidyBack(c: C.Normal)
    requires C.NamesDistinct(c)
    ensures Back(C.Tidy(c)) == Back(c)
    decreases c
  {
    match c
    case JArray(elements) =>
      forall i | 0 <= i < |elements|
        ensures Back(C.Tidy(elements[i])) == Back(elements[i])
      {
        TidyBack(elements[i]);
      }
      assert Back(C.Tidy(c)).items == Back(c).items;
    case JObject(fields) =>
      var names := C.Names(fields);
      var values := seq(|fields|, i requires 0 <= i < |fields| => C.Tidy(fields[i].value));
      var backs := seq(|fields|, i requires 0 <= i < |fields| => Back(fields[i].value));
      forall i | 0 <= i < |fields|
        ensures Back(values[i]) == backs[i]
      {
        TidyBack(fields[i].value);
      }
      assert C.Tidy(c) == C.JObject(C.InOrder(names, values));
      InOrderBack(names, values, backs);
    case _ =>
  }

  lemma SameNames(names: seq<string>)
    ensures forall name :: name in Sorted(names) <==> name in names
  {
    SortedSorts(names);
    forall name
      ensures name in Sorted(names) <==> name in names
    {
      assert name in Sorted(names) <==> name in multiset(Sorted(names));
      assert name in names <==> name in multiset(names);
    }
  }

  function Backs(fields: seq<C.Field>): seq<Json> {
    seq(|fields|, i requires 0 <= i < |fields| => Back(fields[i].value))
  }

  lemma InOrderLookup(names: seq<string>, values: seq<C.Normal>, backs: seq<Json>, name: string)
    requires C.Distinct(names) && |names| == |values| == |backs| && name in names
    requires forall i :: 0 <= i < |names| ==> Back(values[i]) == backs[i]
    ensures C.Lookup(Sorted(names), Backs(C.InOrder(names, values)), name, Null) == C.Lookup(names, backs, name, Null)
  {
    var keys, tidied := Sorted(names), C.InOrder(names, values);
    C.SortedOnce(names);
    SameNames(names);
    hide Back, Sorted;
    var k :| 0 <= k < |names| && names[k] == name;
    var i :| 0 <= i < |keys| && keys[i] == name;
    C.LookupFinds(names, backs, k, Null);
    C.LookupFinds(names, values, k, C.JNull);
    C.LookupFinds(keys, Backs(tidied), i, Null);
  }

  lemma InOrderBack(names: seq<string>, values: seq<C.Normal>, backs: seq<Json>)
    requires C.Distinct(names) && |names| == |values| == |backs|
    requires forall i :: 0 <= i < |names| ==> Back(values[i]) == backs[i]
    ensures Back(C.JObject(C.InOrder(names, values))) == Obj(ByName(names, backs))
  {
    var keys, tidied := Sorted(names), C.InOrder(names, values);
    assert C.Names(tidied) == keys;
    assert Back(C.JObject(tidied)) == Obj(ByName(keys, Backs(tidied)));
    SameNames(names);
    hide Back, Backs, Sorted, C.Lookup;
    forall name | name in names
      ensures C.Lookup(keys, Backs(tidied), name, Null) == C.Lookup(names, backs, name, Null)
    {
      InOrderLookup(names, values, backs, name);
    }
  }

  /** If `v` is accepted, its normal form reads as `j`. */
  ghost predicate ReadsBack(pr: C.Printer, v: C.Value, j: Json, depth: nat) {
    var r := C.Normalise(pr, v, depth);
    r.Ok? ==> Back(r.value) == j
  }

  lemma ListBack(pr: C.Printer, elements: seq<C.Value>, items: seq<Json>, depth: nat)
    requires depth <= C.MAX_DEPTH && |elements| == |items|
    requires forall i :: 0 <= i < |items| ==> ReadsBack(pr, elements[i], items[i], depth + 1)
    ensures ReadsBack(pr, C.List(elements), Arr(items), depth)
  {
    hide C.Normalise;
    var results := C.Inside(pr, elements, depth);
    C.ListNormal(pr, elements, depth);
    C.CollectAll(results);
    if C.Collect(results).Ok? {
      var normal := C.Collect(results).value;
      forall i | 0 <= i < |items|
        ensures Back(normal[i]) == items[i]
      {
        assert results[i] == C.Normalise(pr, elements[i], depth + 1);
      }
      assert Back(C.JArray(normal)).items == items;
    }
  }

  lemma MappingBack(pr: C.Printer, items: seq<C.Item>, fields: map<string, Json>, keys: seq<string>, depth: nat)
    requires depth <= C.MAX_DEPTH && C.Distinct(keys) && C.ItemNames(items) == keys
    requires |items| == |keys| && forall key :: key in keys <==> key in fields
    requires forall i :: 0 <= i < |keys| ==> ReadsBack(pr, items[i].value, fields[keys[i]], depth + 1)
    ensures ReadsBack(pr, C.Mapping(items), Obj(fields), depth)
  {
    hide C.Normalise, Back;
    C.MappingNormal(pr, items, depth);
    var r := C.Normalise(pr, C.Mapping(items), depth);
    if r.Ok? {
      assert |r.value.fields| == |C.Names(r.value.fields)|;
      FieldsBack(r.value.fields, fields, keys);
    }
  }

  /** Normalising loses nothing. */
  lemma {:induction false} NormalBack(pr: C.Printer, j: Json, depth: nat)
    ensures ReadsBack(pr, ToValue(j), j, depth)
    decreases j
  {
    if depth <= C.MAX_DEPTH {
      match j
      case Arr(items) =>
        var elements := ToValue(j).elements;
        forall i | 0 <= i < |items|
          ensures ReadsBack(pr, elements[i], items[i], depth + 1)
        {
          NormalBack(pr, items[i], depth + 1);
        }
        ListBack(pr, elements, items, depth);
      case Obj(fields) =>
        var items, keys := ToValue(j).items, KeyList(fields.Keys);
        assert C.ItemNames(items) == keys;
        forall i | 0 <= i < |keys|
          ensures ReadsBack(pr, items[i].value, fields[keys[i]], depth + 1)
        {
          NormalBack(pr, fields[keys[i]], depth + 1);
        }
        MappingBack(pr, items, fields, keys, depth);
      case _ =>
    }
  }

  lemma FieldsBack(normal: seq<C.Field>, fields: map<string, Json>, keys: seq<string>)
    requires C.Distinct(keys) && C.Names(normal) == keys && forall key :: key in keys <==> key in fields
    requires forall i :: 0 <= i < |keys| ==> Back(normal[i].value) == fields[keys[i]]
    ensures Back(C.JObject(normal)) == Obj(fields)
  {
    var backs := seq(|normal|, i requires 0 <= i < |normal| => Back(normal[i].value));
    forall key | key in keys
      ensures C.Lookup(keys, backs, key, Null) == fields[key]
    {
      var i :| 0 <= i < |keys| && keys[i] == key;
      C.LookupFinds(keys, backs, i, Null);
    }
    assert ByName(keys, backs) == fields;
  }

  /** Two JSON values with one canonical text are the same. */
  lemma JsonTextDecides(pr: C.Printer, a: Json, b: Json)
    requires C.Unambiguous(pr)
    requires C.CanonicalText(pr, ToValue(a)).Ok? && C.CanonicalText(pr, ToValue(a)) == C.CanonicalText(pr, ToValue(b))
    ensures a == b
  {
    C.TextDecides(pr, ToValue(a), ToValue(b));
    NormalBack(pr, a, 0);
    NormalBack(pr, b, 0);
    C.NormalFits(pr, ToValue(a), 0);
    C.NormalFits(pr, ToValue(b), 0);
    var x, y := C.Normalise(pr, ToValue(a), 0).value, C.Normalise(pr, ToValue(b), 0).value;
    C.FittingIsDistinct(x, 0);
    C.FittingIsDistinct(y, 0);
    TidyBack(x);
    TidyBack(y);
  }

  // ---- the payloads --------------------------------------------------------------------------------

  function EventFields(sequence: nat, timestamp: int, c: Content, previousHash: Digest): map<string, Json> {
    map["sequence" := Num(sequence), "timestamp" := Num(timestamp), "event_type" := Text(c.eventType),
        "action" := Text(c.action), "resource" := Text(c.resource), "decision" := Text(c.decision),
        "risk" := Text(c.risk), "reason" := Text(c.reason), "metadata" := Obj(c.metadata),
        "previous_hash" := Text(previousHash)]
  }

  function TraceFields(schemaVersion: string, sessionId: string, eventCount: nat, genesisHash: Digest,
                       finalEventHash: Digest): map<string, Json> {
    map["schema_version" := Text(schemaVersion), "session_id" := Text(sessionId),
        "event_count" := Num(eventCount), "genesis_hash" := Text(genesisHash),
        "final_event_hash" := Text(finalEventHash)]
  }

  /** `hashed_payload`, and the dictionary of `compute_final_hash`. */
  function PayloadOf(x: PreImage): Json {
    match x
    case EventPreImage(sequence, timestamp, content, previousHash) =>
      Obj(EventFields(sequence, timestamp, content, previousHash))
    case TracePreImage(schemaVersion, sessionId, eventCount, genesisHash, finalEventHash) =>
      Obj(TraceFields(schemaVersion, sessionId, eventCount, genesisHash, finalEventHash))
  }

  lemma EventFieldsTell(x: PreImage)
    requires x.EventPreImage?
    ensures var m := PayloadOf(x).fields;
            && "sequence" in m && m["sequence"] == Num(x.sequence) && m["timestamp"] == Num(x.timestamp)
            && m["metadata"] == Obj(x.content.metadata) && m["previous_hash"] == Text(x.previousHash)
  {
  }

  lemma ContentFieldsTell(x: PreImage)
    requires x.EventPreImage?
    ensures var m, c := PayloadOf(x).fields, x.content;
            && m["event_type"] == Text(c.eventType) && m["action"] == Text(c.action)
            && m["resource"] == Text(c.resource) && m["decision"] == Text(c.decision)
            && m["risk"] == Text(c.risk) && m["reason"] == Text(c.reason)
  {
  }

  lemma TraceFieldsTell(x: PreImage)
    requires x.TracePreImage?
    ensures var m := PayloadOf(x).fields;
            && "sequence" !in m
            && m["schema_version"] == Text(x.schemaVersion) && m["session_id"] == Text(x.sessionId)
            && m["event_count"] == Num(x.eventCount) && m["genesis_hash"] == Text(x.genesisHash)
            && m["final_event_hash"] == Text(x.finalEventHash)
  {
  }

  /** What is hashed for a stored event: exactly its ten fields but the hash itself. */
  lemma EventIsHashed(e: Event)
    ensures PayloadOf(PreImageOf(e)) == Obj(map[
              "sequence" := Num(e.sequence), "timestamp" := Num(e.timestamp),
              "event_type" := Text(e.content.eventType), "action" := Text(e.content.action),
              "resource" := Text(e.content.resource), "decision" := Text(e.content.decision),
              "risk" := Text(e.content.risk), "reason" := Text(e.content.reason),
              "metadata" := Obj(e.content.metadata), "previous_hash" := Text(e.previousHash)])
  {
  }

  /** What is hashed for a trace: its schema, session, length, anchor and head. */
  lemma TraceIsHashed(t: TraceValue)
    ensures PayloadOf(FinalPreImage(t)) == Obj(map[
              "schema_version" := Text(t.schemaVersion), "session_id" := Text(t.sessionId),
              "event_count" := Num(|t.events|), "genesis_hash" := Text(GENESIS_HASH),
              "final_event_hash" := Text(if t.events == [] then GENESIS_HASH
                                         else t.events[|t.events| - 1].eventHash)])
  {
  }

  /** No two payloads are the same value, whichever kind they are of. */
  lemma PayloadDecides(x: PreImage, y: PreImage)
    requires PayloadOf(x) == PayloadOf(y)
    ensures x == y
  {
    assert PayloadOf(x).Obj? && PayloadOf(y).Obj?;
    hide PayloadOf;
    if x.EventPreImage? {
      EventFieldsTell(x);
      ContentFieldsTell(x);
    } else {
      TraceFieldsTell(x);
    }
    if y.EventPreImage? {
      EventFieldsTell(y);
      ContentFieldsTell(y);
    } else {
      TraceFieldsTell(y);
    }
  }

  /** `canonical_json` of the payload; an event whose metadata is refused never comes into being. */
  ghost function PayloadText(pr: C.Printer, x: PreImage): Result<string, C.Error> {
    C.CanonicalText(pr, ToValue(PayloadOf(x)))
  }

  /** What is hashed determines what was to be hashed. */
  lemma PayloadTextDecides(pr: C.Printer, x: PreImage, y: PreImage)
    requires C.Unambiguous(pr) && PayloadText(pr, x).Ok? && PayloadText(pr, x) == PayloadText(pr, y)
    ensures x == y
  {
    hide PayloadOf;
    JsonTextDecides(pr, PayloadOf(x), PayloadOf(y));
    PayloadDecides(x, y);
  }

  // ---- tamper evidence over the text -----------------------------------------------------------------

  /** The digest of a payload is the digest of its text. */
  ghost function TextHash(pr: C.Printer, digest: string -> Digest): Hash {
    x => if PayloadText(pr, x).Ok? then digest(PayloadText(pr, x).value) else digest("")
  }

  ghost predicate Accepted(pr: C.Printer, xs: set<PreImage>) {
    forall x :: x in xs ==> PayloadText(pr, x).Ok?
  }

  ghost function TextsOf(pr: C.Printer, xs: set<PreImage>): set<string>
    requires Accepted(pr, xs)
  {
    set x | x in xs :: PayloadText(pr, x).value
  }

  ghost predicate NoCollision(digest: string -> Digest, texts: set<string>) {
    forall s, t :: s in texts && t in texts && digest(s) == digest(t) ==> s == t
  }

  /** A digest that keeps the texts apart keeps the payloads apart. */
  lemma TextsKeepApart(pr: C.Printer, digest: string -> Digest, xs: set<PreImage>)
    requires C.Unambiguous(pr) && Accepted(pr, xs) && NoCollision(digest, TextsOf(pr, xs))
    ensures CollisionFree(TextHash(pr, digest), xs)
  {
    hide PayloadText;
    forall x, y | x in xs && y in xs && TextHash(pr, digest)(x) == TextHash(pr, digest)(y)
      ensures x == y
    {
      assert PayloadText(pr, x).value in TextsOf(pr, xs) && PayloadText(pr, y).value in TextsOf(pr, xs);
      PayloadTextDecides(pr, x, y);
    }
  }

  ghost predicate Flat(j: Json) {
    j.Obj? && forall key :: key in j.fields ==> j.fields[key].Text? || j.fields[key].Num?
  }

  lemma SummaryFlat(x: PreImage)
    requires x.TracePreImage?
    ensures Flat(PayloadOf(x))
  {
  }

  lemma LeafAccepted(pr: C.Printer, j: Json)
    requires j.Text? || j.Num?
    ensures C.Normalise(pr, ToValue(j), 1).Ok?
  {
  }

  lemma FlatAccepted(pr: C.Printer, j: Json)
    requires Flat(j)
    ensures C.CanonicalText(pr, ToValue(j)).Ok?
  {
    hide C.Normalise, C.Print;
    var items, keys := ToValue(j).items, KeyList(j.fields.Keys);
    assert ToValue(j) == C.Mapping(items) && C.ItemNames(items) == keys;
    forall i | 0 <= i < |items|
      ensures C.Normalise(pr, items[i].value, 1).Ok?
    {
      assert items[i].value == ToValue(j.fields[keys[i]]);
      LeafAccepted(pr, j.fields[keys[i]]);
    }
    C.MappingNormal(pr, items, 0);
  }

  /** The text hashed for a trace; its payload is flat, and always accepted. */
  ghost function SummaryText(pr: C.Printer, t: TraceValue): (text: string)
    ensures PayloadText(pr, FinalPreImage(t)) == Ok(text)
  {
    SummaryFlat(FinalPreImage(t));
    FlatAccepted(pr, PayloadOf(FinalPreImage(t)));
    PayloadText(pr, FinalPreImage(t)).value
  }

  lemma SummariesApart(pr: C.Printer, digest: string -> Digest, a: TraceValue, b: TraceValue)
    requires C.Unambiguous(pr) && NoCollision(digest, {SummaryText(pr, a), SummaryText(pr, b)})
    ensures CollisionFree(TextHash(pr, digest), {FinalPreImage(a), FinalPreImage(b)})
  {
    hide PayloadText;
    var xs := {FinalPreImage(a), FinalPreImage(b)};
    assert TextsOf(pr, xs) == {SummaryText(pr, a), SummaryText(pr, b)};
    TextsKeepApart(pr, digest, xs);
  }

  lemma TextHashIsHex(pr: C.Printer, digest: string -> Digest)
    requires forall text :: IsHexDigest(digest(text))
    ensures HexValued(TextHash(pr, digest))
  {
    hide IsHexDigest, PayloadText;
    forall x
      ensures IsHexDigest(TextHash(pr, digest)(x))
    {
      var text := if PayloadText(pr, x).Ok? then PayloadText(pr, x).value else "";
      assert TextHash(pr, digest)(x) == digest(text);
    }
  }

  /** Tamper evidence, down to the text: two traces that verify and publish the same hash have the same
      session, schema and events, if the digest does not collide on the texts they hash. */
  lemma TamperEvidentByText(pr: C.Printer, digest: string -> Digest, a: TraceValue, b: TraceValue)
    requires C.Unambiguous(pr) && forall text :: IsHexDigest(digest(text))
    requires Signals(TextHash(pr, digest), a) == [] && Signals(TextHash(pr, digest), b) == []
    requires a.declared.Some? && a.declared == b.declared
    requires Accepted(pr, PreImages(a.events) + PreImages(b.events))
    requires NoCollision(digest, TextsOf(pr, PreImages(a.events) + PreImages(b.events)))
    requires NoCollision(digest, {SummaryText(pr, a), SummaryText(pr, b)})
    ensures a.(createdAt := 0) == b.(createdAt := 0)
  {
    hide *;
    TextHashIsHex(pr, digest);
    TextsKeepApart(pr, digest, PreImages(a.events) + PreImages(b.events));
    SummariesApart(pr, digest, a, b);
    TamperEvident(TextHash(pr, digest), a, b);
  }
}
