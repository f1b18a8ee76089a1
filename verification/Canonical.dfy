/** Canonical serialisation, the pre-image of every digest (`poe/canonical.py`).

    Quoting a string and printing a number are arbitrary functions. Values whose conversion is a
    plain text (bytes, decimals, dates, paths, UUIDs) arrive as that text.
  */
module Canonical {
  import opened Strings

  /** A finite float is its bit pattern; that of 0.0 is 0, and -0.0 stands apart. */
  datatype Float = NegativeZero | Finite(bits: nat) | NonFinite

  datatype Item = Item(name: string, value: Value)

  /** What may be handed in. A mapping's keys are given as their string coercions, which may collide;
      mappings and sets have an order of iteration that carries no meaning. */
  datatype Value =
    | Null | Flag(b: bool) | Integer(n: int) | Number(f: Float) | Text(s: string) | Converted(s: string)
    | Wrapped(inner: Value) // an enum member or a dataclass: one level of its own
    | Mapping(items: seq<Item>) | Set(members: seq<Value>) | List(elements: seq<Value>)
    | Unsupported

  datatype Field = Field(name: string, value: Normal)

  /** The JSON-safe result; a dictionary keeps its insertion order. */
  datatype Normal =
    | JNull | JFlag(b: bool) | JInteger(n: int) | JNumber(bits: nat) | JText(s: string)
    | JArray(elements: seq<Normal>) | JObject(fields: seq<Field>)

  datatype Error = TooDeep | NotFinite | KeysCollide | NotSupported

  const MAX_DEPTH := 64

  /** `json.dumps` of the scalars. */
  datatype Printer = Printer(quote: string -> string, integer: int -> string, number: nat -> string)

  // ---- printing ---------------------------------------------------------------------------------

  function Join(parts: seq<string>): string {
    if parts == [] then "" else if |parts| == 1 then parts[0] else parts[0] + "," + Join(parts[1..])
  }

  function Names(fields: seq<Field>): seq<string> {
    seq(|fields|, i requires 0 <= i < |fields| => fields[i].name)
  }

  /** What is filed under a name. */
  function Lookup<T>(names: seq<string>, values: seq<T>, name: string, otherwise: T): T
    requires |names| == |values|
  {
    if names == [] then otherwise
    else if names[0] == name then values[0]
    else Lookup(names[1..], values[1..], name, otherwise)
  }

  /** The members of an object, by ascending key. */
  function Members(pr: Printer, names: seq<string>, texts: seq<string>): seq<string>
    requires |names| == |texts|
  {
    var keys := Sorted(names);
    seq(|keys|, i requires 0 <= i < |keys| => pr.quote(keys[i]) + ":" + Lookup(names, texts, keys[i], ""))
  }

  function Print(pr: Printer, c: Normal): string {
    match c
    case JNull => "null"
    case JFlag(b) => if b then "true" else "false"
    case JInteger(n) => pr.integer(n)
    case JNumber(bits) => pr.number(bits)
    case JText(s) => pr.quote(s)
    case JArray(elements) =>
      "[" + Join(seq(|elements|, i requires 0 <= i < |elements| => Print(pr, elements[i]))) + "]"
    case JObject(fields) =>
      var texts := seq(|fields|, i requires 0 <= i < |fields| => Print(pr, fields[i].value));
      "{" + Join(Members(pr, Names(fields), texts)) + "}"
  }

  function Texts(pr: Printer, elements: seq<Normal>): seq<string> {
    seq(|elements|, i requires 0 <= i < |elements| => Print(pr, elements[i]))
  }

  // ---- normalising ------------------------------------------------------------------------------

  /** The values, or the first error. */
  function Collect<T>(results: seq<Result<T, Error>>): Result<seq<T>, Error> {
    if results == [] then Ok([])
    else if results[0].Err? then Err(results[0].error)
    else
      var rest := Collect(results[1..]);
      if rest.Err? then rest else Ok([results[0].value] + rest.value)
  }

  /** `sorted` by canonical text. */
  function SortByText(pr: Printer, elements: seq<Normal>): seq<Normal> {
    if elements == [] then [] else InsertByText(pr, elements[0], SortByText(pr, elements[1..]))
  }

  function InsertByText(pr: Printer, c: Normal, sorted: seq<Normal>): seq<Normal> {
    if sorted == [] then [c]
    else if StringLess(Print(pr, sorted[0]), Print(pr, c)) then [sorted[0]] + InsertByText(pr, c, sorted[1..])
    else [c] + sorted
  }

  function Normalise(pr: Printer, v: Value, depth: nat): Result<Normal, Error>
    decreases v
  {
    if depth > MAX_DEPTH then Err(TooDeep)
    else
      match v
      case Null => Ok(JNull)
      case Flag(b) => Ok(JFlag(b))
      case Integer(n) => Ok(JInteger(n))
      case Number(NonFinite) => Err(NotFinite)
      case Number(NegativeZero) => Ok(JNumber(0))
      case Number(Finite(bits)) => Ok(JNumber(bits))
      case Text(s) => Ok(JText(s))
      case Converted(s) => Ok(JText(s))
      case Wrapped(inner) => Normalise(pr, inner, depth + 1)
      case Mapping(items) =>
        var results := seq(|items|, i requires 0 <= i < |items| =>
          if Taken(items, i) then Err(KeysCollide) else Normalise(pr, items[i].value, depth + 1));
        (match Collect(results)
         case Err(error) => Err(error)
         case Ok(values) => Ok(JObject(Zip(items, values))))
      case Set(members) =>
        var results := seq(|members|, i requires 0 <= i < |members| => Normalise(pr, members[i], depth + 1));
        (match Collect(results)
         case Err(error) => Err(error)
         case Ok(values) => Ok(JArray(SortByText(pr, values))))
      case List(elements) =>
        var results := seq(|elements|, i requires 0 <= i < |elements| => Normalise(pr, elements[i], depth + 1));
        (match Collect(results)
         case Err(error) => Err(error)
         case Ok(values) => Ok(JArray(values)))
      case Unsupported => Err(NotSupported)
  }

  /** An earlier item has the same name. */
  predicate Taken(items: seq<Item>, i: nat)
    requires i < |items|
  {
    exists j :: 0 <= j < i && items[j].name == items[i].name
  }

  function Zip(items: seq<Item>, values: seq<Normal>): seq<Field> {
    seq(|values|, i requires 0 <= i < |values| => Field(if i < |items| then items[i].name else "", values[i]))
  }

  /** `canonical_json`. */
  function CanonicalText(pr: Printer, v: Value): Result<string, Error> {
    match Normalise(pr, v, 0)
    case Err(error) => Err(error)
    case Ok(c) => Ok(Print(pr, c))
  }

  lemma {:induction false} CollectAll<T>(results: seq<Result<T, Error>>)
    ensures Collect(results).Ok? <==> forall i :: 0 <= i < |results| ==> results[i].Ok?
    ensures Collect(results).Ok? ==> |Collect(results).value| == |results|
    ensures Collect(results).Ok? ==> forall i :: 0 <= i < |results| ==> results[i] == Ok(Collect(results).value[i])
  {
    if results != [] {
      CollectAll(results[1..]);
      if results[0].Ok? && Collect(results[1..]).Ok? {
        var rest := Collect(results[1..]).value;
        forall i | 0 <= i < |results|
          ensures results[i] == Ok(([results[0].value] + rest)[i])
        {
          assert i > 0 ==> results[i] == results[1..][i - 1];
        }
      }
    }
  }

  /** The elements of a list or the members of a set, normalised one level down. */
  function Inside(pr: Printer, values: seq<Value>, depth: nat): seq<Result<Normal, Error>> {
    seq(|values|, i requires 0 <= i < |values| => Normalise(pr, values[i], depth + 1))
  }

  lemma ListNormal(pr: Printer, elements: seq<Value>, depth: nat)
    requires depth <= MAX_DEPTH
    ensures var r, all := Normalise(pr, List(elements), depth), Collect(Inside(pr, elements, depth));
            (r.Ok? <==> all.Ok?) && (r.Ok? ==> r.value == JArray(all.value))
  {
    assert Inside(pr, elements, depth)
        == seq(|elements|, i requires 0 <= i < |elements| => Normalise(pr, elements[i], depth + 1));
  }

  lemma SetNormal(pr: Printer, members: seq<Value>, depth: nat)
    requires depth <= MAX_DEPTH
    ensures var r, all := Normalise(pr, Set(members), depth), Collect(Inside(pr, members, depth));
            (r.Ok? <==> all.Ok?) && (r.Ok? ==> r.value == JArray(SortByText(pr, all.value)))
  {
    assert Inside(pr, members, depth)
        == seq(|members|, i requires 0 <= i < |members| => Normalise(pr, members[i], depth + 1));
  }

  ghost predicate Distinct(names: seq<string>) {
    forall i, j :: 0 <= i < j < |names| ==> names[i] != names[j]
  }

  function ItemNames(items: seq<Item>): seq<string> {
    seq(|items|, i requires 0 <= i < |items| => items[i].name)
  }

  /** The values of a mapping, normalised one level down unless the name is taken. */
  function InMapping(pr: Printer, items: seq<Item>, depth: nat): seq<Result<Normal, Error>> {
    seq(|items|, i requires 0 <= i < |items| =>
      if Taken(items, i) then Err(KeysCollide) else Normalise(pr, items[i].value, depth + 1))
  }

  /** A mapping is accepted exactly when no two names collide and every value is accepted. */
  lemma MappingNormal(pr: Printer, items: seq<Item>, depth: nat)
    requires depth <= MAX_DEPTH
    ensures var r := Normalise(pr, Mapping(items), depth);
            && (r.Ok? <==> (Distinct(ItemNames(items)) &&
                            forall i :: 0 <= i < |items| ==> Normalise(pr, items[i].value, depth + 1).Ok?))
            && (r.Ok? ==> r.value.JObject? && Names(r.value.fields) == ItemNames(items))
            && (r.Ok? ==> forall i :: 0 <= i < |items| ==>
                  Normalise(pr, items[i].value, depth + 1) == Ok(r.value.fields[i].value))
  {
    var results := InMapping(pr, items, depth);
    assert results == seq(|items|, i requires 0 <= i < |items| =>
      if Taken(items, i) then Err(KeysCollide) else Normalise(pr, items[i].value, depth + 1));
    CollectAll(results);
    if Distinct(ItemNames(items)) {
      forall i | 0 <= i < |items|
        ensures !Taken(items, i)
      {
        forall j | 0 <= j < i
          ensures items[j].name != items[i].name
        {
          assert ItemNames(items)[j] != ItemNames(items)[i];
        }
      }
    } else {
      var i, j :| 0 <= i < j < |items| && ItemNames(items)[i] == ItemNames(items)[j];
      assert Taken(items, j);
      assert results[j].Err?;
    }
    var r := Normalise(pr, Mapping(items), depth);
    assert r.Ok? <==> Collect(results).Ok?;
    assert forall i :: 0 <= i < |items| ==>
      results[i] == if Taken(items, i) then Err(KeysCollide) else Normalise(pr, items[i].value, depth + 1);
    if r.Ok? {
      assert r.value == JObject(Zip(items, Collect(results).value));
      assert Names(r.value.fields) == ItemNames(items);
    }
  }

  // ---- order carries no meaning -----------------------------------------------------------------

  ghost predicate IsPermutation(p: seq<nat>, n: nat) {
    |p| == n && (forall i :: 0 <= i < n ==> p[i] < n) && forall i, j :: 0 <= i < j < n ==> p[i] != p[j]
  }

  /** The same value, with mapping items and set members met in some other order, at any depth. */
  ghost predicate Shuffled(v: Value, w: Value)
    decreases v
  {
    match v
    case Wrapped(inner) => w.Wrapped? && Shuffled(inner, w.inner)
    case List(elements) =>
      w.List? && |w.elements| == |elements| &&
      forall i :: 0 <= i < |elements| ==> Shuffled(elements[i], w.elements[i])
    case Set(members) =>
      w.Set? && |w.members| == |members| &&
      exists p: seq<nat> :: IsPermutation(p, |members|) &&
        forall i :: 0 <= i < |members| ==> Shuffled(members[i], w.members[p[i]])
    case Mapping(items) =>
      w.Mapping? && |w.items| == |items| &&
      exists p: seq<nat> :: IsPermutation(p, |items|) &&
        forall i :: 0 <= i < |items| ==>
          items[i].name == w.items[p[i]].name && Shuffled(items[i].value, w.items[p[i]].value)
    case _ => v == w
  }

  /** `p` leads from each place in `a` to an equal element of `b`. */
  ghost predicate Leads<T>(p: seq<nat>, a: seq<T>, b: seq<T>) {
    IsPermutation(p, |a|) && |b| == |a| && forall i :: 0 <= i < |a| ==> a[i] == b[p[i]]
  }

  lemma RemoveOne<T>(b: seq<T>, k: nat)
    requires k < |b|
    ensures multiset(b) == multiset(b[..k] + b[k + 1..]) + multiset{b[k]}
  {
    assert b == b[..k] + [b[k]] + b[k + 1..];
  }

  /** Without the last element and the place it leads to, the rest still lead. */
  lemma LeadsWithoutLast<T>(p: seq<nat>, a: seq<T>, b: seq<T>) returns (q: seq<nat>)
    requires Leads(p, a, b) && a != []
    ensures var n := |a| - 1; Leads(q, a[..n], b[..p[n]] + b[p[n] + 1..])
  {
    var n := |a| - 1;
    var k := p[n];
    q := seq(n, i requires 0 <= i < n => if p[i] < k then p[i] else p[i] - 1);
    forall i | 0 <= i < n
      ensures p[i] != k
    {
      assert p[i] != p[n];
    }
    forall i, j | 0 <= i < j < n
      ensures q[i] != q[j]
    {
      assert p[i] != p[j];
    }
  }

  lemma {:induction false} LeadsKeepsElements<T>(p: seq<nat>, a: seq<T>, b: seq<T>)
    requires Leads(p, a, b)
    ensures multiset(a) == multiset(b)
    decreases |a|
  {
    if a != [] {
      var n := |a| - 1;
      var q := LeadsWithoutLast(p, a, b);
      LeadsKeepsElements(q, a[..n], b[..p[n]] + b[p[n] + 1..]);
      RemoveOne(b, p[n]);
      assert a == a[..n] + [a[n]];
    }
  }

  /** Every place is reached by a permutation. */
  lemma Reached(p: seq<nat>, n: nat, k: nat) returns (i: nat)
    requires IsPermutation(p, n) && k < n
    ensures i < n && p[i] == k
  {
    var all := seq(n, i requires 0 <= i < n => i as nat);
    var image := seq(n, i requires 0 <= i < n => p[i]);
    LeadsKeepsElements(p, image, all);
    assert all[k] in multiset(all);
    assert k in multiset(image);
    i :| 0 <= i < n && image[i] == k;
  }

  lemma {:induction false} DistinctByCount(names: seq<string>)
    ensures Distinct(names) <==> forall name :: name in names ==> multiset(names)[name] == 1
  {
    if names != [] {
      var front, last := names[..|names| - 1], names[|names| - 1];
      DistinctByCount(front);
      assert names == front + [last];
      if last in front {
        var i :| 0 <= i < |front| && front[i] == last;
        assert names[i] == names[|names| - 1];
        assert last in front && last in multiset(front);
        assert last in names && multiset(names)[last] == multiset(front)[last] + 1;
      } else {
        assert multiset(front)[last] == 0;
        assert Distinct(names) <==> Distinct(front);
        forall name | name in front
          ensures multiset(names)[name] == multiset(front)[name] && name in names
        {
        }
      }
    }
  }

  lemma SameElementsSameDistinct(a: seq<string>, b: seq<string>)
    requires multiset(a) == multiset(b)
    ensures Distinct(a) <==> Distinct(b)
  {
    DistinctByCount(a);
    DistinctByCount(b);
    forall name
      ensures name in a <==> name in b
    {
      assert name in a <==> name in multiset(a);
      assert name in b <==> name in multiset(b);
    }
  }

  lemma {:induction false} LookupFinds<T>(names: seq<string>, values: seq<T>, i: nat, otherwise: T)
    requires |names| == |values| && Distinct(names) && i < |names|
    ensures Lookup(names, values, names[i], otherwise) == values[i]
  {
    if i > 0 {
      assert names[0] != names[i];
      LookupFinds(names[1..], values[1..], i - 1, otherwise);
    }
  }

  /** An object prints the same whatever order its fields were inserted in. */
  lemma MembersSame(pr: Printer, names: seq<string>, texts: seq<string>,
                    names': seq<string>, texts': seq<string>, p: seq<nat>)
    requires |names| == |texts| && |names'| == |texts'| && Distinct(names)
    requires Leads(p, names, names') && Leads(p, texts, texts')
    ensures Members(pr, names, texts) == Members(pr, names', texts')
  {
    LeadsKeepsElements(p, names, names');
    SameElementsSameDistinct(names, names');
    SortedCanonical(names, names');
    var keys := Sorted(names);
    SortedSorts(names);
    forall k | 0 <= k < |keys|
      ensures Lookup(names, texts, keys[k], "") == Lookup(names', texts', keys[k], "")
    {
      assert keys[k] in multiset(keys);
      var i :| 0 <= i < |names| && names[i] == keys[k];
      LookupFinds(names, texts, i, "");
      LookupFinds(names', texts', p[i], "");
    }
  }

  lemma {:induction false} SortedTexts(pr: Printer, elements: seq<Normal>)
    ensures Texts(pr, SortByText(pr, elements)) == Sorted(Texts(pr, elements))
  {
    if elements != [] {
      SortedTexts(pr, elements[1..]);
      assert Texts(pr, elements)[1..] == Texts(pr, elements[1..]);
      InsertedTexts(pr, elements[0], SortByText(pr, elements[1..]));
    }
  }

  lemma {:induction false} InsertedTexts(pr: Printer, c: Normal, sorted: seq<Normal>)
    ensures Texts(pr, InsertByText(pr, c, sorted)) == Insert(Print(pr, c), Texts(pr, sorted))
  {
    hide Print, StringLess;
    if sorted != [] {
      assert Texts(pr, sorted)[1..] == Texts(pr, sorted[1..]);
      InsertedTexts(pr, c, sorted[1..]);
    }
  }

  lemma PrintArray(pr: Printer, elements: seq<Normal>)
    ensures Print(pr, JArray(elements)) == "[" + Join(Texts(pr, elements)) + "]"
  {
    assert Texts(pr, elements) == seq(|elements|, i requires 0 <= i < |elements| => Print(pr, elements[i]));
  }

  function FieldTexts(pr: Printer, fields: seq<Field>): seq<string> {
    seq(|fields|, i requires 0 <= i < |fields| => Print(pr, fields[i].value))
  }

  lemma PrintObject(pr: Printer, fields: seq<Field>)
    ensures Print(pr, JObject(fields)) == "{" + Join(Members(pr, Names(fields), FieldTexts(pr, fields))) + "}"
  {
    assert FieldTexts(pr, fields) == seq(|fields|, i requires 0 <= i < |fields| => Print(pr, fields[i].value));
  }

  /** Accepted or not alike, and if accepted with the same text. */
  ghost predicate SameText(pr: Printer, a: Result<Normal, Error>, b: Result<Normal, Error>) {
    (a.Ok? <==> b.Ok?) && (a.Ok? ==> Print(pr, a.value) == Print(pr, b.value))
  }

  /** One text for every insertion order of the mappings and every iteration order of the sets inside
      a value, at every nesting depth. */
  lemma {:induction false} OrderIsImmaterial(pr: Printer, v: Value, w: Value, depth: nat)
    requires Shuffled(v, w)
    ensures SameText(pr, Normalise(pr, v, depth), Normalise(pr, w, depth))
    decreases v
  {
    if depth <= MAX_DEPTH {
      match v
      case Wrapped(inner) => OrderIsImmaterial(pr, inner, w.inner, depth + 1);
      case List(elements) =>
        forall i | 0 <= i < |elements|
          ensures SameText(pr, Normalise(pr, elements[i], depth + 1), Normalise(pr, w.elements[i], depth + 1))
        {
          OrderIsImmaterial(pr, elements[i], w.elements[i], depth + 1);
        }
        ListsSame(pr, elements, w.elements, depth);
      case Set(members) =>
        var p: seq<nat> :| IsPermutation(p, |members|) &&
          forall i :: 0 <= i < |members| ==> Shuffled(members[i], w.members[p[i]]);
        forall i | 0 <= i < |members|
          ensures SameText(pr, Normalise(pr, members[i], depth + 1), Normalise(pr, w.members[p[i]], depth + 1))
        {
          OrderIsImmaterial(pr, members[i], w.members[p[i]], depth + 1);
        }
        SetsSame(pr, members, w.members, p, depth);
      case Mapping(items) =>
        var p: seq<nat> :| IsPermutation(p, |items|) &&
          forall i :: 0 <= i < |items| ==>
            items[i].name == w.items[p[i]].name && Shuffled(items[i].value, w.items[p[i]].value);
        forall i | 0 <= i < |items|
          ensures SameText(pr, Normalise(pr, items[i].value, depth + 1),
                           Normalise(pr, w.items[p[i]].value, depth + 1))
        {
          OrderIsImmaterial(pr, items[i].value, w.items[p[i]].value, depth + 1);
        }
        MappingsSame(pr, items, w.items, p, depth);
      case _ =>
    }
  }

  lemma ListsSame(pr: Printer, a: seq<Value>, b: seq<Value>, depth: nat)
    requires depth <= MAX_DEPTH && |a| == |b|
    requires forall i :: 0 <= i < |a| ==>
               SameText(pr, Normalise(pr, a[i], depth + 1), Normalise(pr, b[i], depth + 1))
    ensures SameText(pr, Normalise(pr, List(a), depth), Normalise(pr, List(b), depth))
  {
    ListNormal(pr, a, depth);
    ListNormal(pr, b, depth);
    var x, y := Inside(pr, a, depth), Inside(pr, b, depth);
    CollectAll(x);
    CollectAll(y);
    assert forall i :: 0 <= i < |a| ==>
      x[i] == Normalise(pr, a[i], depth + 1) && y[i] == Normalise(pr, b[i], depth + 1);
    if Collect(x).Ok? {
      PrintArray(pr, Collect(x).value);
      PrintArray(pr, Collect(y).value);
      assert Texts(pr, Collect(x).value) == Texts(pr, Collect(y).value);
    }
  }

  /** All of one family hold exactly when all of the other do. */
  lemma AllAlongPermutation(x: seq<bool>, y: seq<bool>, p: seq<nat>)
    requires Leads(p, x, y)
    ensures (forall i :: 0 <= i < |x| ==> x[i]) <==> (forall k :: 0 <= k < |y| ==> y[k])
  {
    if k :| 0 <= k < |y| && !y[k] {
      var i := Reached(p, |x|, k);
      assert !x[i];
    }
  }

  function Accepted(results: seq<Result<Normal, Error>>): seq<bool> {
    seq(|results|, i requires 0 <= i < |results| => results[i].Ok?)
  }

  lemma SetsSame(pr: Printer, a: seq<Value>, b: seq<Value>, p: seq<nat>, depth: nat)
    requires depth <= MAX_DEPTH && |a| == |b| && IsPermutation(p, |a|)
    requires forall i :: 0 <= i < |a| ==>
               SameText(pr, Normalise(pr, a[i], depth + 1), Normalise(pr, b[p[i]], depth + 1))
    ensures SameText(pr, Normalise(pr, Set(a), depth), Normalise(pr, Set(b), depth))
  {
    hide Normalise, Print, Sorted, SortByText;
    SetNormal(pr, a, depth);
    SetNormal(pr, b, depth);
    var x, y := Inside(pr, a, depth), Inside(pr, b, depth);
    CollectAll(x);
    CollectAll(y);
    assert Leads(p, Accepted(x), Accepted(y));
    AllAlongPermutation(Accepted(x), Accepted(y), p);
    assert Collect(x).Ok? <==> Collect(y).Ok? by {
      assert forall i :: 0 <= i < |a| ==> (x[i].Ok? <==> Accepted(x)[i]) && (y[i].Ok? <==> Accepted(y)[i]);
    }
    if Collect(x).Ok? {
      var u, v := Collect(x).value, Collect(y).value;
      assert Leads(p, Texts(pr, u), Texts(pr, v));
      LeadsKeepsElements(p, Texts(pr, u), Texts(pr, v));
      SortedTexts(pr, u);
      SortedTexts(pr, v);
      SortedCanonical(Texts(pr, u), Texts(pr, v));
      PrintArray(pr, SortByText(pr, u));
      PrintArray(pr, SortByText(pr, v));
    }
  }

  function AcceptedItems(pr: Printer, items: seq<Item>, depth: nat): seq<bool> {
    seq(|items|, i requires 0 <= i < |items| => Normalise(pr, items[i].value, depth + 1).Ok?)
  }

  lemma MappingsAcceptedAlike(pr: Printer, a: seq<Item>, b: seq<Item>, p: seq<nat>, depth: nat)
    requires depth <= MAX_DEPTH
    requires Leads(p, ItemNames(a), ItemNames(b))
    requires Leads(p, AcceptedItems(pr, a, depth), AcceptedItems(pr, b, depth))
    ensures Normalise(pr, Mapping(a), depth).Ok? <==> Normalise(pr, Mapping(b), depth).Ok?
  {
    MappingNormal(pr, a, depth);
    MappingNormal(pr, b, depth);
    LeadsKeepsElements(p, ItemNames(a), ItemNames(b));
    SameElementsSameDistinct(ItemNames(a), ItemNames(b));
    var x, y := AcceptedItems(pr, a, depth), AcceptedItems(pr, b, depth);
    AllAlongPermutation(x, y, p);
    hide Normalise, IsPermutation, Distinct;
    assert forall i :: 0 <= i < |a| ==> x[i] == Normalise(pr, a[i].value, depth + 1).Ok?;
    assert forall i :: 0 <= i < |b| ==> y[i] == Normalise(pr, b[i].value, depth + 1).Ok?;
  }

  lemma MappingsSame(pr: Printer, a: seq<Item>, b: seq<Item>, p: seq<nat>, depth: nat)
    requires depth <= MAX_DEPTH && |a| == |b| && IsPermutation(p, |a|)
    requires forall i :: 0 <= i < |a| ==> a[i].name == b[p[i]].name
    requires forall i :: 0 <= i < |a| ==>
               SameText(pr, Normalise(pr, a[i].value, depth + 1), Normalise(pr, b[p[i]].value, depth + 1))
    ensures SameText(pr, Normalise(pr, Mapping(a), depth), Normalise(pr, Mapping(b), depth))
  {
    hide Normalise, Print;
    assert Leads(p, ItemNames(a), ItemNames(b));
    assert Leads(p, AcceptedItems(pr, a, depth), AcceptedItems(pr, b, depth));
    MappingsAcceptedAlike(pr, a, b, p, depth);
    var x, y := Normalise(pr, Mapping(a), depth), Normalise(pr, Mapping(b), depth);
    MappingNormal(pr, a, depth);
    MappingNormal(pr, b, depth);
    if x.Ok? {
      var u, v := x.value.fields, y.value.fields;
      assert |u| == |Names(u)| && |v| == |Names(v)|;
      assert Leads(p, FieldTexts(pr, u), FieldTexts(pr, v));
      MembersSame(pr, Names(u), FieldTexts(pr, u), Names(v), FieldTexts(pr, v), p);
      PrintObject(pr, u);
      PrintObject(pr, v);
    }
  }

  /** In particular for the canonical text itself. */
  lemma CanonicalTextSame(pr: Printer, v: Value, w: Value)
    requires Shuffled(v, w)
    ensures (CanonicalText(pr, v).Ok? <==> CanonicalText(pr, w).Ok?)
    ensures CanonicalText(pr, v).Ok? ==> CanonicalText(pr, v) == CanonicalText(pr, w)
  {
    OrderIsImmaterial(pr, v, w, 0);
  }

  // ---- normalising again ------------------------------------------------------------------------

  /** The result as a value again. */
  function Again(c: Normal): Value {
    match c
    case JNull => Null
    case JFlag(b) => Flag(b)
    case JInteger(n) => Integer(n)
    case JNumber(bits) => Number(Finite(bits))
    case JText(s) => Text(s)
    case JArray(elements) => List(seq(|elements|, i requires 0 <= i < |elements| => Again(elements[i])))
    case JObject(fields) =>
      Mapping(seq(|fields|, i requires 0 <= i < |fields| => Item(fields[i].name, Again(fields[i].value))))
  }

  /** No names collide, and nothing is too deep when `c` itself sits at `depth`. */
  ghost predicate Fits(c: Normal, depth: nat)
    decreases c
  {
    depth <= MAX_DEPTH &&
    match c
    case JArray(elements) => forall i :: 0 <= i < |elements| ==> Fits(elements[i], depth + 1)
    case JObject(fields) =>
      Distinct(Names(fields)) && forall i :: 0 <= i < |fields| ==> Fits(fields[i].value, depth + 1)
    case _ => true
  }

  lemma {:induction false} FitsHigher(c: Normal, depth: nat, above: nat)
    requires Fits(c, depth) && above <= depth
    ensures Fits(c, above)
    decreases c
  {
    match c
    case JArray(elements) =>
      forall i | 0 <= i < |elements| ensures Fits(elements[i], above + 1) {
        FitsHigher(elements[i], depth + 1, above + 1);
      }
    case JObject(fields) =>
      forall i | 0 <= i < |fields| ensures Fits(fields[i].value, above + 1) {
        FitsHigher(fields[i].value, depth + 1, above + 1);
      }
    case _ =>
  }

  lemma {:induction false} InsertedMembers(pr: Printer, c: Normal, sorted: seq<Normal>)
    ensures forall x :: x in InsertByText(pr, c, sorted) ==> x == c || x in sorted
  {
    if sorted != [] {
      InsertedMembers(pr, c, sorted[1..]);
    }
  }

  lemma {:induction false} SortedMembers(pr: Printer, elements: seq<Normal>)
    ensures forall x :: x in SortByText(pr, elements) ==> x in elements
  {
    if elements != [] {
      SortedMembers(pr, elements[1..]);
      InsertedMembers(pr, elements[0], SortByText(pr, elements[1..]));
    }
  }

  lemma {:induction false} NormalFits(pr: Printer, v: Value, depth: nat)
    requires Normalise(pr, v, depth).Ok?
    ensures Fits(Normalise(pr, v, depth).value, depth)
    decreases v
  {
    match v
    case Wrapped(inner) =>
      NormalFits(pr, inner, depth + 1);
      FitsHigher(Normalise(pr, inner, depth + 1).value, depth + 1, depth);
    case List(elements) =>
      ListNormal(pr, elements, depth);
      InsideFits(pr, v, elements, depth);
      var values := Collect(Inside(pr, elements, depth)).value;
      forall i | 0 <= i < |values| ensures Fits(values[i], depth + 1) {
        assert values[i] in values;
      }
    case Set(members) =>
      SetNormal(pr, members, depth);
      InsideFits(pr, v, members, depth);
      var values := Collect(Inside(pr, members, depth)).value;
      SortedMembers(pr, values);
      var sorted := SortByText(pr, values);
      forall i | 0 <= i < |sorted| ensures Fits(sorted[i], depth + 1) {
        assert sorted[i] in sorted;
      }
    case Mapping(items) =>
      MappingNormal(pr, items, depth);
      var fields := Normalise(pr, v, depth).value.fields;
      assert |fields| == |Names(fields)|;
      forall i | 0 <= i < |items| ensures Fits(fields[i].value, depth + 1) {
        NormalFits(pr, items[i].value, depth + 1);
      }
    case _ =>
  }

  lemma InsideFits(pr: Printer, v: Value, values: seq<Value>, depth: nat)
    requires (v.List? && v.elements == values) || (v.Set? && v.members == values)
    requires Collect(Inside(pr, values, depth)).Ok?
    ensures forall c :: c in Collect(Inside(pr, values, depth)).value ==> Fits(c, depth + 1)
    decreases v, 0
  {
    CollectAll(Inside(pr, values, depth));
    var all := Collect(Inside(pr, values, depth)).value;
    forall i | 0 <= i < |values| ensures Fits(all[i], depth + 1) {
      assert Inside(pr, values, depth)[i] == Normalise(pr, values[i], depth + 1);
      NormalFits(pr, values[i], depth + 1);
    }
  }

  lemma SameFields(a: seq<Field>, b: seq<Field>)
    requires Names(a) == Names(b) && forall i :: 0 <= i < |a| && i < |b| ==> a[i].value == b[i].value
    ensures a == b
  {
    assert |a| == |Names(a)| && |b| == |Names(b)|;
    forall i | 0 <= i < |a| ensures a[i] == b[i] {
      assert Names(a)[i] == Names(b)[i];
    }
  }

  lemma {:induction false} FittingIsNormal(pr: Printer, c: Normal, depth: nat)
    requires Fits(c, depth)
    ensures Normalise(pr, Again(c), depth) == Ok(c)
    decreases c
  {
    match c
    case JArray(elements) =>
      var values := Again(c).elements;
      ListNormal(pr, values, depth);
      CollectAll(Inside(pr, values, depth));
      forall i | 0 <= i < |elements| ensures Inside(pr, values, depth)[i] == Ok(elements[i]) {
        FittingIsNormal(pr, elements[i], depth + 1);
      }
      assert Collect(Inside(pr, values, depth)).value == elements;
    case JObject(fields) =>
      var items := Again(c).items;
      MappingNormal(pr, items, depth);
      assert ItemNames(items) == Names(fields);
      forall i | 0 <= i < |fields| ensures Normalise(pr, items[i].value, depth + 1) == Ok(fields[i].value) {
        FittingIsNormal(pr, fields[i].value, depth + 1);
      }
      SameFields(Normalise(pr, Mapping(items), depth).value.fields, fields);
    case _ =>
  }

  /** `normalise` is idempotent on what it accepts, and normalising the result again, where it came
      from or further up, never runs into the depth limit. */
  lemma NormaliseIdempotent(pr: Printer, v: Value, depth: nat, above: nat)
    requires Normalise(pr, v, depth).Ok? && above <= depth
    ensures var c := Normalise(pr, v, depth).value;
            Normalise(pr, Again(c), above) == Ok(c)
  {
    NormalFits(pr, v, depth);
    var c := Normalise(pr, v, depth).value;
    FitsHigher(c, depth, above);
    FittingIsNormal(pr, c, above);
  }

  /** The key by which the members of a set are sorted, their canonical text, is their printed form:
      the members are normal already. */
  lemma SortKeyIsText(pr: Printer, v: Value, depth: nat)
    requires Normalise(pr, v, depth).Ok?
    ensures var c := Normalise(pr, v, depth).value;
            CanonicalText(pr, Again(c)) == Ok(Print(pr, c))
  {
    NormaliseIdempotent(pr, v, depth, 0);
  }

  // ---- the text tells the value --------------------------------------------------------------------

  /** The characters that may follow a value inside another. */
  predicate Delimits(c: char) {
    c == ',' || c == ']' || c == '}'
  }

  predicate Stops(rest: string) {
    rest == "" || Delimits(rest[0])
  }

  /** A token that runs up to the next delimiter and opens nothing. */
  predicate Bare(token: string) {
    token != "" && token[0] != '"' && token[0] != '[' && token[0] != '{' && forall c :: c in token ==> !Delimits(c)
  }

  const WORDS := {"null", "true", "false"}

  /** The scalars print injectively and delimit themselves: a quoted string starts with a quotation mark
      and is no prefix of another, and the numbers are bare tokens, none of them one of the words. */
  ghost predicate Unambiguous(pr: Printer) {
    && (forall s :: "\"" <= pr.quote(s))
    && (forall s, t :: pr.quote(s) <= pr.quote(t) ==> s == t)
    && (forall n :: Bare(pr.integer(n)) && pr.integer(n) !in WORDS)
    && (forall n :: Bare(pr.number(n)) && pr.number(n) !in WORDS)
    && (forall m, n :: pr.integer(m) == pr.integer(n) ==> m == n)
    && (forall m, n :: pr.number(m) == pr.number(n) ==> m == n)
    && (forall m, n :: pr.integer(m) != pr.number(n))
  }

  /** Every object's names are distinct. */
  ghost predicate NamesDistinct(c: Normal)
    decreases c
  {
    match c
    case JArray(elements) => forall i :: 0 <= i < |elements| ==> NamesDistinct(elements[i])
    case JObject(fields) =>
      Distinct(Names(fields)) && forall i :: 0 <= i < |fields| ==> NamesDistinct(fields[i].value)
    case _ => true
  }

  /** Every object's names are distinct and in order. */
  ghost predicate IsTidy(c: Normal)
    decreases c
  {
    match c
    case JArray(elements) => forall i :: 0 <= i < |elements| ==> IsTidy(elements[i])
    case JObject(fields) =>
      && Distinct(Names(fields)) && Sorted(Names(fields)) == Names(fields)
      && forall i :: 0 <= i < |fields| ==> IsTidy(fields[i].value)
    case _ => true
  }

  /** The same value with every object's fields in the order of their names. */
  function Tidy(c: Normal): Normal {
    match c
    case JArray(elements) => JArray(seq(|elements|, i requires 0 <= i < |elements| => Tidy(elements[i])))
    case JObject(fields) =>
      var values := seq(|fields|, i requires 0 <= i < |fields| => Tidy(fields[i].value));
      JObject(InOrder(Names(fields), values))
    case _ => c
  }

  function InOrder(names: seq<string>, values: seq<Normal>): seq<Field>
    requires |names| == |values|
  {
    var keys := Sorted(names);
    seq(|keys|, i requires 0 <= i < |keys| => Field(keys[i], Lookup(names, values, keys[i], JNull)))
  }

  lemma SortedOnce(names: seq<string>)
    requires Distinct(names)
    ensures var keys := Sorted(names); Sorted(keys) == keys && Distinct(keys)
    ensures forall key :: key in Sorted(names) ==> key in names
  {
    SortedSorts(names);
    SortedCanonical(Sorted(names), names);
    SameElementsSameDistinct(names, Sorted(names));
    forall key | key in Sorted(names)
      ensures key in names
    {
      assert key in multiset(Sorted(names));
    }
  }

  lemma {:induction false} TidyKeepsText(pr: Printer, c: Normal)
    requires NamesDistinct(c)
    ensures IsTidy(Tidy(c)) && Print(pr, Tidy(c)) == Print(pr, c)
    decreases c
  {
    match c
    case JArray(elements) =>
      var tidied := Tidy(c).elements;
      forall i | 0 <= i < |elements|
        ensures IsTidy(tidied[i]) && Texts(pr, tidied)[i] == Texts(pr, elements)[i]
      {
        TidyKeepsText(pr, elements[i]);
      }
      PrintArray(pr, elements);
      PrintArray(pr, tidied);
      assert Texts(pr, tidied) == Texts(pr, elements);
    case JObject(fields) =>
      var values := seq(|fields|, i requires 0 <= i < |fields| => Tidy(fields[i].value));
      forall i | 0 <= i < |fields|
        ensures IsTidy(values[i]) && Print(pr, values[i]) == FieldTexts(pr, fields)[i]
      {
        TidyKeepsText(pr, fields[i].value);
      }
      InOrderKeepsText(pr, fields, values);
    case _ =>
  }

  lemma InOrderKeepsText(pr: Printer, fields: seq<Field>, values: seq<Normal>)
    requires Distinct(Names(fields)) && |values| == |fields|
    requires forall i :: 0 <= i < |fields| ==>
               IsTidy(values[i]) && Print(pr, values[i]) == FieldTexts(pr, fields)[i]
    ensures var tidied := JObject(InOrder(Names(fields), values));
            IsTidy(tidied) && Print(pr, tidied) == Print(pr, JObject(fields))
  {
    hide Print, Normalise;
    var names, texts := Names(fields), FieldTexts(pr, fields);
    var keys, tidied := Sorted(names), InOrder(names, values);
    SortedOnce(names);
    assert Names(tidied) == keys;
    forall i | 0 <= i < |keys|
      ensures IsTidy(tidied[i].value)
      ensures Members(pr, keys, FieldTexts(pr, tidied))[i] == Members(pr, names, texts)[i]
    {
      assert keys[i] in keys;
      var k :| 0 <= k < |names| && names[k] == keys[i];
      LookupFinds(names, values, k, JNull);
      LookupFinds(names, texts, k, "");
      LookupFinds(keys, FieldTexts(pr, tidied), i, "");
    }
    assert Members(pr, keys, FieldTexts(pr, tidied)) == Members(pr, names, texts);
    PrintObject(pr, fields);
    PrintObject(pr, tidied);
  }

  // ---- reading a text back -------------------------------------------------------------------------

  /** Where the first delimiter is, or the end. */
  function EndOf(s: string): nat {
    if s == "" || Delimits(s[0]) then 0 else 1 + EndOf(s[1..])
  }

  lemma {:induction false} EndOfToken(token: string, rest: string)
    requires (forall c :: c in token ==> !Delimits(c)) && Stops(rest)
    ensures EndOf(token + rest) == |token|
  {
    if token == "" {
      assert token + rest == rest;
    } else {
      assert (token + rest)[1..] == token[1..] + rest;
      EndOfToken(token[1..], rest);
    }
  }

  lemma BareSplit(x: string, y: string, u: string, v: string)
    requires Bare(x) && Bare(y) && Stops(u) && Stops(v) && x + u == y + v
    ensures x == y && u == v
  {
    EndOfToken(x, u);
    EndOfToken(y, v);
    assert x == (x + u)[..|x|] && y == (y + v)[..|y|];
    assert u == (x + u)[|x|..] && v == (y + v)[|y|..];
  }

  lemma QuoteSplit(pr: Printer, s: string, t: string, u: string, v: string)
    requires Unambiguous(pr) && pr.quote(s) + u == pr.quote(t) + v
    ensures s == t && u == v
  {
    var x, y := pr.quote(s), pr.quote(t);
    assert x == (x + u)[..|x|] && y == (y + v)[..|y|];
    assert x <= y || y <= x;
    assert u == (x + u)[|x|..] && v == (y + v)[|y|..];
  }

  predicate Scalar(c: Normal) {
    c.JNull? || c.JFlag? || c.JInteger? || c.JNumber?
  }

  /** What a text starts with tells a quoted string, an array, an object and the rest apart. */
  lemma Opening(pr: Printer, c: Normal)
    requires Unambiguous(pr)
    ensures var text := Print(pr, c);
            && text != "" && !Delimits(text[0])
            && (c.JText? <==> text[0] == '"')
            && (c.JArray? <==> text[0] == '[')
            && (c.JObject? <==> text[0] == '{')
            && (Scalar(c) ==> Bare(text))
  {
    match c
    case JInteger(n) => assert Bare(pr.integer(n));
    case JNumber(bits) => assert Bare(pr.number(bits));
    case JText(s) => assert "\"" <= pr.quote(s);
    case _ =>
  }

  /** From part `i` of a bracketed list of parts to the end. */
  function Remainder(parts: seq<string>, i: nat, close: char, rest: string): string
    requires i < |parts|
    decreases |parts| - i
  {
    parts[i] + Tail(parts, i, close, rest)
  }

  /** What follows part `i`. */
  function Tail(parts: seq<string>, i: nat, close: char, rest: string): string
    requires i < |parts|
    decreases |parts| - i, 0
  {
    if i + 1 == |parts| then [close] + rest else "," + parts[i + 1] + Tail(parts, i + 1, close, rest)
  }

  lemma Regroup(a: string, b: string, c: string)
    ensures (a + b) + c == a + (b + c)
  {
  }

  lemma JoinStep(parts: seq<string>, i: nat)
    requires i < |parts|
    ensures Join(parts[i..]) == if i + 1 == |parts| then parts[i] else parts[i] + ("," + Join(parts[i + 1..]))
  {
    assert parts[i..][0] == parts[i] && parts[i..][1..] == parts[i + 1..];
    if i + 1 < |parts| {
      Regroup(parts[i], ",", Join(parts[i + 1..]));
    }
  }

  lemma RemainderStep(parts: seq<string>, i: nat, close: char, rest: string)
    requires i < |parts|
    ensures Remainder(parts, i, close, rest)
            == parts[i] + if i + 1 == |parts| then [close] + rest
                          else "," + Remainder(parts, i + 1, close, rest)
  {
    if i + 1 < |parts| {
      Regroup(",", parts[i + 1], Tail(parts, i + 1, close, rest));
    }
  }

  lemma {:induction false} JoinIsRemainder(parts: seq<string>, i: nat, close: char, rest: string)
    requires i < |parts|
    ensures Join(parts[i..]) + ([close] + rest) == Remainder(parts, i, close, rest)
    decreases |parts| - i
  {
    hide *;
    JoinStep(parts, i);
    RemainderStep(parts, i, close, rest);
    if i + 1 < |parts| {
      JoinIsRemainder(parts, i + 1, close, rest);
      var inside := Join(parts[i + 1..]);
      Regroup(parts[i], "," + inside, [close] + rest);
      Regroup(",", inside, [close] + rest);
    }
  }

  lemma TailStops(parts: seq<string>, i: nat, close: char, rest: string)
    requires i < |parts| && Delimits(close)
    ensures Stops(Tail(parts, i, close, rest))
  {
  }

  /** The inside of a bracketed list, with the closing bracket and what follows. */
  function Inner(parts: seq<string>, close: char, rest: string): string {
    if parts == [] then [close] + rest else Remainder(parts, 0, close, rest)
  }

  lemma InnerIsJoin(parts: seq<string>, close: char, rest: string)
    ensures Inner(parts, close, rest) == Join(parts) + ([close] + rest)
  {
    if parts != [] {
      JoinIsRemainder(parts, 0, close, rest);
      assert parts[0..] == parts;
    }
  }

  /** No part starts like a bracket closes, so an empty list cannot be taken for another. */
  lemma InnerEmpty(a: seq<string>, b: seq<string>, close: char, u: string, v: string)
    requires Delimits(close) && Inner(a, close, u) == Inner(b, close, v)
    requires a != [] ==> a[0] != "" && !Delimits(a[0][0])
    requires b != [] ==> b[0] != "" && !Delimits(b[0][0])
    ensures a == [] <==> b == []
    ensures a == [] ==> u == v
  {
    InnerHead(a, close, u);
    InnerHead(b, close, v);
    if a == [] && b == [] {
      assert u == Inner(a, close, u)[1..] && v == Inner(b, close, v)[1..];
    }
  }

  lemma InnerHead(parts: seq<string>, close: char, rest: string)
    requires parts != [] ==> parts[0] != ""
    ensures var text := Inner(parts, close, rest);
            text != "" && text[0] == if parts == [] then close else parts[0][0]
  {
  }

  /** Once the parts at `i` agree, so does how the lists go on. */
  lemma TailSplit(a: seq<string>, b: seq<string>, i: nat, close: char, u: string, v: string)
    requires close != ',' && i < |a| && i < |b| && Tail(a, i, close, u) == Tail(b, i, close, v)
    ensures i + 1 == |a| <==> i + 1 == |b|
    ensures i + 1 == |a| ==> u == v
    ensures i + 1 < |a| && i + 1 < |b| ==> Remainder(a, i + 1, close, u) == Remainder(b, i + 1, close, v)
  {
    var x, y := Tail(a, i, close, u), Tail(b, i, close, v);
    assert x[0] == y[0] && x[1..] == y[1..];
    TailRest(a, i, close, u);
    TailRest(b, i, close, v);
  }

  lemma TailRest(parts: seq<string>, i: nat, close: char, rest: string)
    requires i < |parts|
    ensures var t := Tail(parts, i, close, rest);
            && t != "" && t[0] == (if i + 1 == |parts| then close else ',')
            && t[1..] == if i + 1 == |parts| then rest else Remainder(parts, i + 1, close, rest)
  {
    if i + 1 < |parts| {
      assert Tail(parts, i, close, rest) == "," + Remainder(parts, i + 1, close, rest);
    }
  }

  lemma ArrayText(pr: Printer, elements: seq<Normal>, rest: string)
    ensures Print(pr, JArray(elements)) + rest == "[" + Inner(Texts(pr, elements), ']', rest)
  {
    PrintArray(pr, elements);
    InnerIsJoin(Texts(pr, elements), ']', rest);
  }

  /** The members of an object in the order of its fields. */
  function Pairs(pr: Printer, fields: seq<Field>): seq<string> {
    seq(|fields|, i requires 0 <= i < |fields| => pr.quote(fields[i].name) + ":" + Print(pr, fields[i].value))
  }

  lemma ObjectText(pr: Printer, fields: seq<Field>, rest: string)
    requires Distinct(Names(fields)) && Sorted(Names(fields)) == Names(fields)
    ensures Print(pr, JObject(fields)) + rest == "{" + Inner(Pairs(pr, fields), '}', rest)
  {
    hide Print;
    PrintObject(pr, fields);
    var names, texts := Names(fields), FieldTexts(pr, fields);
    forall i | 0 <= i < |fields|
      ensures Members(pr, names, texts)[i] == Pairs(pr, fields)[i]
    {
      LookupFinds(names, texts, i, "");
    }
    assert Members(pr, names, texts) == Pairs(pr, fields);
    InnerIsJoin(Pairs(pr, fields), '}', rest);
  }

  /** One value, read from the front of a text, is the only one that could be read there. */
  lemma {:induction false} PrintSplit(pr: Printer, a: Normal, b: Normal, u: string, v: string)
    requires Unambiguous(pr) && IsTidy(a) && IsTidy(b) && Stops(u) && Stops(v)
    requires Print(pr, a) + u == Print(pr, b) + v
    ensures a == b && u == v
    decreases a, 1, 0
  {
    Opening(pr, a);
    Opening(pr, b);
    assert Print(pr, a)[0] == (Print(pr, a) + u)[0] && Print(pr, b)[0] == (Print(pr, b) + v)[0];
    if a.JText? {
      QuoteSplit(pr, a.s, b.s, u, v);
    } else if a.JArray? {
      ArrayText(pr, a.elements, u);
      ArrayText(pr, b.elements, v);
      ElementsSplit(pr, a, b, u, v);
    } else if a.JObject? {
      ObjectText(pr, a.fields, u);
      ObjectText(pr, b.fields, v);
      FieldsSplit(pr, a, b, u, v);
    } else {
      BareSplit(Print(pr, a), Print(pr, b), u, v);
      ScalarSplit(pr, a, b);
    }
  }

  lemma ScalarSplit(pr: Printer, a: Normal, b: Normal)
    requires Unambiguous(pr) && Scalar(a) && Scalar(b) && Print(pr, a) == Print(pr, b)
    ensures a == b
  {
  }

  lemma {:induction false} ElementsSplit(pr: Printer, a: Normal, b: Normal, u: string, v: string)
    requires Unambiguous(pr) && IsTidy(a) && IsTidy(b) && Stops(u) && Stops(v) && a.JArray? && b.JArray?
    requires "[" + Inner(Texts(pr, a.elements), ']', u) == "[" + Inner(Texts(pr, b.elements), ']', v)
    ensures a == b && u == v
    decreases a, 0, |a.elements| + 1
  {
    var x, y := Texts(pr, a.elements), Texts(pr, b.elements);
    assert Inner(x, ']', u) == ("[" + Inner(x, ']', u))[1..] && Inner(y, ']', v) == ("[" + Inner(y, ']', v))[1..];
    if a.elements != [] {
      Opening(pr, a.elements[0]);
    }
    if b.elements != [] {
      Opening(pr, b.elements[0]);
    }
    InnerEmpty(x, y, ']', u, v);
    if a.elements != [] {
      ElementsSplitFrom(pr, a, b, 0, u, v);
    }
  }

  lemma {:induction false} ElementsSplitFrom(pr: Printer, a: Normal, b: Normal, i: nat, u: string, v: string)
    requires Unambiguous(pr) && IsTidy(a) && IsTidy(b) && Stops(u) && Stops(v) && a.JArray? && b.JArray?
    requires i < |a.elements| && i < |b.elements| && a.elements[..i] == b.elements[..i]
    requires Remainder(Texts(pr, a.elements), i, ']', u) == Remainder(Texts(pr, b.elements), i, ']', v)
    ensures a == b && u == v
    decreases a, 0, |a.elements| - i
  {
    var x, y := Texts(pr, a.elements), Texts(pr, b.elements);
    TailStops(x, i, ']', u);
    TailStops(y, i, ']', v);
    PrintSplit(pr, a.elements[i], b.elements[i], Tail(x, i, ']', u), Tail(y, i, ']', v));
    TailSplit(x, y, i, ']', u, v);
    assert a.elements[..i + 1] == a.elements[..i] + [a.elements[i]];
    assert b.elements[..i + 1] == b.elements[..i] + [b.elements[i]];
    if i + 1 < |a.elements| {
      ElementsSplitFrom(pr, a, b, i + 1, u, v);
    } else {
      assert a.elements[..i + 1] == a.elements && b.elements[..i + 1] == b.elements;
    }
  }

  lemma PairOpens(pr: Printer, f: Field)
    requires Unambiguous(pr)
    ensures var pair := pr.quote(f.name) + ":" + Print(pr, f.value); pair != "" && !Delimits(pair[0])
  {
    assert "\"" <= pr.quote(f.name);
    assert pr.quote(f.name)[0] == '"';
  }

  lemma {:induction false} FieldsSplit(pr: Printer, a: Normal, b: Normal, u: string, v: string)
    requires Unambiguous(pr) && IsTidy(a) && IsTidy(b) && Stops(u) && Stops(v) && a.JObject? && b.JObject?
    requires "{" + Inner(Pairs(pr, a.fields), '}', u) == "{" + Inner(Pairs(pr, b.fields), '}', v)
    ensures a == b && u == v
    decreases a, 0, |a.fields| + 1
  {
    var x, y := Pairs(pr, a.fields), Pairs(pr, b.fields);
    assert Inner(x, '}', u) == ("{" + Inner(x, '}', u))[1..] && Inner(y, '}', v) == ("{" + Inner(y, '}', v))[1..];
    if a.fields != [] {
      PairOpens(pr, a.fields[0]);
    }
    if b.fields != [] {
      PairOpens(pr, b.fields[0]);
    }
    InnerEmpty(x, y, '}', u, v);
    if a.fields != [] {
      FieldsSplitFrom(pr, a, b, 0, u, v);
    }
  }

  /** A quoted name, a colon and a text, read apart. */
  lemma PairSplit(pr: Printer, f: Field, g: Field, u: string, v: string)
    requires Unambiguous(pr)
    requires pr.quote(f.name) + ":" + Print(pr, f.value) + u == pr.quote(g.name) + ":" + Print(pr, g.value) + v
    ensures f.name == g.name && Print(pr, f.value) + u == Print(pr, g.value) + v
  {
    hide Print;
    var x, y := Print(pr, f.value) + u, Print(pr, g.value) + v;
    assert pr.quote(f.name) + ":" + Print(pr, f.value) + u == pr.quote(f.name) + (":" + x);
    assert pr.quote(g.name) + ":" + Print(pr, g.value) + v == pr.quote(g.name) + (":" + y);
    QuoteSplit(pr, f.name, g.name, ":" + x, ":" + y);
    assert x == (":" + x)[1..] && y == (":" + y)[1..];
  }

  lemma {:induction false} FieldsSplitFrom(pr: Printer, a: Normal, b: Normal, i: nat, u: string, v: string)
    requires Unambiguous(pr) && IsTidy(a) && IsTidy(b) && Stops(u) && Stops(v) && a.JObject? && b.JObject?
    requires i < |a.fields| && i < |b.fields| && a.fields[..i] == b.fields[..i]
    requires Remainder(Pairs(pr, a.fields), i, '}', u) == Remainder(Pairs(pr, b.fields), i, '}', v)
    ensures a == b && u == v
    decreases a, 0, |a.fields| - i
  {
    hide Unambiguous, Print, Stops, Tail, Distinct;
    var x, y := Pairs(pr, a.fields), Pairs(pr, b.fields);
    TailStops(x, i, '}', u);
    TailStops(y, i, '}', v);
    PairSplit(pr, a.fields[i], b.fields[i], Tail(x, i, '}', u), Tail(y, i, '}', v));
    PrintSplit(pr, a.fields[i].value, b.fields[i].value, Tail(x, i, '}', u), Tail(y, i, '}', v));
    TailSplit(x, y, i, '}', u, v);
    assert a.fields[..i + 1] == a.fields[..i] + [a.fields[i]];
    assert b.fields[..i + 1] == b.fields[..i] + [b.fields[i]];
    if i + 1 < |a.fields| {
      FieldsSplitFrom(pr, a, b, i + 1, u, v);
    } else {
      assert a.fields[..i + 1] == a.fields && b.fields[..i + 1] == b.fields;
    }
  }

  /** Printing tells values apart exactly as far as they differ in more than the order of fields. */
  lemma PrintDecides(pr: Printer, a: Normal, b: Normal)
    requires Unambiguous(pr) && NamesDistinct(a) && NamesDistinct(b)
    ensures Print(pr, a) == Print(pr, b) <==> Tidy(a) == Tidy(b)
  {
    TidyKeepsText(pr, a);
    TidyKeepsText(pr, b);
    if Print(pr, a) == Print(pr, b) {
      assert Print(pr, Tidy(a)) + "" == Print(pr, Tidy(b)) + "";
      PrintSplit(pr, Tidy(a), Tidy(b), "", "");
    }
  }

  lemma {:induction false} FittingIsDistinct(c: Normal, depth: nat)
    requires Fits(c, depth)
    ensures NamesDistinct(c)
    decreases c
  {
    match c
    case JArray(elements) =>
      forall i | 0 <= i < |elements| ensures NamesDistinct(elements[i]) {
        FittingIsDistinct(elements[i], depth + 1);
      }
    case JObject(fields) =>
      forall i | 0 <= i < |fields| ensures NamesDistinct(fields[i].value) {
        FittingIsDistinct(fields[i].value, depth + 1);
      }
    case _ =>
  }

  /** The canonical texts of two accepted values are equal exactly when the values are the same up to
      the order of fields. */
  lemma TextDecides(pr: Printer, v: Value, w: Value)
    requires Unambiguous(pr) && CanonicalText(pr, v).Ok? && CanonicalText(pr, w).Ok?
    ensures CanonicalText(pr, v) == CanonicalText(pr, w)
            <==> Tidy(Normalise(pr, v, 0).value) == Tidy(Normalise(pr, w, 0).value)
  {
    var a, b := Normalise(pr, v, 0).value, Normalise(pr, w, 0).value;
    NormalFits(pr, v, 0);
    NormalFits(pr, w, 0);
    FittingIsDistinct(a, 0);
    FittingIsDistinct(b, 0);
    PrintDecides(pr, a, b);
  }

  // ---- such printers exist -------------------------------------------------------------------------

  /** Every character escaped, and then the closing mark. */
  function Escaped(s: string): string {
    if s == "" then "\"" else ['\\', s[0]] + Escaped(s[1..])
  }

  lemma {:induction false} EscapedPrefix(s: string, t: string)
    requires Escaped(s) <= Escaped(t)
    ensures s == t
  {
    assert Escaped(t)[0] == Escaped(s)[0];
    if s != "" && t != "" {
      assert Escaped(s)[1] == Escaped(t)[1];
      assert Escaped(s)[2..] == Escaped(s[1..]) && Escaped(t)[2..] == Escaped(t[1..]);
      EscapedPrefix(s[1..], t[1..]);
      assert s == [s[0]] + s[1..] && t == [t[0]] + t[1..];
    }
  }

  function Ones(n: nat): (token: string)
    ensures |token| == n && forall c :: c in token ==> c == '1'
  {
    if n == 0 then "" else "1" + Ones(n - 1)
  }

  const UNARY := Printer(
    s => "\"" + Escaped(s),
    n => if n < 0 then "-" + Ones(-n) else "+" + Ones(n),
    (n: nat) => "." + Ones(n))

  lemma UnaryIsUnambiguous()
    ensures Unambiguous(UNARY)
  {
    forall s, t | UNARY.quote(s) <= UNARY.quote(t)
      ensures s == t
    {
      assert Escaped(s) == UNARY.quote(s)[1..] && Escaped(t) == UNARY.quote(t)[1..];
      EscapedPrefix(s, t);
    }
    forall n
      ensures Bare(UNARY.integer(n)) && UNARY.integer(n) !in WORDS
    {
      assert UNARY.integer(n)[0] == '-' || UNARY.integer(n)[0] == '+';
    }
    forall n
      ensures Bare(UNARY.number(n)) && UNARY.number(n) !in WORDS
    {
      assert UNARY.number(n)[0] == '.';
    }
    forall m, n | UNARY.integer(m) == UNARY.integer(n)
      ensures m == n
    {
      assert UNARY.integer(m)[0] == UNARY.integer(n)[0] && |UNARY.integer(m)| == |UNARY.integer(n)|;
    }
    forall m, n | UNARY.number(m) == UNARY.number(n)
      ensures m == n
    {
      assert |UNARY.number(m)| == |UNARY.number(n)|;
    }
    forall m, n
      ensures UNARY.integer(m) != UNARY.number(n)
    {
      assert UNARY.integer(m)[0] != UNARY.number(n)[0];
    }
  }
}
