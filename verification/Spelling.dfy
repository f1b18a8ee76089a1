/** What canonical text is, read off the value (`poe/canonical.py`): the JSON text of a value, written as
    a relation that says nothing about how it is computed, and which values have none.
  */
module Spelling {
  import opened Strings
  import opened Canonical

  // ---- the reference ----------------------------------------------------------------------------

  function Commas(parts: seq<string>): string {
    if parts == [] then "" else parts[0] + LedBy(parts[1..], ',')
  }

  ghost predicate Collides(items: seq<Item>) {
    exists i, j :: 0 <= i < j < |items| && items[i].name == items[j].name
  }

  /** `text` spells `v`: sets by their members' texts in ascending order, mappings by their names in
      ascending order, each with the text of what is filed under it. */
  ghost predicate Spells(pr: Printer, v: Value, text: string)
    decreases v
  {
    match v
    case Null => text == "null"
    case Flag(b) => text == if b then "true" else "false"
    case Integer(n) => text == pr.integer(n)
    case Number(NonFinite) => false
    case Number(NegativeZero) => text == pr.number(0)
    case Number(Finite(bits)) => text == pr.number(bits)
    case Text(s) => text == pr.quote(s)
    case Converted(s) => text == pr.quote(s)
    case Wrapped(inner) => Spells(pr, inner, text)
    case List(elements) =>
      exists texts: seq<string> :: |texts| == |elements|
        && (forall i :: 0 <= i < |elements| ==> Spells(pr, elements[i], texts[i]))
        && text == "[" + Commas(texts) + "]"
    case Set(members) =>
      exists texts: seq<string>, sorted: seq<string> :: |texts| == |members|
        && (forall i :: 0 <= i < |members| ==> Spells(pr, members[i], texts[i]))
        && Arranged(sorted, texts) && text == "[" + Commas(sorted) + "]"
    case Mapping(items) =>
      !Collides(items) &&
      exists texts: seq<string>, keys: seq<string>, members: seq<string> :: |texts| == |items|
        && (forall i :: 0 <= i < |items| ==> Spells(pr, items[i].value, texts[i]))
        && Arranged(keys, ItemNames(items)) && Filed(pr, items, texts, keys, members)
        && text == "{" + Commas(members) + "}"
    case Unsupported => false
  }

  ghost predicate Arranged(sorted: seq<string>, parts: seq<string>) {
    Ascending(sorted) && multiset(sorted) == multiset(parts)
  }

  ghost predicate Filed(pr: Printer, items: seq<Item>, texts: seq<string>, keys: seq<string>, members: seq<string>) {
    |texts| == |items| && |members| == |keys| &&
    forall k, i :: 0 <= k < |keys| && 0 <= i < |items| && items[i].name == keys[k] ==>
      members[k] == pr.quote(keys[k]) + ":" + texts[i]
  }

  /** Why `v` cannot be spelled with `room` further levels. */
  ghost predicate Offends(v: Value, error: Error, room: nat)
    decreases v, 0
  {
    match v
    case Number(NonFinite) => error == NotFinite
    case Unsupported => error == NotSupported
    case Wrapped(inner) => OffendsWithin(inner, error, room)
    case List(elements) => exists i :: 0 <= i < |elements| && OffendsWithin(elements[i], error, room)
    case Set(members) => exists i :: 0 <= i < |members| && OffendsWithin(members[i], error, room)
    case Mapping(items) =>
      || (error == KeysCollide && Collides(items))
      || exists i :: 0 <= i < |items| && OffendsWithin(items[i].value, error, room)
    case _ => false
  }

  /** The same for a part of a value with `room` further levels. */
  ghost predicate OffendsWithin(v: Value, error: Error, room: nat)
    decreases v, 1
  {
    if room == 0 then error == TooDeep else Offends(v, error, room - 1)
  }

  // ---- which values are spelled -----------------------------------------------------------------

  lemma {:induction false} CollectFails<T>(results: seq<Result<T, Error>>) returns (i: nat)
    requires Collect(results).Err?
    ensures i < |results| && results[i] == Err(Collect(results).error)
  {
    if results[0].Err? {
      i := 0;
    } else {
      i := CollectFails(results[1..]);
      i := i + 1;
    }
  }

  ghost predicate Spellable(v: Value, room: nat) {
    forall error :: !Offends(v, error, room)
  }

  /** The room a part of a value with `room` further levels has. */
  ghost predicate Within(v: Value, room: nat) {
    room > 0 && Spellable(v, room - 1)
  }

  lemma ElementsSpellable(v: Value, values: seq<Value>, room: nat)
    requires v == List(values) || v == Set(values)
    ensures (forall i :: 0 <= i < |values| ==> Within(values[i], room)) ==> Spellable(v, room)
    ensures forall i, error :: 0 <= i < |values| && OffendsWithin(values[i], error, room) ==> Offends(v, error, room)
  {
    forall error | forall i :: 0 <= i < |values| ==> Within(values[i], room)
      ensures !Offends(v, error, room)
    {
      forall i | 0 <= i < |values|
        ensures !OffendsWithin(values[i], error, room)
      {
        assert Within(values[i], room);
      }
    }
  }

  lemma WrappedSpellable(inner: Value, room: nat)
    ensures Within(inner, room) ==> Spellable(Wrapped(inner), room)
    ensures forall error :: OffendsWithin(inner, error, room) ==> Offends(Wrapped(inner), error, room)
  {
    forall error | Within(inner, room)
      ensures !Offends(Wrapped(inner), error, room)
    {
      assert !OffendsWithin(inner, error, room);
    }
  }

  lemma MappingSpellable(items: seq<Item>, room: nat)
    ensures !Collides(items) && (forall i :: 0 <= i < |items| ==> Within(items[i].value, room)) ==>
              Spellable(Mapping(items), room)
    ensures forall i, error :: 0 <= i < |items| && OffendsWithin(items[i].value, error, room) ==>
              Offends(Mapping(items), error, room)
    ensures Collides(items) ==> Offends(Mapping(items), KeysCollide, room)
  {
    forall error | !Collides(items) && forall i :: 0 <= i < |items| ==> Within(items[i].value, room)
      ensures !Offends(Mapping(items), error, room)
    {
      forall i | 0 <= i < |items|
        ensures !OffendsWithin(items[i].value, error, room)
      {
        assert Within(items[i].value, room);
      }
    }
  }

  /** The values all pass, or the first failure is one of theirs. */
  lemma AllPass(results: seq<Result<Normal, Error>>, values: seq<Value>, v: Value, room: nat)
    requires |results| == |values|
    requires forall i :: 0 <= i < |values| ==> (results[i].Ok? <==> Within(values[i], room))
    requires forall i :: 0 <= i < |values| && results[i].Err? ==> OffendsWithin(values[i], results[i].error, room)
    requires v == List(values) || v == Set(values)
    ensures Collect(results).Ok? <==> Spellable(v, room)
    ensures Collect(results).Err? ==> Offends(v, Collect(results).error, room)
  {
    CollectAll(results);
    ElementsSpellable(v, values, room);
    hide Collect, Offends, OffendsWithin, Within;
    if Collect(results).Err? {
      var i := CollectFails(results);
      NotSpellable(v, results[i].error, room);
    }
  }

  /** A value is accepted exactly when nothing offends, and the error reported is one of the offences. */
  lemma {:induction false} AcceptedExactly(pr: Printer, v: Value, depth: nat)
    requires depth <= MAX_DEPTH
    ensures Normalise(pr, v, depth).Ok? <==> Spellable(v, MAX_DEPTH - depth)
    ensures Normalise(pr, v, depth).Err? ==> Offends(v, Normalise(pr, v, depth).error, MAX_DEPTH - depth)
    decreases v, 1
  {
    match v
    case Wrapped(inner) =>
      OneDown(pr, inner, depth);
      WrappedSpellable(inner, MAX_DEPTH - depth);
      WrappedAccepted(pr, inner, depth);
    case List(elements) => ElementsAccepted(pr, v, elements, depth);
    case Set(members) => ElementsAccepted(pr, v, members, depth);
    case Mapping(items) => MappingAccepted(pr, items, depth);
    case Number(NonFinite) => NotSpellable(v, NotFinite, MAX_DEPTH - depth);
    case Unsupported => NotSpellable(v, NotSupported, MAX_DEPTH - depth);
    case _ =>
  }

  lemma WrappedAccepted(pr: Printer, inner: Value, depth: nat)
    requires depth <= MAX_DEPTH
    ensures var r, room := Normalise(pr, inner, depth + 1), MAX_DEPTH - depth;
            && Normalise(pr, Wrapped(inner), depth) == r
            && (r.Err? && OffendsWithin(inner, r.error, room) ==> !Spellable(Wrapped(inner), room))
  {
    var r, room := Normalise(pr, inner, depth + 1), MAX_DEPTH - depth;
    if r.Err? && OffendsWithin(inner, r.error, room) {
      WrappedSpellable(inner, room);
      NotSpellable(Wrapped(inner), r.error, room);
    }
  }

  lemma {:induction false} ElementsAccepted(pr: Printer, v: Value, values: seq<Value>, depth: nat)
    requires depth <= MAX_DEPTH && (v == List(values) || v == Set(values))
    ensures Normalise(pr, v, depth).Ok? <==> Spellable(v, MAX_DEPTH - depth)
    ensures Normalise(pr, v, depth).Err? ==> Offends(v, Normalise(pr, v, depth).error, MAX_DEPTH - depth)
    decreases v, 0
  {
    var results, room := Inside(pr, values, depth), MAX_DEPTH - depth;
    assert results == seq(|values|, i requires 0 <= i < |values| => Normalise(pr, values[i], depth + 1));
    assert Normalise(pr, v, depth).Ok? <==> Collect(results).Ok?;
    assert Normalise(pr, v, depth).Err? ==> Normalise(pr, v, depth).error == Collect(results).error;
    hide Normalise, Collect, Offends, Spellable, Within, OffendsWithin;
    forall i | 0 <= i < |values|
      ensures results[i].Ok? <==> Within(values[i], room)
      ensures results[i].Err? ==> OffendsWithin(values[i], results[i].error, room)
    {
      OneDown(pr, values[i], depth);
    }
    AllPass(results, values, v, room);
  }

  /** The same for a value one level further down. */
  lemma {:induction false} OneDown(pr: Printer, v: Value, depth: nat)
    requires depth <= MAX_DEPTH
    ensures Normalise(pr, v, depth + 1).Ok? <==> Within(v, MAX_DEPTH - depth)
    ensures Normalise(pr, v, depth + 1).Err? ==>
              OffendsWithin(v, Normalise(pr, v, depth + 1).error, MAX_DEPTH - depth)
    decreases v, 2
  {
    if depth < MAX_DEPTH {
      AcceptedExactly(pr, v, depth + 1);
      hide Normalise, Spellable, Offends;
    }
  }

  lemma {:induction false} MappingAccepted(pr: Printer, items: seq<Item>, depth: nat)
    requires depth <= MAX_DEPTH
    ensures Normalise(pr, Mapping(items), depth).Ok? <==> Spellable(Mapping(items), MAX_DEPTH - depth)
    ensures Normalise(pr, Mapping(items), depth).Err? ==>
              Offends(Mapping(items), Normalise(pr, Mapping(items), depth).error, MAX_DEPTH - depth)
    decreases Mapping(items), 0
  {
    var results, room := InMapping(pr, items, depth), MAX_DEPTH - depth;
    assert results == seq(|items|, i requires 0 <= i < |items| =>
      if Taken(items, i) then Err(KeysCollide) else Normalise(pr, items[i].value, depth + 1));
    CollectAll(results);
    assert Normalise(pr, Mapping(items), depth).Ok? <==> Collect(results).Ok?;
    assert Normalise(pr, Mapping(items), depth).Err? ==>
      Normalise(pr, Mapping(items), depth).error == Collect(results).error;
    assert forall i :: 0 <= i < |items| ==>
      results[i] == if Taken(items, i) then Err(KeysCollide) else Normalise(pr, items[i].value, depth + 1);
    hide Normalise, Collect, InMapping, Offends, Within, OffendsWithin, Spellable;
    forall i | 0 <= i < |items|
      ensures results[i].Ok? <==> !Taken(items, i) && Within(items[i].value, room)
      ensures results[i].Err? && !Taken(items, i) ==> OffendsWithin(items[i].value, results[i].error, room)
    {
      OneDown(pr, items[i].value, depth);
    }
    MappingSpellable(items, room);
    CollidesWhereTaken(items);
    hide Taken, Collides;
    if Collect(results).Err? {
      var i := CollectFails(results);
      assert !Spellable(Mapping(items), room) by {
        NotSpellable(Mapping(items), results[i].error, room);
      }
    }
  }

  lemma NotSpellable(v: Value, error: Error, room: nat)
    requires Offends(v, error, room)
    ensures !Spellable(v, room)
  {
    hide Offends;
  }

  lemma CollidesWhereTaken(items: seq<Item>)
    ensures Collides(items) <==> exists i :: 0 <= i < |items| && Taken(items, i)
  {
    if i, j :| 0 <= i < j < |items| && items[i].name == items[j].name {
      assert Taken(items, j);
    }
  }

  // ---- what they are spelled by -----------------------------------------------------------------

  lemma {:induction false} JoinIsCommas(parts: seq<string>)
    ensures Join(parts) == Commas(parts)
  {
    if |parts| > 1 {
      JoinIsCommas(parts[1..]);
      assert LedBy(parts[1..], ',') == "," + parts[1] + LedBy(parts[1..][1..], ',');
    }
  }

  ghost predicate SpellsAll(pr: Printer, values: seq<Value>, texts: seq<string>) {
    |texts| == |values| && forall i :: 0 <= i < |values| ==> Spells(pr, values[i], texts[i])
  }

  lemma SpellsList(pr: Printer, elements: seq<Value>, texts: seq<string>)
    requires SpellsAll(pr, elements, texts)
    ensures Spells(pr, List(elements), "[" + Commas(texts) + "]")
  {
  }

  lemma SpellsSet(pr: Printer, members: seq<Value>, texts: seq<string>, sorted: seq<string>)
    requires SpellsAll(pr, members, texts) && Arranged(sorted, texts)
    ensures Spells(pr, Set(members), "[" + Commas(sorted) + "]")
  {
    hide Arranged;
  }

  lemma {:induction false} NormalSpells(pr: Printer, v: Value, depth: nat)
    requires Normalise(pr, v, depth).Ok?
    ensures Spells(pr, v, Print(pr, Normalise(pr, v, depth).value))
    decreases v, 1
  {
    match v
    case Wrapped(inner) => NormalSpells(pr, inner, depth + 1);
    case List(elements) =>
      ListNormal(pr, elements, depth);
      var all := InsideSpells(pr, v, elements, depth);
      PrintArray(pr, all);
      JoinIsCommas(Texts(pr, all));
      SpellsList(pr, elements, Texts(pr, all));
    case Set(members) =>
      SetNormal(pr, members, depth);
      var all := InsideSpells(pr, v, members, depth);
      PrintArray(pr, SortByText(pr, all));
      SortedTexts(pr, all);
      SortedSorts(Texts(pr, all));
      JoinIsCommas(Sorted(Texts(pr, all)));
      SpellsSet(pr, members, Texts(pr, all), Sorted(Texts(pr, all)));
    case Mapping(items) => MappingSpells(pr, items, depth);
    case _ =>
  }

  lemma {:induction false} InsideSpells(pr: Printer, v: Value, values: seq<Value>, depth: nat)
    returns (all: seq<Normal>)
    requires (v == List(values) || v == Set(values)) && Collect(Inside(pr, values, depth)).Ok?
    ensures all == Collect(Inside(pr, values, depth)).value && SpellsAll(pr, values, Texts(pr, all))
    decreases v, 0
  {
    var results := Inside(pr, values, depth);
    CollectAll(results);
    all := Collect(results).value;
    hide Collect, Print, Spells;
    forall i | 0 <= i < |values|
      ensures Spells(pr, values[i], Texts(pr, all)[i])
    {
      assert results[i] == Ok(all[i]);
      NormalSpells(pr, values[i], depth + 1);
    }
  }

  lemma {:induction false} MappingSpells(pr: Printer, items: seq<Item>, depth: nat)
    requires Normalise(pr, Mapping(items), depth).Ok?
    ensures Spells(pr, Mapping(items), Print(pr, Normalise(pr, Mapping(items), depth).value))
    decreases Mapping(items), 0
  {
    MappingNormal(pr, items, depth);
    var fields := Normalise(pr, Mapping(items), depth).value.fields;
    var names, texts := Names(fields), FieldTexts(pr, fields);
    hide Normalise, Print, Members;
    forall i | 0 <= i < |items|
      ensures Spells(pr, items[i].value, texts[i])
    {
      NormalSpells(pr, items[i].value, depth + 1);
    }
    PrintObject(pr, fields);
    MembersFiled(pr, items, names, texts);
    SortedSorts(names);
    JoinIsCommas(Members(pr, names, texts));
    SpellsMapping(pr, items, texts, Sorted(names), Members(pr, names, texts));
  }

  lemma MembersFiled(pr: Printer, items: seq<Item>, names: seq<string>, texts: seq<string>)
    requires names == ItemNames(items) && |texts| == |items| && Distinct(names)
    ensures Filed(pr, items, texts, Sorted(names), Members(pr, names, texts))
    ensures !Collides(items)
  {
    var keys := Sorted(names);
    forall k, i | 0 <= k < |keys| && 0 <= i < |items| && items[i].name == keys[k]
      ensures Lookup(names, texts, keys[k], "") == texts[i]
    {
      LookupFinds(names, texts, i, "");
    }
    forall i, j | 0 <= i < j < |items|
      ensures items[i].name != items[j].name
    {
      assert names[i] != names[j];
    }
    hide Sorted, Lookup;
  }

  lemma SpellsMapping(pr: Printer, items: seq<Item>, texts: seq<string>, keys: seq<string>, members: seq<string>)
    requires !Collides(items) && |texts| == |items|
    requires forall i :: 0 <= i < |items| ==> Spells(pr, items[i].value, texts[i])
    requires Arranged(keys, ItemNames(items)) && Filed(pr, items, texts, keys, members)
    ensures Spells(pr, Mapping(items), "{" + Commas(members) + "}")
  {
    hide Collides, Arranged, Filed;
  }

  // ---- a value is spelled in one way only -------------------------------------------------------

  lemma ArrangedOnce(a: seq<string>, b: seq<string>, parts: seq<string>)
    requires Arranged(a, parts) && Arranged(b, parts)
    ensures a == b
  {
    AscendingUnique(a, b);
  }

  lemma {:induction false} SpellsOnce(pr: Printer, v: Value, a: string, b: string)
    requires Spells(pr, v, a) && Spells(pr, v, b)
    ensures a == b
    decreases v, 2
  {
    match v
    case Wrapped(inner) => SpellsOnce(pr, inner, a, b);
    case List(elements) => ListOnce(pr, elements, a, b);
    case Set(members) => SetOnce(pr, members, a, b);
    case Mapping(items) => MappingOnce(pr, items, a, b);
    case _ =>
  }

  lemma {:induction false} AllOnce(pr: Printer, v: Value, values: seq<Value>, a: seq<string>, b: seq<string>)
    requires (v == List(values) || v == Set(values)) && SpellsAll(pr, values, a) && SpellsAll(pr, values, b)
    ensures a == b
    decreases v, 0
  {
    hide Spells;
    forall i | 0 <= i < |values|
      ensures a[i] == b[i]
    {
      SpellsOnce(pr, values[i], a[i], b[i]);
    }
  }

  lemma {:induction false} ListOnce(pr: Printer, elements: seq<Value>, a: string, b: string)
    requires Spells(pr, List(elements), a) && Spells(pr, List(elements), b)
    ensures a == b
    decreases List(elements), 1
  {
    var x: seq<string> :| |x| == |elements| && (forall i :: 0 <= i < |elements| ==> Spells(pr, elements[i], x[i]))
                          && a == "[" + Commas(x) + "]";
    var y: seq<string> :| |y| == |elements| && (forall i :: 0 <= i < |elements| ==> Spells(pr, elements[i], y[i]))
                          && b == "[" + Commas(y) + "]";
    AllOnce(pr, List(elements), elements, x, y);
  }

  lemma {:induction false} SetOnce(pr: Printer, members: seq<Value>, a: string, b: string)
    requires Spells(pr, Set(members), a) && Spells(pr, Set(members), b)
    ensures a == b
    decreases Set(members), 1
  {
    hide Arranged;
    var x: seq<string>, s: seq<string> :| |x| == |members|
      && (forall i :: 0 <= i < |members| ==> Spells(pr, members[i], x[i])) && Arranged(s, x)
      && a == "[" + Commas(s) + "]";
    var y: seq<string>, t: seq<string> :| |y| == |members|
      && (forall i :: 0 <= i < |members| ==> Spells(pr, members[i], y[i])) && Arranged(t, y)
      && b == "[" + Commas(t) + "]";
    AllOnce(pr, Set(members), members, x, y);
    ArrangedOnce(s, t, x);
  }

  lemma FiledOnce(pr: Printer, items: seq<Item>, texts: seq<string>, keys: seq<string>, a: seq<string>, b: seq<string>)
    requires Arranged(keys, ItemNames(items))
    requires Filed(pr, items, texts, keys, a) && Filed(pr, items, texts, keys, b)
    ensures a == b
  {
    forall k | 0 <= k < |keys|
      ensures a[k] == b[k]
    {
      assert keys[k] in multiset(keys);
      var i :| 0 <= i < |items| && ItemNames(items)[i] == keys[k];
      assert items[i].name == keys[k];
    }
  }

  lemma {:induction false} MappingOnce(pr: Printer, items: seq<Item>, a: string, b: string)
    requires Spells(pr, Mapping(items), a) && Spells(pr, Mapping(items), b)
    ensures a == b
    decreases Mapping(items), 1
  {
    hide Arranged, Filed, Collides;
    var x: seq<string>, keys: seq<string>, s: seq<string> :| |x| == |items|
      && (forall i :: 0 <= i < |items| ==> Spells(pr, items[i].value, x[i]))
      && Arranged(keys, ItemNames(items)) && Filed(pr, items, x, keys, s) && a == "{" + Commas(s) + "}";
    var y: seq<string>, keys': seq<string>, t: seq<string> :| |y| == |items|
      && (forall i :: 0 <= i < |items| ==> Spells(pr, items[i].value, y[i]))
      && Arranged(keys', ItemNames(items)) && Filed(pr, items, y, keys', t) && b == "{" + Commas(t) + "}";
    hide Spells;
    forall i | 0 <= i < |items|
      ensures x[i] == y[i]
    {
      SpellsOnce(pr, items[i].value, x[i], y[i]);
    }
    assert x == y;
    ArrangedOnce(keys, keys', ItemNames(items));
    FiledOnce(pr, items, x, keys, s, t);
  }

  /** The canonical text of a value is the one text that spells it, and a value has none exactly when
      something in it offends. */
  lemma CanonicalSpells(pr: Printer, v: Value, text: string)
    ensures CanonicalText(pr, v) == Ok(text) <==> Spellable(v, 64) && Spells(pr, v, text)
    ensures CanonicalText(pr, v).Err? ==> Offends(v, CanonicalText(pr, v).error, 64)
  {
    AcceptedExactly(pr, v, 0);
    hide Spells, Normalise, Offends, Spellable, Print;
    if CanonicalText(pr, v).Ok? {
      NormalSpells(pr, v, 0);
      if Spells(pr, v, text) {
        SpellsOnce(pr, v, text, CanonicalText(pr, v).value);
      }
    }
  }
}
