/** One path segment against one pattern segment, where `*` spans any run of characters and `?`
    exactly one (`_segment_matches` and the searches it calls).

    The reference meaning is the three-line recursion `Glob`. The code instead cuts the pattern at
    its stars, anchors the first and last block and places the blocks in between greedily, leftmost
    first, inside a window that shrinks by the room the later blocks still need.
  */
module SegmentGlob {
  import opened Strings
  import opened BitSet

  /** What a segment pattern means. */
  ghost predicate Glob(p: string, t: string)
    decreases |p| + |t|
  {
    if p == [] then t == []
    else if p[0] == '*' then Glob(p[1..], t) || (t != [] && Glob(p, t[1..]))
    else t != [] && CharFits(p[0], t[0]) && Glob(p[1..], t[1..])
  }

  predicate CharFits(p: char, t: char) {
    p == '?' || p == t
  }

  /** A star-free block laid over `text` from position `at`. */
  ghost predicate FitsAt(block: string, text: string, at: int) {
    0 <= at && at + |block| <= |text| &&
    forall k :: 0 <= k < |block| ==> CharFits(block[k], text[at + k])
  }

  /** `r` is the leftmost position in `[start, end)` at which `block` fits inside the window, or
      -1 when there is none. */
  ghost predicate Leftmost(block: string, text: string, start: int, end: int, r: int) {
    if r == -1 then forall s :: start <= s <= end - |block| ==> !FitsAt(block, text, s)
    else start <= r <= end - |block| && FitsAt(block, text, r) &&
         forall s :: start <= s < r ==> !FitsAt(block, text, s)
  }

  /** Fitting does not depend on the text before the position. */
  lemma FitsShift(block: string, text: string, shift: nat, at: nat)
    requires shift <= |text|
    ensures FitsAt(block, text[shift..], at) <==> FitsAt(block, text, shift + at)
  {
    if at + |block| <= |text| - shift {
      assert forall k :: 0 <= k < |block| ==>
          CharFits(block[k], text[shift..][at + k]) == CharFits(block[k], text[shift + at + k]);
    }
  }

  // ---- the block searches -----------------------------------------------------------------------

  /** `_anchored_match`: a star-free block against a chunk of its own length. */
  method AnchoredMatch(block: string, chunk: string) returns (ok: bool)
    ensures ok <==> |block| == |chunk| && FitsAt(block, chunk, 0)
  {
    if |block| != |chunk| {
      return false;
    }
    if '?' !in block {
      assert block != chunk ==> exists k :: 0 <= k < |block| && block[k] != chunk[k];
      return block == chunk;
    }
    if multiset(block)['?'] == |block| {
      AllWild(block);
      return true;
    }
    for k := 0 to |block|
      invariant forall j :: 0 <= j < k ==> CharFits(block[j], chunk[j])
    {
      if block[k] != '?' && block[k] != chunk[k] {
        assert !CharFits(block[k], chunk[0 + k]);
        return false;
      }
    }
    return true;
  }

  lemma AllWild(block: string)
    requires multiset(block)['?'] == |block|
    ensures forall k :: 0 <= k < |block| ==> block[k] == '?'
  {
    var others := multiset(block)['?' := 0];
    assert |multiset(block)| == |others| + multiset(block)['?'];
    assert others == multiset{};
    forall k | 0 <= k < |block| ensures block[k] == '?' {
      assert block[k] in multiset(block) && block[k] !in others;
    }
  }

  /** `str.find(needle, start, end)`. */
  function Find(needle: string, text: string, start: nat, end: nat): (r: int)
    requires end <= |text|
    decreases end - start
  {
    if start + |needle| > end then -1
    else if text[start..start + |needle|] == needle then start
    else Find(needle, text, start + 1, end)
  }

  lemma {:induction false} FindLeftmost(block: string, text: string, start: nat, end: nat)
    requires end <= |text| && '?' !in block
    ensures Leftmost(block, text, start, end, Find(block, text, start, end))
    decreases end - start
  {
    if start + |block| <= end {
      var here := text[start..start + |block|];
      if here != block {
        assert exists k :: 0 <= k < |block| && here[k] != block[k];
        FindLeftmost(block, text, start + 1, end);
      }
    }
  }

  /** Bit `k` of the Shift-And state after reading `text[start..i]`: the first `k + 1` characters
      of the block match the text ending at `i`, starting no earlier than `start`. */
  ghost predicate PrefixEndsAt(block: string, text: string, start: int, i: int, k: int)
    requires 0 <= k < |block|
  {
    start <= i - k - 1 && FitsAt(block[..k + 1], text, i - k - 1)
  }

  lemma PrefixEndsAtNext(block: string, text: string, start: int, i: int, k: int)
    requires 0 <= start <= i < |text| && 0 <= k < |block|
    ensures PrefixEndsAt(block, text, start, i + 1, k) <==>
              CharFits(block[k], text[i]) && (k == 0 || PrefixEndsAt(block, text, start, i, k - 1))
  {
    if PrefixEndsAt(block, text, start, i + 1, k) {
      assert block[..k + 1][k] == block[k] && text[i - k + k] == text[i];
      if k > 0 {
        forall j | 0 <= j < k ensures CharFits(block[..k][j], text[i - k + j]) {
          assert block[..k][j] == block[..k + 1][j];
        }
      }
    }
  }

  /** The mask tables: bit `k` of `wild` marks a `?`, bit `k` of `literals[c]` marks a `c`. */
  ghost predicate Tables(block: string, n: int, literals: map<char, nat>, wild: nat) {
    && (forall k: nat :: Bit(wild, k) <==> k < n && k < |block| && block[k] == '?')
    && (forall c, k: nat {:trigger Bit(Lookup(literals, c), k)} ::
          Bit(Lookup(literals, c), k) <==> k < n && k < |block| && block[k] == c && c != '?')
  }

  function Lookup(literals: map<char, nat>, c: char): nat {
    if c in literals then literals[c] else 0
  }

  method BuildTables(block: string) returns (literals: map<char, nat>, wild: nat)
    ensures Tables(block, |block|, literals, wild)
  {
    literals, wild := map[], 0;
    ZeroBits();
    for index := 0 to |block|
      invariant Tables(block, index, literals, wild)
    {
      OneBits(index);
      if block[index] == '?' {
        OrBits(wild, ShiftLeft(1, index));
        wild := Or(wild, ShiftLeft(1, index));
      } else {
        var c := block[index];
        OrBits(Lookup(literals, c), ShiftLeft(1, index));
        ghost var before := literals;
        literals := literals[c := Or(Lookup(literals, c), ShiftLeft(1, index))];
        assert Lookup(literals, c) == Or(Lookup(before, c), ShiftLeft(1, index));
        assert forall d :: d != c ==> Lookup(literals, d) == Lookup(before, d);
      }
    }
  }

  /** One step of the search: shift, set bit 0, and keep what agrees with the character read. */
  lemma StateStep(block: string, text: string, start: int, i: int, state: nat, mask: nat, next: nat)
    requires 0 <= start <= i < |text|
    requires forall k: nat :: Bit(state, k) <==> k < |block| && PrefixEndsAt(block, text, start, i, k)
    requires forall k: nat :: Bit(mask, k) <==> k < |block| && CharFits(block[k], text[i])
    requires next == And(Or(ShiftLeft(state, 1), 1), mask)
    ensures forall k: nat :: Bit(next, k) <==> k < |block| && PrefixEndsAt(block, text, start, i + 1, k)
  {
    forall k: nat
      ensures Bit(next, k) <==> k < |block| && PrefixEndsAt(block, text, start, i + 1, k)
    {
      AndBits(Or(ShiftLeft(state, 1), 1), mask);
      ShiftOneBits(state);
      if k < |block| {
        PrefixEndsAtNext(block, text, start, i, k);
      }
    }
  }

  /** `_shift_and_find`: the bit-parallel search, one shift, one or and one and per character. */
  method ShiftAndFind(block: string, text: string, start: nat, end: nat) returns (r: int)
    requires |block| >= 1 && end <= |text|
    ensures Leftmost(block, text, start, end, r)
  {
    var size := |block|;
    var accept := ShiftLeft(1, size - 1);
    var literals, wild := BuildTables(block);
    var state := 0;
    ZeroBits();
    var index := start;
    while index < end
      invariant start <= index && (index <= end || index == start)
      invariant forall k: nat :: Bit(state, k) <==>
                  k < size && PrefixEndsAt(block, text, start, index, k)
      invariant forall s :: start <= s <= index - size ==> !FitsAt(block, text, s)
    {
      var mask := Or(Lookup(literals, text[index]), wild);
      OrBits(Lookup(literals, text[index]), wild);
      var next := And(Or(ShiftLeft(state, 1), 1), mask);
      StateStep(block, text, start, index, state, mask, next);
      state := next;
      TestBit(state, size - 1);
      assert block[..size - 1 + 1] == block;
      if And(state, accept) != 0 {
        assert PrefixEndsAt(block, text, start, index + 1, size - 1);
        return index - size + 1;
      }
      assert start <= index + 1 - size ==> !FitsAt(block, text, index + 1 - size);
      index := index + 1;
    }
    return -1;
  }

  /** `_find_block`: three shortcuts, then the bit-parallel search. The window may be empty, or
      end before it starts. */
  method FindBlock(block: string, text: string, start: nat, end: int) returns (r: int)
    requires end <= |text|
    ensures Leftmost(block, text, start, end, r)
  {
    var size := |block|;
    if size == 0 {
      return if start <= end then start else -1;
    }
    var last := end - size;
    if last < start {
      return -1;
    }
    if '?' !in block {
      FindLeftmost(block, text, start, last + size);
      return Find(block, text, start, last + size);
    }
    if multiset(block)['?'] == size {
      AllWild(block);
      return start;
    }
    r := ShiftAndFind(block, text, start, last + size);
  }

  // ---- why greedy placement is complete ---------------------------------------------------------

  ghost function TotalLength(blocks: seq<string>): nat {
    if blocks == [] then 0 else |blocks[0]| + TotalLength(blocks[1..])
  }

  /** A star-free block at the front is matched by exactly its own length of text. */
  lemma {:induction false} GlobBlock(b: string, rest: string, t: string)
    requires '*' !in b
    ensures Glob(b + rest, t) <==> FitsAt(b, t, 0) && Glob(rest, t[|b|..])
  {
    if b == [] {
      assert b + rest == rest;
    } else {
      var p := b + rest;
      assert p[0] == b[0] && p[1..] == b[1..] + rest;
      assert b[0] in b;
      if t != [] {
        GlobBlock(b[1..], rest, t[1..]);
        if |b| <= |t| {
          assert t[1..][|b[1..]|..] == t[|b|..];
        }
        if FitsAt(b, t, 0) {
          assert FitsAt(b[1..], t[1..], 0);
        }
        if CharFits(b[0], t[0]) && FitsAt(b[1..], t[1..], 0) {
          forall k | 0 <= k < |b| ensures CharFits(b[k], t[0 + k]) {
            if k > 0 {
              assert CharFits(b[1..][k - 1], t[1..][0 + (k - 1)]);
            }
          }
        }
      }
    }
  }

  /** A star matches from any later position of the text. */
  lemma {:induction false} GlobStar(q: string, t: string) returns (s: nat)
    requires Glob(['*'] + q, t)
    ensures s <= |t| && Glob(q, t[s..])
    decreases |t|
  {
    var p := ['*'] + q;
    assert p[1..] == q;
    if Glob(q, t) {
      s := 0;
      assert t[0..] == t;
    } else {
      var s' := GlobStar(q, t[1..]);
      s := s' + 1;
      assert t[1..][s'..] == t[s..];
    }
  }

  /** What a star can match it can match with more text in front. */
  lemma {:induction false} GlobStarEarlier(q: string, t: string, s: nat)
    requires s <= |t| && (Glob(q, t[s..]) || Glob(['*'] + q, t[s..]))
    ensures Glob(['*'] + q, t)
    decreases s
  {
    var p := ['*'] + q;
    assert p[1..] == q;
    if s == 0 {
      assert t[0..] == t;
    } else {
      assert t[1..][s - 1..] == t[s..];
      GlobStarEarlier(q, t[1..], s - 1);
    }
  }

  /** Starred blocks need at least the room of their characters. */
  lemma {:induction false} RoomNeeded(blocks: seq<string>, t: string)
    requires Without(blocks, '*') && Glob(LedBy(blocks, '*'), t)
    ensures TotalLength(blocks) <= |t|
    decreases |blocks|
  {
    if blocks != [] {
      var rest := LedBy(blocks[1..], '*');
      assert LedBy(blocks, '*') == ['*'] + (blocks[0] + rest);
      var s := GlobStar(blocks[0] + rest, t);
      GlobBlock(blocks[0], rest, t[s..]);
      RoomNeeded(blocks[1..], t[s..][|blocks[0]|..]);
    }
  }

  /** The last starred block ends where the text ends. */
  lemma {:induction false} TailEndsText(blocks: seq<string>, t: string)
    requires blocks != [] && Without(blocks, '*') && Glob(LedBy(blocks, '*'), t)
    ensures FitsAt(blocks[|blocks| - 1], t, |t| - |blocks[|blocks| - 1]|)
    decreases |blocks|
  {
    var b, rest := blocks[0], LedBy(blocks[1..], '*');
    var tail := blocks[|blocks| - 1];
    assert LedBy(blocks, '*') == ['*'] + (b + rest);
    var s := GlobStar(b + rest, t);
    GlobBlock(b, rest, t[s..]);
    var after := t[s..][|b|..];
    if |blocks| == 1 {
      assert rest == [];
      assert after == [];
      hide Glob;
      FitsShift(b, t, s, 0);
    } else {
      assert blocks[1..][|blocks| - 2] == tail;
      TailEndsText(blocks[1..], after);
      assert after == t[s + |b|..];
      FitsShift(tail, t, s + |b|, |after| - |tail|);
    }
  }

  /** A final starred block matches exactly when it fits at the end. */
  lemma LastStar(tail: string, t: string)
    requires '*' !in tail && FitsAt(tail, t, |t| - |tail|)
    ensures Glob(LedBy([tail], '*'), t)
  {
    var s := |t| - |tail|;
    assert tail + [] == tail;
    assert LedBy([tail], '*') == ['*'] + tail;
    FitsShift(tail, t, s, 0);
    GlobBlock(tail, [], t[s..]);
    GlobStarEarlier(tail, t, s);
  }

  /** The exchange step. With the leftmost placement `found` of the next block inside the window,
      everything after it can be matched if it could be matched at all; and if the window holds no
      placement, nothing outside it would have left enough room. */
  lemma GreedyStep(b: string, rest: seq<string>, t: string, position: nat, found: int)
    requires '*' !in b && Without(rest, '*') && position <= |t|
    requires Leftmost(b, t, position, |t| - TotalLength(rest), found)
    ensures found == -1 ==> !Glob(LedBy([b] + rest, '*'), t[position..])
    ensures found != -1 && rest != [] ==>
              (Glob(LedBy([b] + rest, '*'), t[position..]) <==> Glob(LedBy(rest, '*'), t[found + |b|..]))
  {
    hide Glob, TotalLength;
    if Glob(LedBy([b] + rest, '*'), t[position..]) {
      GreedyLosesNothing(b, rest, t, position, found);
    }
    if found != -1 && rest != [] && Glob(LedBy(rest, '*'), t[found + |b|..]) {
      GreedyInventsNothing(b, rest, t, position, found);
    }
  }

  lemma GreedyLosesNothing(b: string, rest: seq<string>, t: string, position: nat, found: int)
    requires '*' !in b && Without(rest, '*') && position <= |t|
    requires Leftmost(b, t, position, |t| - TotalLength(rest), found)
    requires Glob(LedBy([b] + rest, '*'), t[position..])
    ensures found != -1
    ensures rest != [] ==> Glob(LedBy(rest, '*'), t[found + |b|..])
  {
    var q, u := LedBy(rest, '*'), t[position..];
    assert ([b] + rest)[1..] == rest;
    assert LedBy([b] + rest, '*') == ['*'] + (b + q);
    assert rest != [] ==> q == ['*'] + (rest[0] + LedBy(rest[1..], '*'));
    hide Glob, TotalLength, LedBy;
    var s := GlobStar(b + q, u);
    GlobBlock(b, q, u[s..]);
    var at := position + s;
    assert u[s..] == t[at..];
    FitsShift(b, t, at, 0);
    var after := t[at + |b|..];
    assert t[at..][|b|..] == after;
    RoomNeeded(rest, after);
    assert found != -1 && found <= at;
    if rest != [] {
      var q' := rest[0] + LedBy(rest[1..], '*');
      var d := at - found;
      assert t[found + |b|..][d..] == after;
      GlobStarEarlier(q', t[found + |b|..], d);
    }
  }

  lemma GreedyInventsNothing(b: string, rest: seq<string>, t: string, position: nat, found: nat)
    requires '*' !in b && position <= found && FitsAt(b, t, found)
    requires Glob(LedBy(rest, '*'), t[found + |b|..])
    ensures Glob(LedBy([b] + rest, '*'), t[position..])
  {
    var q, u, d := LedBy(rest, '*'), t[position..], found - position;
    assert ([b] + rest)[1..] == rest;
    assert LedBy([b] + rest, '*') == ['*'] + (b + q);
    hide Glob;
    assert u[d..] == t[found..];
    FitsShift(b, t, found, 0);
    assert u[d..][|b|..] == t[found + |b|..];
    GlobBlock(b, q, u[d..]);
    GlobStarEarlier(b + q, u, d);
  }

  // ---- the matcher ------------------------------------------------------------------------------

  method SumOfLengths(blocks: seq<string>) returns (n: nat)
    ensures n == TotalLength(blocks)
  {
    n := 0;
    for i := 0 to |blocks|
      invariant n + TotalLength(blocks[i..]) == TotalLength(blocks)
    {
      assert blocks[i..][1..] == blocks[i + 1..];
      n := n + |blocks[i]|;
    }
  }

  /** `_segment_matches`. */
  method SegmentMatches(pattern: string, text: string) returns (ok: bool)
    ensures ok <==> Glob(pattern, text)
  {
    hide Glob, Split;
    var blocks := Split(pattern, '*');
    SplitRebuilds(pattern, '*');
    if |blocks| == 1 {
      assert pattern == blocks[0] + [] && pattern == blocks[0];
      LoneBlock(pattern, text);
      ok := AnchoredMatch(pattern, text);
      return;
    }
    var head, tail := blocks[0], blocks[|blocks| - 1];
    Anchors(head, blocks[1..], text);
    if |text| < |head| + |tail| {
      return false;
    }
    ok := AnchoredMatch(head, text[..|head|]);
    FitsPrefix(head, text);
    if !ok {
      return false;
    }
    if tail != [] {
      ok := AnchoredMatch(tail, text[|text| - |tail|..]);
      FitsShift(tail, text, |text| - |tail|, 0);
      if !ok {
        return false;
      }
    }
    assert blocks[1..|blocks| - 1] + [tail] == blocks[1..];
    ok := PlaceBlocks(blocks[1..|blocks| - 1], tail, text, |head|);
  }

  /** Without a star there is nothing but the block. */
  lemma LoneBlock(block: string, text: string)
    requires '*' !in block
    ensures Glob(block, text) <==> |block| == |text| && FitsAt(block, text, 0)
  {
    assert block + [] == block;
    GlobBlock(block, [], text);
  }

  lemma FitsPrefix(block: string, text: string)
    requires |block| <= |text|
    ensures FitsAt(block, text[..|block|], 0) <==> FitsAt(block, text, 0)
  {
    assert forall k :: 0 <= k < |block| ==>
        CharFits(block[k], text[..|block|][0 + k]) == CharFits(block[k], text[0 + k]);
  }

  /** What the two anchored comparisons decide: both are necessary, and once the head fits only the
      starred blocks remain to be matched. */
  lemma Anchors(head: string, starred: seq<string>, text: string)
    requires '*' !in head && starred != [] && Without(starred, '*')
    ensures var tail := starred[|starred| - 1];
            Glob(head + LedBy(starred, '*'), text) ==>
              |head| + |tail| <= |text| && FitsAt(head, text, 0) && FitsAt(tail, text, |text| - |tail|)
    ensures FitsAt(head, text, 0) ==>
              (Glob(head + LedBy(starred, '*'), text) <==> Glob(LedBy(starred, '*'), text[|head|..]))
  {
    var tail := starred[|starred| - 1];
    GlobBlock(head, LedBy(starred, '*'), text);
    if Glob(head + LedBy(starred, '*'), text) {
      RoomNeeded(starred, text[|head|..]);
      TailRoom(starred);
      TailEndsText(starred, text[|head|..]);
      FitsShift(tail, text, |head|, |text| - |head| - |tail|);
    }
  }

  lemma {:induction false} TailRoom(blocks: seq<string>)
    requires blocks != []
    ensures |blocks[|blocks| - 1]| <= TotalLength(blocks)
  {
    if |blocks| > 1 {
      TailRoom(blocks[1..]);
    }
  }

  lemma {:induction false} TotalLengthAppend(blocks: seq<string>, b: string)
    ensures TotalLength(blocks + [b]) == TotalLength(blocks) + |b|
  {
    if blocks != [] {
      TotalLengthAppend(blocks[1..], b);
      assert (blocks + [b])[1..] == blocks[1..] + [b];
    }
  }

  /** The placement loop of `_segment_matches`, between the anchored head and the anchored tail. */
  method PlaceBlocks(middle: seq<string>, tail: string, text: string, start: nat) returns (ok: bool)
    requires Without(middle, '*') && '*' !in tail
    requires start + |tail| <= |text| && FitsAt(tail, text, |text| - |tail|)
    ensures ok <==> Glob(LedBy(middle + [tail], '*'), text[start..])
  {
    hide Glob, LedBy;
    var position := start;
    var limit := |text| - |tail|;
    var stillNeeded := SumOfLengths(middle);
    assert middle[0..] == middle;
    for i := 0 to |middle|
      invariant start <= position <= limit
      invariant stillNeeded == TotalLength(middle[i..])
      invariant Glob(LedBy(middle + [tail], '*'), text[start..]) <==>
                Glob(LedBy(middle[i..] + [tail], '*'), text[position..])
    {
      var block := middle[i];
      ghost var rest := middle[i + 1..] + [tail];
      assert middle[i..] + [tail] == [block] + rest;
      assert middle[i..][1..] == middle[i + 1..];
      stillNeeded := stillNeeded - |block|;
      TotalLengthAppend(middle[i + 1..], tail);
      var found := FindBlock(block, text, position, limit - stillNeeded);
      GreedyStep(block, rest, text, position, found);
      if found < 0 {
        return false;
      }
      position := found + |block|;
    }
    assert middle[|middle|..] + [tail] == [tail];
    FitsShift(tail, text, position, limit - position);
    LastStar(tail, text[position..]);
    return true;
  }
}
