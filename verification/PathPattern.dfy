/** Path patterns: canonicalisation, compilation, matching of whole paths, canonical rule lists and
    the filesystem verdict built on them (`policy_v1.py` and `_FilesystemRules`).
  */
module PathPattern {
  import opened Strings
  import opened SegmentGlob
  import opened PathGlob

  const MAX_PATTERN_LENGTH: nat := 4096
  const MAX_RULE_COUNT: nat := 4096
  const MAX_SEGMENTS: nat := 256

  datatype PathError =
    | EmptyPath | TooLong | ControlCharacter | Backslash | ExpansionNotSupported | PlatformPath
    | NotAbsolute | ParentTraversal | TooDeep | UnsupportedPattern | TooManyRules | DuplicateRule

  // ---- canonical segments -----------------------------------------------------------------------

  /** The checks made on the raw text before it is split, in their order. */
  function Refusal(raw: string): Option<PathError> {
    if raw == "" then Some(EmptyPath)
    else if |raw| > MAX_PATTERN_LENGTH then Some(TooLong)
    else if exists i :: 0 <= i < |raw| && raw[i] < ' ' then Some(ControlCharacter)
    else if '\\' in raw then Some(Backslash)
    else if raw[0] in "~$%" then Some(ExpansionNotSupported)
    else if |raw| >= 2 && IsLetter(raw[0]) && raw[1] == ':' then Some(PlatformPath)
    else if raw[0] != '/' then Some(NotAbsolute)
    else None
  }

  predicate IsLetter(c: char) {
    'A' <= c <= 'Z' || 'a' <= c <= 'z'
  }

  predicate IsKept(part: string) {
    part != "" && part != "."
  }

  function Kept(parts: seq<string>): seq<string> {
    if parts == [] then []
    else if IsKept(parts[0]) then [parts[0]] + Kept(parts[1..])
    else Kept(parts[1..])
  }

  /** The outcome of canonicalisation. */
  function Normalised(raw: string): Result<seq<string>, PathError> {
    match Refusal(raw)
    case Some(error) => Err(error)
    case None =>
      var parts := Split(raw, '/');
      if ".." in parts then Err(ParentTraversal)
      else if |Kept(parts)| > MAX_SEGMENTS then Err(TooDeep)
      else Ok(Kept(parts))
  }

  /** `"/" + "/".join(segments)`. */
  function Canonical(segments: seq<string>): string {
    if segments == [] then "/" else LedBy(segments, '/')
  }

  /** `_normalise_segments`. */
  method NormaliseSegments(raw: string) returns (r: Result<seq<string>, PathError>)
    ensures r == Normalised(raw)
  {
    var refused := Refusal(raw);
    if refused.Some? {
      return Err(refused.value);
    }
    var parts := Split(raw, '/');
    var segments: seq<string> := [];
    assert parts[0..] == parts;
    for i := 0 to |parts|
      invariant segments + Kept(parts[i..]) == Kept(parts)
      invariant forall j :: 0 <= j < i ==> parts[j] != ".."
    {
      assert parts[i..][1..] == parts[i + 1..];
      if parts[i] == "" || parts[i] == "." {
        continue;
      }
      if parts[i] == ".." {
        return Err(ParentTraversal);
      }
      assert segments + ([parts[i]] + Kept(parts[i + 1..])) == segments + [parts[i]] + Kept(parts[i + 1..]);
      segments := segments + [parts[i]];
    }
    assert segments + Kept([]) == segments && parts[|parts|..] == [];
    if |segments| > MAX_SEGMENTS {
      return Err(TooDeep);
    }
    return Ok(segments);
  }

  /** What canonical segments look like. */
  ghost predicate CanonicalSegments(segments: seq<string>) {
    Without(segments, '/') && forall i :: 0 <= i < |segments| ==> IsKept(segments[i]) && segments[i] != ".."
  }

  lemma {:induction false} KeptCanonical(parts: seq<string>)
    requires Without(parts, '/') && ".." !in parts
    ensures CanonicalSegments(Kept(parts))
  {
    if parts != [] {
      assert Without(parts[1..], '/') && ".." !in parts[1..];
      KeptCanonical(parts[1..]);
    }
  }

  lemma {:induction false} KeptAll(segments: seq<string>)
    requires CanonicalSegments(segments)
    ensures Kept(segments) == segments && ".." !in segments
  {
    if segments != [] {
      assert CanonicalSegments(segments[1..]);
      KeptAll(segments[1..]);
      assert segments == [segments[0]] + segments[1..];
    }
  }

  /** Canonicalising never adds a character. */
  lemma {:induction false} KeptShorter(parts: seq<string>)
    ensures |LedBy(Kept(parts), '/')| <= |LedBy(parts, '/')|
    ensures forall c :: c in LedBy(Kept(parts), '/') ==> c in LedBy(parts, '/')
  {
    if parts != [] {
      KeptShorter(parts[1..]);
      if IsKept(parts[0]) {
        assert Kept(parts)[1..] == Kept(parts[1..]);
      }
    }
  }

  /** An accepted path starts with a separator, so its first part is empty. */
  lemma LeadingSeparator(raw: string)
    requires Normalised(raw).Ok?
    ensures Without(Split(raw, '/'), '/') && raw == LedBy(Split(raw, '/')[1..], '/')
    ensures Kept(Split(raw, '/')) == Kept(Split(raw, '/')[1..])
  {
    var parts := Split(raw, '/');
    SplitRebuilds(raw, '/');
    assert parts[0] == [];
  }

  /** Canonicalising keeps to the characters of the path and to its length. */
  lemma CanonicalWithin(raw: string)
    requires Normalised(raw).Ok?
    ensures var text := Canonical(Normalised(raw).value);
            |text| <= |raw| && text[0] == '/' && forall i :: 0 <= i < |text| ==> text[i] in raw
  {
    LeadingSeparator(raw);
    KeptShorter(Split(raw, '/')[1..]);
    assert raw[0] == '/';
  }

  /** The canonical text of an accepted path is itself accepted text, no longer than the path. */
  lemma CanonicalText(raw: string)
    requires Normalised(raw).Ok?
    ensures var segments := Normalised(raw).value;
            CanonicalSegments(segments) && |segments| <= MAX_SEGMENTS &&
            |Canonical(segments)| <= |raw| && Refusal(Canonical(segments)) == None
  {
    LeadingSeparator(raw);
    KeptCanonical(Split(raw, '/'));
    CanonicalWithin(raw);
    var text := Canonical(Normalised(raw).value);
    forall i | 0 <= i < |text| ensures text[i] >= ' ' && text[i] != '\\' {
      assert text[i] in raw;
    }
  }

  lemma CanonicalSplits(segments: seq<string>)
    requires CanonicalSegments(segments)
    ensures ".." !in Split(Canonical(segments), '/') && Kept(Split(Canonical(segments), '/')) == segments
  {
    KeptAll(segments);
    if segments == [] {
      assert "/" == "" + LedBy([""], '/');
      SplitJoined("", [""], '/');
      assert [""] + [""] == ["", ""];
    } else {
      SplitJoined("", segments, '/');
      assert "" + LedBy(segments, '/') == Canonical(segments);
      assert ([""] + segments)[1..] == segments;
    }
  }

  /** Canonicalisation is a normal form: the canonical text of any accepted path gives back the
      same segments, and always passes the caps. */
  lemma CanonicalFixpoint(raw: string)
    requires Normalised(raw).Ok?
    ensures Normalised(Canonical(Normalised(raw).value)) == Normalised(raw)
  {
    CanonicalText(raw);
    CanonicalSplits(Normalised(raw).value);
  }

  /** What every accepted path looks like. */
  lemma AcceptedPaths(raw: string)
    requires Normalised(raw).Ok?
    ensures 0 < |raw| <= 4096 && raw[0] == '/' && '\\' !in raw && forall c :: c in raw ==> ' ' <= c
    ensures |Normalised(raw).value| <= 256
  {
  }

  /** What each refusal of the raw text means, in the order of the checks. */
  lemma RefusalsMean(raw: string)
    ensures Normalised(raw) == Err(EmptyPath) <==> raw == ""
    ensures Normalised(raw) == Err(TooLong) <==> |raw| > 4096
    ensures Normalised(raw) == Err(ControlCharacter) <==> |raw| <= 4096 && exists c :: c in raw && c < ' '
    ensures Normalised(raw) == Err(Backslash) <==>
              |raw| <= 4096 && (forall c :: c in raw ==> ' ' <= c) && '\\' in raw
    ensures Normalised(raw) in {Err(ExpansionNotSupported), Err(PlatformPath), Err(NotAbsolute)} <==>
              0 < |raw| <= 4096 && raw[0] != '/' && forall c :: c in raw ==> ' ' <= c && c != '\\'
    ensures Normalised(raw) == Err(ExpansionNotSupported) ==> raw[0] in {'~', '$', '%'}
    ensures Normalised(raw) == Err(PlatformPath) ==> IsLetter(raw[0]) && raw[1..2] == ":"
  {
    if c :| c in raw && c < ' ' {
      var i :| 0 <= i < |raw| && raw[i] == c;
    }
    if i :| 0 <= i < |raw| && raw[i] < ' ' {
      assert raw[i] in raw;
    }
  }

  /** Text a path may be continued with. */
  ghost predicate PlainPart(part: string) {
    '/' !in part && '\\' !in part && forall c :: c in part ==> ' ' <= c
  }

  lemma RefusalAppend(raw: string, part: string)
    requires Refusal(raw).None? && PlainPart(part) && |raw| + 1 + |part| <= MAX_PATTERN_LENGTH
    ensures Refusal(raw + "/" + part).None?
  {
    var whole := raw + "/" + part;
    forall i | 0 <= i < |whole|
      ensures !(whole[i] < ' ')
    {
      if i > |raw| {
        assert whole[i] in part;
      }
    }
  }

  lemma RefusalFirst(part: string)
    requires PlainPart(part) && 1 + |part| <= MAX_PATTERN_LENGTH
    ensures Refusal("/" + part).None?
  {
    var whole := "/" + part;
    forall i | 0 <= i < |whole|
      ensures !(whole[i] < ' ')
    {
      if i > 0 {
        assert whole[i] in part;
      }
    }
  }

  lemma {:induction false} KeptOneMore(parts: seq<string>, part: string)
    ensures Kept(parts + [part]) == if IsKept(part) then Kept(parts) + [part] else Kept(parts)
  {
    if parts != [] {
      assert (parts + [part])[1..] == parts[1..] + [part];
      KeptOneMore(parts[1..], part);
    }
  }

  /** What one more part does to a path, which with the first part determines every accepted path's
      segments: an empty part and "." are dropped, ".." refuses the path, anything else is a segment. */
  function WithPart(segments: seq<string>, part: string): Result<seq<string>, PathError> {
    if part == ".." then Err(ParentTraversal)
    else if part == "" || part == "." then Ok(segments)
    else if |segments| == 256 then Err(TooDeep)
    else Ok(segments + [part])
  }

  lemma FirstPart(part: string)
    requires PlainPart(part) && 1 + |part| <= 4096
    ensures Normalised("/" + part) == WithPart([], part)
  {
    RefusalFirst(part);
    assert "/" + part == [] + ['/'] + part;
    SplitAppend([], part, '/');
    assert Split([], '/') + [part] == [[], part];
    KeptOneMore([[]], part);
    assert Kept([[]]) == [];
  }

  lemma NextPart(raw: string, part: string)
    requires Normalised(raw).Ok? && PlainPart(part) && |raw| + 1 + |part| <= 4096
    ensures Normalised(raw + "/" + part) == WithPart(Normalised(raw).value, part)
  {
    var parts := Split(raw, '/');
    assert ".." !in parts && Normalised(raw).value == Kept(parts);
    RefusalAppend(raw, part);
    SplitAppend(raw, part, '/');
    KeptOneMore(parts, part);
    assert ".." in parts + [part] <==> part == "..";
    hide Refusal, Split, Kept;
    assert Refusal(raw + "/" + part).None? && Split(raw + "/" + part, '/') == parts + [part];
  }

  /** A refused traversal cannot be undone by what follows. */
  lemma TraversalStays(raw: string, part: string)
    requires Normalised(raw) == Err(ParentTraversal) && PlainPart(part) && |raw| + 1 + |part| <= 4096
    ensures Normalised(raw + "/" + part) == Err(ParentTraversal)
  {
    RefusalAppend(raw, part);
    SplitAppend(raw, part, '/');
  }

  /** Distinct segment lists have distinct canonical texts. */
  lemma CanonicalInjective(a: seq<string>, b: seq<string>)
    requires CanonicalSegments(a) && CanonicalSegments(b) && Canonical(a) == Canonical(b)
    ensures a == b
  {
    CanonicalSplits(a);
    CanonicalSplits(b);
  }

  // ---- compiled patterns ------------------------------------------------------------------------

  datatype Pattern = Pattern(raw: string, pattern: string, segments: seq<string>,
                             hasWildcard: bool, subtree: bool)

  predicate HasDoubleStar(s: string) {
    exists i :: 0 <= i < |s| - 1 && s[i] == '*' && s[i + 1] == '*'
  }

  predicate IsWild(segment: string) {
    '*' in segment || '?' in segment
  }

  /** `compile_pattern`. */
  function Compile(raw: string): Result<Pattern, PathError> {
    match Normalised(raw)
    case Err(error) => Err(error)
    case Ok(segments) =>
      if exists c :: c in "[]{}!\\" && c in raw then Err(UnsupportedPattern)
      else if exists s :: s in segments && s != ANY_DEPTH && HasDoubleStar(s) then Err(UnsupportedPattern)
      else
        var wild := exists s :: s in segments && IsWild(s);
        Ok(Pattern(raw, Canonical(segments), segments, wild, !wild))
  }

  ghost predicate Compiled(p: Pattern) {
    Compile(p.raw) == Ok(p)
  }

  lemma {:induction false} WildText(segments: seq<string>)
    ensures (exists s :: s in segments && IsWild(s)) <==> IsWild(LedBy(segments, '/'))
  {
    if segments != [] {
      WildText(segments[1..]);
      var first, rest := segments[0], LedBy(segments[1..], '/');
      assert LedBy(segments, '/') == ['/'] + first + rest;
      assert IsWild(['/'] + first + rest) <==> IsWild(first) || IsWild(rest);
      assert forall s :: s in segments <==> s == first || s in segments[1..];
    }
  }

  /** A pattern is accepted exactly when its path is, it uses no unsupported character, and a double
      star stands alone in its segment; it has a wildcard exactly when its canonical text shows one. */
  lemma CompilesExactly(raw: string)
    ensures Compile(raw).Ok? <==>
              Normalised(raw).Ok? && (forall c :: c in raw ==> c !in "[]{}!\\") &&
              forall s, i :: s in Normalised(raw).value && 0 <= i < |s| - 1 && s[i] == '*' && s[i + 1] == '*' ==>
                s == "**"
    ensures Compile(raw).Ok? ==>
              var p := Compile(raw).value;
              && p.raw == raw && Ok(p.segments) == Normalised(raw) && p.pattern == Canonical(p.segments)
              && (p.hasWildcard <==> '*' in p.pattern || '?' in p.pattern) && p.subtree == !p.hasWildcard
  {
    if Normalised(raw).Ok? {
      WildText(Normalised(raw).value);
    }
  }

  /** Recompiling a pattern's canonical text gives the pattern back. */
  lemma CompileFixpoint(p: Pattern)
    requires Compiled(p)
    ensures Compile(p.pattern) == Ok(p.(raw := p.pattern))
  {
    CanonicalFixpoint(p.raw);
    CanonicalWithin(p.raw);
  }

  /** So the canonical text determines everything about a pattern except how it was written. */
  lemma PatternTextDecides(p: Pattern, q: Pattern)
    requires Compiled(p) && Compiled(q) && p.pattern == q.pattern
    ensures p.(raw := "") == q.(raw := "")
  {
    CompileFixpoint(p);
    CompileFixpoint(q);
  }

  // ---- matching a whole path --------------------------------------------------------------------

  /** Which canonical subjects a pattern covers. */
  ghost predicate Covers(p: Pattern, segments: seq<string>) {
    if p.hasWildcard then PathMatches(p.segments, segments) else p.segments <= segments
  }

  /** The text tells the segments. */
  lemma SegmentsOfText(a: seq<string>, b: seq<string>)
    requires Without(a, '/') && Without(b, '/') && LedBy(a, '/') == LedBy(b, '/')
    ensures a == b
  {
    SplitJoined("", a, '/');
    SplitJoined("", b, '/');
    assert ([""] + a)[1..] == a && ([""] + b)[1..] == b;
  }

  lemma SplitLed(s: string)
    ensures LedBy(Split(s, '/'), '/') == "/" + s && Without(Split(s, '/'), '/')
  {
    SplitRebuilds(s, '/');
  }

  lemma TextAndTail(ta: string, tb: string)
    requires ta + "/" <= tb
    ensures tb == ta + ("/" + tb[|ta| + 1..])
  {
  }

  lemma SegmentsOfPrefix(a: seq<string>, b: seq<string>)
    requires Without(a, '/') && Without(b, '/') && LedBy(a, '/') + "/" <= LedBy(b, '/')
    ensures a <= b
  {
    hide LedBy, Split, Without;
    TextAndTail(LedBy(a, '/'), LedBy(b, '/'));
    var tail := LedBy(b, '/')[|LedBy(a, '/')| + 1..];
    var parts := Split(tail, '/');
    SplitLed(tail);
    LedByAppend(a, parts, '/');
    WithoutAppend(a, parts);
    SegmentsOfText(a + parts, b);
  }

  lemma WithoutAppend(a: seq<string>, b: seq<string>)
    requires Without(a, '/') && Without(b, '/')
    ensures Without(a + b, '/')
  {
  }

  /** A prefix of canonical text ending at a separator is a prefix of segments. */
  lemma TextPrefix(a: seq<string>, b: seq<string>)
    requires CanonicalSegments(a) && CanonicalSegments(b)
    ensures (LedBy(b, '/') == LedBy(a, '/') || LedBy(a, '/') + "/" <= LedBy(b, '/')) <==> a <= b
  {
    if a <= b {
      LedByAppend(a, b[|a|..], '/');
      assert b == a + b[|a|..];
      if b != a {
        assert LedBy(b[|a|..], '/')[0] == '/';
      }
    } else if LedBy(b, '/') == LedBy(a, '/') {
      SegmentsOfText(b, a);
    } else if LedBy(a, '/') + "/" <= LedBy(b, '/') {
      SegmentsOfPrefix(a, b);
    }
  }

  /** The root has no text of its own, which is why the code answers for it separately. */
  lemma StringPrefixIsSegmentPrefix(a: seq<string>, b: seq<string>)
    requires CanonicalSegments(a) && CanonicalSegments(b)
    ensures (Canonical(a) == "/" || Canonical(b) == Canonical(a) || Canonical(a) + "/" <= Canonical(b))
            <==> a <= b
  {
    if a == [] {
    } else {
      TextPrefix(a, b);
      assert a[0] != "" && Canonical(a)[1] == a[0][0];
      if b == [] {
        assert |Canonical(a)| > 1;
      }
    }
  }

  /** `PathPattern.matches`: a string-prefix test for wildcard-free patterns, the `**` walk
      otherwise. A subject that cannot be canonicalised is refused, never answered. */
  method Matches(p: Pattern, path: string) returns (r: Result<bool, PathError>)
    requires Compiled(p)
    ensures Normalised(path).Err? ==> r == Err(Normalised(path).error)
    ensures Normalised(path).Ok? ==> r.Ok? && (r.value <==> Covers(p, Normalised(path).value))
  {
    var segments := NormaliseSegments(path);
    if segments.Err? {
      return Err(segments.error);
    }
    CanonicalText(path);
    CanonicalText(p.raw);
    var canonical := Canonical(segments.value);
    if p.subtree {
      StringPrefixIsSegmentPrefix(p.segments, segments.value);
      if p.pattern == "/" {
        return Ok(true);
      }
      return Ok(canonical == p.pattern || p.pattern + "/" <= canonical);
    }
    var ok, _ := SegmentsMatch(p.segments, segments.value);
    return Ok(ok);
  }

  /** A segment without wildcards matches itself alone. */
  lemma {:induction false} LiteralSegment(s: string, t: string)
    requires !IsWild(s)
    ensures Glob(s, t) <==> s == t
  {
    if s != [] {
      assert s[0] in s && s == [s[0]] + s[1..];
      if t != [] {
        assert t == [t[0]] + t[1..];
        LiteralSegment(s[1..], t[1..]);
      }
    }
  }

  lemma {:induction false} AnyDepthAlone(t: seq<string>)
    ensures PathMatches([ANY_DEPTH], t)
  {
    if t != [] {
      AnyDepthAlone(t[1..]);
    } else {
      assert [ANY_DEPTH][1..] == [];
    }
  }

  /** Prefixing is what a trailing `**` means, for every list of literal segments. */
  lemma {:induction false} SubtreeIsTrailingStars(p: seq<string>, t: seq<string>)
    requires forall s :: s in p ==> !IsWild(s)
    ensures p <= t <==> PathMatches(p + [ANY_DEPTH], t)
  {
    var q := p + [ANY_DEPTH];
    if p == [] {
      assert q == [ANY_DEPTH];
      AnyDepthAlone(t);
    } else {
      assert p[0] in p && q[0] == p[0] && q[1..] == p[1..] + [ANY_DEPTH];
      assert ANY_DEPTH[0] in ANY_DEPTH;
      if t != [] {
        LiteralSegment(p[0], t[0]);
        assert forall s :: s in p[1..] ==> s in p;
        SubtreeIsTrailingStars(p[1..], t[1..]);
        assert p == [p[0]] + p[1..] && t == [t[0]] + t[1..];
      }
    }
  }

  lemma StarredSegments(raw: string)
    requires Normalised(raw).Ok?
    ensures Split(raw + "/**", '/') == Split(raw, '/') + [ANY_DEPTH]
    ensures Kept(Split(raw + "/**", '/')) == Kept(Split(raw, '/')) + [ANY_DEPTH]
  {
    var parts := Split(raw, '/');
    SplitRebuilds(raw, '/');
    LedByAppend(parts[1..], [ANY_DEPTH], '/');
    assert LedBy([ANY_DEPTH], '/') == "/**";
    assert raw + "/**" == parts[0] + LedBy(parts[1..] + [ANY_DEPTH], '/');
    SplitJoined(parts[0], parts[1..] + [ANY_DEPTH], '/');
    assert [parts[0]] + (parts[1..] + [ANY_DEPTH]) == parts + [ANY_DEPTH];
    KeptAppend(parts, ANY_DEPTH);
  }

  lemma {:induction false} KeptAppend(parts: seq<string>, last: string)
    requires IsKept(last)
    ensures Kept(parts + [last]) == Kept(parts) + [last]
  {
    if parts != [] {
      KeptAppend(parts[1..], last);
      assert (parts + [last])[1..] == parts[1..] + [last];
    }
  }

  // A wildcard-free pattern and the same pattern followed by a `**` segment are the same set of
  // paths, the root included: with the suffix it compiles exactly within the caps, and then covers
  // the same subjects.
  lemma ImplicitSubtree(raw: string, t: seq<string>)
    requires Compile(raw).Ok? && !Compile(raw).value.hasWildcard
    ensures Compile(raw + "/**").Ok? <==>
              |raw| + 3 <= MAX_PATTERN_LENGTH && |Compile(raw).value.segments| + 1 <= MAX_SEGMENTS
    ensures Compile(raw + "/**").Ok? ==>
              (Covers(Compile(raw).value, t) <==> Covers(Compile(raw + "/**").value, t))
  {
    var p := Compile(raw).value;
    var starred := raw + "/**";
    StarredSegments(raw);
    SubtreeIsTrailingStars(p.segments, t);
    if |starred| <= MAX_PATTERN_LENGTH {
      assert Refusal(starred) == None by {
        assert forall i :: 0 <= i < |raw| ==> starred[i] == raw[i];
      }
      if |p.segments| + 1 <= MAX_SEGMENTS {
        var segments := p.segments + [ANY_DEPTH];
        assert Normalised(starred) == Ok(segments);
        assert segments[|p.segments|] in segments && IsWild(ANY_DEPTH) by {
          assert ANY_DEPTH[0] == '*';
        }
        forall s | s in segments && s != ANY_DEPTH ensures !HasDoubleStar(s) {
          assert s in p.segments;
        }
      }
    }
  }

  // ---- rule lists -------------------------------------------------------------------------------

  function Texts(ps: seq<Pattern>): (texts: seq<string>)
    ensures |texts| == |ps| && forall i :: 0 <= i < |ps| ==> texts[i] == ps[i].pattern
  {
    seq(|ps|, i requires 0 <= i < |ps| => ps[i].pattern)
  }

  /** Compiling a list, entry by entry, refusing a repeated canonical text. */
  function CompileAll(values: seq<string>, seen: set<string>): Result<seq<Pattern>, PathError> {
    if values == [] then Ok([])
    else match Compile(values[0])
      case Err(error) => Err(error)
      case Ok(p) =>
        if p.pattern in seen then Err(DuplicateRule)
        else match CompileAll(values[1..], seen + {p.pattern})
          case Err(error) => Err(error)
          case Ok(rest) => Ok([p] + rest)
  }

  /** `sorted(compiled, key=lambda item: item.pattern)`. */
  function SortByText(ps: seq<Pattern>): seq<Pattern> {
    if ps == [] then [] else InsertByText(ps[0], SortByText(ps[1..]))
  }

  function InsertByText(p: Pattern, ps: seq<Pattern>): seq<Pattern> {
    if ps == [] then [p]
    else if StringLess(ps[0].pattern, p.pattern) then [ps[0]] + InsertByText(p, ps[1..])
    else [p] + ps
  }

  function Rules(values: seq<string>): Result<seq<Pattern>, PathError> {
    if |values| > MAX_RULE_COUNT then Err(TooManyRules)
    else match CompileAll(values, {})
      case Err(error) => Err(error)
      case Ok(ps) => Ok(SortByText(ps))
  }

  ghost function After(done: seq<Pattern>, r: Result<seq<Pattern>, PathError>): Result<seq<Pattern>, PathError> {
    match r
    case Err(error) => Err(error)
    case Ok(rest) => Ok(done + rest)
  }

  lemma AfterNothing(r: Result<seq<Pattern>, PathError>)
    ensures After([], r) == r
  {
    if r.Ok? {
      assert [] + r.value == r.value;
    }
  }

  /** `_patterns`. */
  method Patterns(values: seq<string>) returns (r: Result<seq<Pattern>, PathError>)
    ensures r == Rules(values)
  {
    if |values| > MAX_RULE_COUNT {
      return Err(TooManyRules);
    }
    var seen: set<string> := {};
    var compiled: seq<Pattern> := [];
    assert values[0..] == values;
    AfterNothing(CompileAll(values, {}));
    for i := 0 to |values|
      invariant CompileAll(values, {}) == After(compiled, CompileAll(values[i..], seen))
    {
      assert values[i..][1..] == values[i + 1..];
      var p := Compile(values[i]);
      if p.Err? {
        return Err(p.error);
      }
      if p.value.pattern in seen {
        return Err(DuplicateRule);
      }
      ghost var before, next := compiled, CompileAll(values[i + 1..], seen + {p.value.pattern});
      seen := seen + {p.value.pattern};
      compiled := compiled + [p.value];
      if next.Ok? {
        assert before + ([p.value] + next.value) == compiled + next.value;
      }
    }
    assert compiled + [] == compiled;
    return Ok(SortByText(compiled));
  }

  lemma {:induction false} InsertTexts(p: Pattern, ps: seq<Pattern>)
    ensures Texts(InsertByText(p, ps)) == Insert(p.pattern, Texts(ps))
  {
    hide StringLess;
    if ps != [] {
      InsertTexts(p, ps[1..]);
      assert Texts(ps)[0] == ps[0].pattern;
      assert Texts(ps)[1..] == Texts(ps[1..]);
    }
  }

  lemma {:induction false} SortTexts(ps: seq<Pattern>)
    ensures Texts(SortByText(ps)) == Sorted(Texts(ps))
  {
    if ps != [] {
      SortTexts(ps[1..]);
      InsertTexts(ps[0], SortByText(ps[1..]));
      assert Texts(ps)[1..] == Texts(ps[1..]);
    }
  }

  ghost predicate Distinct(s: seq<string>) {
    forall i, j :: 0 <= i < j < |s| ==> s[i] != s[j]
  }

  /** An accepted list compiled entry by entry, with pairwise different texts. */
  lemma {:induction false} CompileAllFacts(values: seq<string>, seen: set<string>)
    requires CompileAll(values, seen).Ok?
    ensures var ps := CompileAll(values, seen).value;
            |ps| == |values| && Distinct(Texts(ps)) &&
            forall i :: 0 <= i < |ps| ==> Compile(values[i]) == Ok(ps[i]) && ps[i].pattern !in seen
  {
    if values != [] {
      var p := Compile(values[0]).value;
      hide Compile;
      CompileAllFacts(values[1..], seen + {p.pattern});
    }
  }

  /** Every entry compiles, no two to one text, and none to a text seen before. */
  ghost predicate AllCompile(values: seq<string>, seen: set<string>) {
    && (forall i :: 0 <= i < |values| ==> Compile(values[i]).Ok? && Compile(values[i]).value.pattern !in seen)
    && (forall i, j :: 0 <= i < j < |values| ==>
          Compile(values[i]).value.pattern != Compile(values[j]).value.pattern)
  }

  lemma {:induction false} CompileAllAccepts(values: seq<string>, seen: set<string>)
    requires AllCompile(values, seen)
    ensures CompileAll(values, seen).Ok?
  {
    hide Compile;
    if values != [] {
      var rest, more := values[1..], seen + {Compile(values[0]).value.pattern};
      assert forall i :: 0 <= i < |rest| ==> rest[i] == values[i + 1];
      CompileAllAccepts(rest, more);
    }
  }

  lemma {:induction false} InsertHolds(p: Pattern, ps: seq<Pattern>)
    ensures forall q :: q in InsertByText(p, ps) <==> q == p || q in ps
    ensures |InsertByText(p, ps)| == |ps| + 1
  {
    if ps != [] {
      InsertHolds(p, ps[1..]);
    }
  }

  lemma {:induction false} SortHolds(ps: seq<Pattern>)
    ensures forall q :: q in SortByText(ps) <==> q in ps
    ensures |SortByText(ps)| == |ps|
  {
    if ps != [] {
      SortHolds(ps[1..]);
      InsertHolds(ps[0], SortByText(ps[1..]));
    }
  }

  /** A list of rules is accepted exactly when it is not too long, every entry compiles and no two
      compile to one text; it then holds exactly the compiled entries, by ascending text. */
  lemma RulesExactly(values: seq<string>)
    ensures Rules(values).Ok? <==> |values| <= 4096 && AllCompile(values, {})
    ensures Rules(values).Ok? ==>
              var ps := Rules(values).value;
              && |ps| == |values| && Ascending(Texts(ps))
              && forall p :: p in ps <==> exists i :: 0 <= i < |values| && Compile(values[i]) == Ok(p)
  {
    hide Compile;
    if AllCompile(values, {}) {
      CompileAllAccepts(values, {});
    }
    if CompileAll(values, {}).Ok? {
      var ps := CompileAll(values, {}).value;
      CompileAllFacts(values, {});
      CompiledApart(values, ps);
      SortTexts(ps);
      SortedSorts(Texts(ps));
      SortHolds(ps);
    }
  }

  lemma CompiledApart(values: seq<string>, ps: seq<Pattern>)
    requires |ps| == |values| && Distinct(Texts(ps))
    requires forall i :: 0 <= i < |ps| ==> Compile(values[i]) == Ok(ps[i])
    ensures AllCompile(values, {})
  {
    hide Compile;
    forall i, j | 0 <= i < j < |values|
      ensures Compile(values[i]).value.pattern != Compile(values[j]).value.pattern
    {
      assert Texts(ps)[i] != Texts(ps)[j];
    }
  }

  /** A list of distinct canonical texts is accepted, and every entry is its own canonical text. */
  lemma {:induction false} CompileCanonicalList(texts: seq<string>, seen: set<string>)
    requires Distinct(texts)
    requires forall i :: 0 <= i < |texts| ==> texts[i] !in seen
    requires forall i :: 0 <= i < |texts| ==>
               Compile(texts[i]).Ok? && Compile(texts[i]).value.pattern == texts[i]
    ensures CompileAll(texts, seen).Ok? && Texts(CompileAll(texts, seen).value) == texts
  {
    if texts != [] {
      var rest := texts[1..];
      forall i | 0 <= i < |rest|
        ensures rest[i] !in seen + {texts[0]} && Compile(rest[i]).Ok? && Compile(rest[i]).value.pattern == rest[i]
      {
        assert rest[i] == texts[i + 1];
      }
      CompileCanonicalList(rest, seen + {texts[0]});
      assert texts == [texts[0]] + rest;
    }
  }

  lemma DistinctByCount(a: seq<string>, b: seq<string>)
    requires Distinct(a) && multiset(a) == multiset(b)
    ensures Distinct(b)
  {
    forall i, j | 0 <= i < j < |b| ensures b[i] != b[j] {
      if b[i] == b[j] {
        assert b == b[..i] + [b[i]] + b[i + 1..j] + [b[j]] + b[j + 1..];
        assert multiset(b)[b[i]] >= 2;
        DistinctCounts(a, b[i]);
      }
    }
  }

  lemma {:induction false} DistinctCounts(a: seq<string>, x: string)
    requires Distinct(a)
    ensures multiset(a)[x] <= 1
  {
    if a != [] {
      assert a == [a[0]] + a[1..];
      DistinctCounts(a[1..], x);
    }
  }

  lemma TextsRecompile(values: seq<string>, text: string)
    requires CompileAll(values, {}).Ok? && text in Texts(CompileAll(values, {}).value)
    ensures Compile(text).Ok? && Compile(text).value.pattern == text
  {
    var ps := CompileAll(values, {}).value;
    CompileAllFacts(values, {});
    var k :| 0 <= k < |ps| && Texts(ps)[k] == text;
    assert Compile(values[k]) == Ok(ps[k]);
    assert ps[k].raw == values[k];
    CompileFixpoint(ps[k]);
  }

  /** Canonical rule lists are a fixed point. Writing the compiled texts back in any order at all
      compiles to the same list of texts. */
  lemma RulesFixpoint(values: seq<string>, again: seq<string>)
    requires Rules(values).Ok? && multiset(again) == multiset(Texts(Rules(values).value))
    ensures Rules(again).Ok? && Texts(Rules(again).value) == Texts(Rules(values).value)
  {
    hide Compile;
    var ps := CompileAll(values, {}).value;
    CompileAllFacts(values, {});
    SortTexts(ps);
    SortedSorts(Texts(ps));
    assert multiset(again) == multiset(Texts(ps));
    DistinctByCount(Texts(ps), again);
    forall i | 0 <= i < |again|
      ensures Compile(again[i]).Ok? && Compile(again[i]).value.pattern == again[i]
    {
      assert again[i] in multiset(again);
      TextsRecompile(values, again[i]);
    }
    CompileCanonicalList(again, {});
    SortTexts(CompileAll(again, {}).value);
    SortedCanonical(again, Texts(ps));
  }

  // ---- the filesystem verdict -------------------------------------------------------------------

  datatype FilesystemRules = FilesystemRules(allow: seq<Pattern>, deny: seq<Pattern>)

  ghost predicate CompiledRules(rules: FilesystemRules) {
    (forall p :: p in rules.allow ==> Compiled(p)) && forall p :: p in rules.deny ==> Compiled(p)
  }

  datatype PathVerdict = Abstain | Denied(rule: nat) | OutsideAllowList

  /** `_matches`: a subject the matcher refuses counts as no match. */
  ghost predicate Hits(p: Pattern, subject: string) {
    Normalised(subject).Ok? && Covers(p, Normalised(subject).value)
  }

  /** The verdict a subject deserves: deny first, then default-deny outside an allow-list. */
  ghost predicate Deserves(rules: FilesystemRules, subject: string, v: PathVerdict) {
    var denied := exists i :: 0 <= i < |rules.deny| && Hits(rules.deny[i], subject);
    var outside := rules.allow != [] && forall i :: 0 <= i < |rules.allow| ==> !Hits(rules.allow[i], subject);
    match v
    case Abstain => subject == "" || (!denied && !outside)
    case Denied(n) => subject != "" && n < |rules.deny| && Hits(rules.deny[n], subject) &&
                      forall i :: 0 <= i < n ==> !Hits(rules.deny[i], subject)
    case OutsideAllowList => subject != "" && !denied && outside
  }

  method Hit(p: Pattern, subject: string) returns (hit: bool)
    requires Compiled(p)
    ensures hit <==> Hits(p, subject)
  {
    var answer := Matches(p, subject);
    hit := answer.Ok? && answer.value;
  }

  /** `_FilesystemRules.verdict`, on the canonical subject of the action. */
  method Verdict(rules: FilesystemRules, subject: string) returns (v: PathVerdict)
    requires CompiledRules(rules)
    ensures Deserves(rules, subject, v)
  {
    if subject == "" {
      return Abstain;
    }
    for i := 0 to |rules.deny|
      invariant forall j :: 0 <= j < i ==> !Hits(rules.deny[j], subject)
    {
      var hit := Hit(rules.deny[i], subject);
      if hit {
        return Denied(i);
      }
    }
    if rules.allow == [] {
      return Abstain;
    }
    for i := 0 to |rules.allow|
      invariant forall j :: 0 <= j < i ==> !Hits(rules.allow[j], subject)
    {
      var hit := Hit(rules.allow[i], subject);
      if hit {
        return Abstain;
      }
    }
    return OutsideAllowList;
  }

  /** The verdict is determined, and depends on the rules only through their canonical texts: two
      documents with the same normalised lists decide every subject alike. */
  lemma TextsDecideVerdict(a: FilesystemRules, b: FilesystemRules, subject: string,
                           v: PathVerdict, w: PathVerdict)
    requires CompiledRules(a) && CompiledRules(b)
    requires Texts(a.allow) == Texts(b.allow) && Texts(a.deny) == Texts(b.deny)
    requires Deserves(a, subject, v) && Deserves(b, subject, w)
    ensures v == w
  {
    assert |a.allow| == |Texts(a.allow)| == |b.allow| && |a.deny| == |Texts(a.deny)| == |b.deny|;
    forall i | 0 <= i < |a.allow| ensures Hits(a.allow[i], subject) == Hits(b.allow[i], subject) {
      assert Texts(a.allow)[i] == Texts(b.allow)[i];
      PatternTextDecides(a.allow[i], b.allow[i]);
    }
    forall i | 0 <= i < |a.deny| ensures Hits(a.deny[i], subject) == Hits(b.deny[i], subject) {
      assert Texts(a.deny)[i] == Texts(b.deny)[i];
      PatternTextDecides(a.deny[i], b.deny[i]);
    }
    if v.Denied? && w.Denied? {
      assert !(v.rule < w.rule) && !(w.rule < v.rule);
    }
  }

  /** A deny rule decides before the allow-list is looked at, and the first that covers the subject is
      the one reported. */
  lemma DeniesExactly(rules: FilesystemRules, subject: string, v: PathVerdict)
    requires Deserves(rules, subject, v)
    ensures subject == "" ==> v == Abstain
    ensures subject != "" && Normalised(subject).Ok? ==>
              var t := Normalised(subject).value;
              && (v.Denied? <==> exists p :: p in rules.deny && Covers(p, t))
              && (v.Denied? ==> v.rule < |rules.deny| && Covers(rules.deny[v.rule], t))
              && (v.Denied? ==> forall i :: 0 <= i < v.rule ==> !Covers(rules.deny[i], t))
              && (v == OutsideAllowList <==>
                    (forall p :: p in rules.deny ==> !Covers(p, t)) &&
                    rules.allow != [] && forall p :: p in rules.allow ==> !Covers(p, t))
  {
    hide Covers, Normalised;
    if subject != "" && Normalised(subject).Ok? {
      var t := Normalised(subject).value;
      forall p | p in rules.deny && Covers(p, t)
        ensures v.Denied?
      {
        var i :| 0 <= i < |rules.deny| && rules.deny[i] == p;
        assert Hits(rules.deny[i], subject);
      }
      forall p | p in rules.allow && Covers(p, t)
        ensures v != OutsideAllowList
      {
        var i :| 0 <= i < |rules.allow| && rules.allow[i] == p;
        assert Hits(rules.allow[i], subject);
      }
    }
  }

  /** On a subject the matcher understands, the rules abstain exactly when no deny rule covers it
      and it is covered by an allow rule or there is no allow-list. On one it does not understand,
      the answer is decided by whether an allow-list exists. */
  lemma AbstainsExactly(rules: FilesystemRules, subject: string, v: PathVerdict)
    requires Deserves(rules, subject, v) && subject != ""
    ensures Normalised(subject).Ok? ==>
              var t := Normalised(subject).value;
              (v == Abstain <==>
                (forall p :: p in rules.deny ==> !Covers(p, t)) &&
                (rules.allow == [] || exists p :: p in rules.allow && Covers(p, t)))
    ensures Normalised(subject).Err? ==> v == if rules.allow == [] then Abstain else OutsideAllowList
  {
    if Normalised(subject).Ok? && rules.allow != [] && v == Abstain {
      var i :| 0 <= i < |rules.allow| && Hits(rules.allow[i], subject);
      assert rules.allow[i] in rules.allow;
    }
  }
}
