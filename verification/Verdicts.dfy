/** What the policy answers, read off the request, its metadata and the configuration
    (`watcher/policy.py`, `watcher/authority.py`).

    Nothing here is defined by the policy's rules: the reference says which values are judged, which of
    them offend, and which offence decides; the results say that the rules agree.
  */
module Verdicts {
  import opened Strings
  import opened Decisions
  import opened Trace
  import opened P = Policy

  // ---- the values a request is judged by --------------------------------------------------------

  /** What Python takes for false. */
  ghost predicate Falsy(v: Json) {
    v == Null || v == Flag(false) || v == Num(0) || v == Text("") || v == Arr([]) || v == Obj(map[])
  }

  ghost predicate Asserted(m: Metadata, key: string) {
    key in m && !Falsy(m[key])
  }

  ghost predicate Present(m: Metadata, key: string) {
    key in m && m[key] != Null && m[key] != Text("")
  }

  ghost predicate IsClaim(m: Metadata, key: string, v: Json) {
    Present(m, key) && m[key] == v
  }

  ghost predicate IsText(s: string, v: Json) {
    s != "" && v == Text(s)
  }

  /** White space aside, the text starts like a path. */
  ghost predicate PathShaped(lib: Library, s: string) {
    exists i: nat, j: nat :: Trims(s, i, j) && i < j && StartsPath(lib, s[i..j])
  }

  ghost predicate StartsPath(lib: Library, text: string)
    requires text != ""
  {
    || text[0] == '/' || text[0] == '~'
    || (|text| >= 2 && text[0] == '.' && text[1] == '/')
    || (|text| >= 3 && text[0] == '.' && text[1] == '.' && text[2] == '/')
    || (|text| >= 3 && lib.isAlpha(text[0]) && text[1] == ':' && (text[2] == '/' || text[2] == '\\'))
  }

  /** `text[a..b]` is what precedes the first `/`, without what an `@` in it ends. */
  ghost predicate IsHead(text: string, a: nat, b: nat) {
    && a <= b <= |text|
    && (forall k :: 0 <= k < b ==> text[k] != '/') && (b == |text| || text[b] == '/')
    && (forall k :: a <= k < b ==> text[k] != '@') && (a == 0 || text[a - 1] == '@')
  }

  ghost predicate NamesHost(text: string) {
    || (exists k :: 0 <= k <= |text| && "://" <= text[k..])
    || (exists a: nat, b: nat :: IsHead(text, a, b) && ("[" <= text[a..b] || ':' in text[a..b] || '.' in text[a..b]))
  }

  ghost predicate HostShaped(s: string) {
    exists i: nat, j: nat :: Trims(s, i, j) && i < j && NamesHost(s[i..j])
  }

  /** A path claim is always judged; the resource is judged beside it if it is shaped like a path, and
      whatever its shape when no path is claimed. */
  ghost predicate PathSubject(lib: Library, r: Request, m: Metadata, v: Json) {
    IsClaim(m, "path", v) || (IsText(r.resource, v) && (PathShaped(lib, r.resource) || !Present(m, "path")))
  }

  ghost predicate HostSubject(r: Request, m: Metadata, v: Json) {
    IsClaim(m, "domain", v) || (IsText(r.resource, v) && (HostShaped(r.resource) || !Asserted(m, "domain")))
  }

  /** The action names the tool where neither a claim nor the resource does. */
  ghost predicate ToolSubject(r: Request, m: Metadata, v: Json) {
    IsClaim(m, "tool", v) || IsText(r.resource, v) ||
    (IsText(r.action, v) && !Present(m, "tool") && r.resource == "")
  }

  ghost predicate Measured(m: Metadata, key: string, n: int) {
    "authoritative" in m && m["authoritative"].Obj? && key in m["authoritative"].fields &&
    m["authoritative"].fields[key] == Num(n)
  }

  ghost predicate ReadsAs(lib: Library, v: Json, n: int) {
    v == Num(n) || (v == Flag(true) && n == 1) || (v == Flag(false) && n == 0) ||
    (v.Text? && lib.parseInt(v.text) == Some(n))
  }

  ghost predicate Counts(lib: Library, m: Metadata, key: string, n: int) {
    key in m && ReadsAs(lib, m[key], n)
  }

  /** The count that is judged: the measured one or a claim above it, or without a measurement what is
      claimed, the alias first. */
  ghost predicate JudgedCount(lib: Library, m: Metadata, n: int) {
    if exists k :: Measured(m, "process_count", k) then
      && (Measured(m, "process_count", n) || Counts(lib, m, "child_processes", n))
      && (forall k :: Measured(m, "process_count", k) ==> k <= n)
      && (forall k :: Counts(lib, m, "child_processes", k) ==> k <= n)
    else
      Counts(lib, m, if "child_processes" in m then "child_processes" else "process_count", n)
  }

  ghost predicate LongerThan(lib: Library, v: Json, limit: int) {
    || (v.Num? && v.num > limit)
    || (v == Flag(true) && 1 > limit) || (v == Flag(false) && 0 > limit)
    || (v.Text? && lib.parseFloat(v.text) == Some(PlusInfinity))
    || (v.Text? && exists x :: lib.parseFloat(v.text) == Some(At(x)) && x > limit as real)
  }

  /** The measured time or the claimed one is over the limit; NaN never is. */
  ghost predicate Overran(lib: Library, p: Policy, m: Metadata) {
    || (exists n :: Measured(m, "runtime_seconds", n) && n > p.maxRuntimeSeconds)
    || ("runtime_seconds" in m && LongerThan(lib, m["runtime_seconds"], p.maxRuntimeSeconds))
  }

  // ---- what offends -----------------------------------------------------------------------------

  ghost predicate IsFileEvent(r: Request) {
    r.kind == "file_access" || r.kind == "file_modification"
  }

  ghost predicate IsNetworkEvent(r: Request) {
    r.kind == "network_request" || r.kind == "api_request"
  }

  ghost predicate IsToolEvent(r: Request) {
    r.kind == "tool_request" || r.kind == "model_call"
  }

  ghost predicate RaisesPrivileges(lib: Library, p: Policy, r: Request, m: Metadata) {
    !p.allowPrivilegeEscalation &&
    (Asserted(m, "privilege_escalation") ||
     ((r.kind == "shell_command" || r.kind == "process_creation") &&
      (lib.raisesPrivileges(r.action) || lib.raisesPrivileges(r.resource))))
  }

  ghost predicate CriticalCommand(lib: Library, r: Request, name: string) {
    r.kind == "shell_command" && lib.criticalCommand(r.action + " " + r.resource) == Some(name)
  }

  ghost predicate ReachesHost(p: Policy, m: Metadata) {
    Asserted(m, "host_resource") && !p.allowHostResourceAccess
  }

  ghost predicate Persists(lib: Library, p: Policy, r: Request, m: Metadata) {
    !p.allowPersistence &&
    (Asserted(m, "persistence") ||
     ((r.kind == "shell_command" || r.kind == "file_modification" || r.kind == "process_creation") &&
      lib.touchesPersistence(r.action + " " + r.resource)))
  }

  ghost predicate HostPath(lib: Library, v: Json) {
    "/proc/1" <= lib.normalisePath(v) || "/sys/" <= lib.normalisePath(v) ||
    lib.normalisePath(v) == "/var/run/docker.sock"
  }

  ghost predicate TouchesHostPath(lib: Library, p: Policy, r: Request, m: Metadata) {
    IsFileEvent(r) && !p.allowHostResourceAccess && exists v :: PathSubject(lib, r, m, v) && HostPath(lib, v)
  }

  ghost predicate NamesVariable(r: Request, m: Metadata, v: Json) {
    if Asserted(m, "env_var") then v == m["env_var"]
    else (r.kind == "env_access" || r.kind == "environment_access") && IsText(r.resource, v)
  }

  ghost predicate NamesProtectedVariable(lib: Library, p: Policy, r: Request, m: Metadata) {
    exists v :: NamesVariable(r, m, v) && lib.upper(lib.text(v)) in p.protectedEnvVars
  }

  /** The path lies in one of the entries, each normalised in its place. */
  ghost predicate Listed(lib: Library, path: string, entries: seq<string>) {
    exists list: seq<string> :: |list| == |entries|
      && (forall i :: 0 <= i < |list| ==> list[i] == lib.normalisePath(Text(entries[i])))
      && lib.anyPathMatches(path, list)
  }

  ghost predicate ForbiddenPath(lib: Library, p: Policy, v: Json) {
    lib.normalisePath(v) != "" && Listed(lib, lib.normalisePath(v), p.forbiddenPaths)
  }

  ghost predicate OutsidePaths(lib: Library, p: Policy, v: Json) {
    lib.normalisePath(v) != "" && p.allowedPaths != [] && !Listed(lib, lib.normalisePath(v), p.allowedPaths)
  }

  ghost predicate PathDraws(lib: Library, p: Policy, v: Json, e: Ruling) {
    if p.pathRule.Some? then p.pathRule.value(v) == Some(e)
    else if ForbiddenPath(lib, p, v) then e == Ruling(Deny, High, "forbidden_path")
    else OutsidePaths(lib, p, v) && e == Ruling(Deny, High, "path_not_allowed")
  }

  ghost predicate Restricted(p: Policy) {
    p.restrictNetwork == Some(true) || (p.restrictNetwork.None? && p.allowedDomains != [])
  }

  ghost predicate Unresolvable(lib: Library, v: Json) {
    Falsy(v) || lib.extractDomain(v) == ""
  }

  ghost predicate ForbiddenDomain(lib: Library, p: Policy, v: Json) {
    !Unresolvable(lib, v) && p.forbiddenDomains != [] && lib.domainMatchesAny(lib.extractDomain(v), p.forbiddenDomains)
  }

  ghost predicate UnknownDomain(lib: Library, p: Policy, v: Json) {
    !Unresolvable(lib, v) && Restricted(p) && !lib.domainMatchesAny(lib.extractDomain(v), p.allowedDomains)
  }

  ghost predicate NetworkDraws(lib: Library, p: Policy, v: Json, e: Ruling) {
    if Unresolvable(lib, v) then Restricted(p) && e == Ruling(Deny, High, "unresolvable_network_target")
    else if ForbiddenDomain(lib, p, v) then e == Ruling(Deny, High, "forbidden_domain")
    else UnknownDomain(lib, p, v) && e == Ruling(p.unknownDomain, High, "domain_not_allowed")
  }

  ghost predicate OneOf(lib: Library, v: Json, tools: seq<string>) {
    exists tool :: tool in tools && lib.normaliseTool(Text(tool)) == lib.normaliseTool(v)
  }

  ghost predicate ForbiddenTool(lib: Library, p: Policy, v: Json) {
    lib.normaliseTool(v) != "" && OneOf(lib, v, p.forbiddenTools)
  }

  ghost predicate UnknownTool(lib: Library, p: Policy, v: Json) {
    lib.normaliseTool(v) != "" && p.allowedTools != [] && !OneOf(lib, v, p.allowedTools)
  }

  ghost predicate ToolDraws(lib: Library, p: Policy, v: Json, e: Ruling) {
    if ForbiddenTool(lib, p, v) then e == Ruling(Deny, High, "forbidden_tool")
    else UnknownTool(lib, p, v) && e == Ruling(p.unknownTool, Elevated, "tool_not_allowed")
  }

  ghost predicate TooMany(lib: Library, p: Policy, r: Request, m: Metadata, n: int) {
    r.kind == "process_creation" && JudgedCount(lib, m, n) && n > p.maxProcesses
  }

  ghost function CountRuling(p: Policy, n: int): Ruling {
    if n > p.maxProcesses * p.killMultiplier then Ruling(Kill, Critical, "max_processes_hard")
    else Ruling(Deny, High, "max_processes")
  }

  // ---- what a request draws ---------------------------------------------------------------------

  /** ALLOW, DENY, QUARANTINE, KILL. */
  ghost predicate NoMilder(d: Decision, than: Decision) {
    than == Allow || d == Kill || d == than || (d == Quarantine && than == Deny)
  }

  ghost predicate PathsSay(lib: Library, p: Policy, r: Request, m: Metadata, e: Ruling) {
    (IsFileEvent(r) || Asserted(m, "path")) && exists v :: PathSubject(lib, r, m, v) && PathDraws(lib, p, v, e)
  }

  ghost predicate NetworkSays(lib: Library, p: Policy, r: Request, m: Metadata, e: Ruling) {
    IsNetworkEvent(r) && exists v :: HostSubject(r, m, v) && NetworkDraws(lib, p, v, e)
  }

  ghost predicate ToolsSay(lib: Library, p: Policy, r: Request, m: Metadata, e: Ruling) {
    IsToolEvent(r) && exists v :: ToolSubject(r, m, v) && ToolDraws(lib, p, v, e)
  }

  // Of what is said about several values, the strictest counts.

  ghost predicate PathsDecide(lib: Library, p: Policy, r: Request, m: Metadata, e: Ruling) {
    PathsSay(lib, p, r, m, e) && forall f :: PathsSay(lib, p, r, m, f) ==> NoMilder(e.decision, f.decision)
  }

  ghost predicate NetworkDecides(lib: Library, p: Policy, r: Request, m: Metadata, e: Ruling) {
    NetworkSays(lib, p, r, m, e) && forall f :: NetworkSays(lib, p, r, m, f) ==> NoMilder(e.decision, f.decision)
  }

  ghost predicate ToolsDecide(lib: Library, p: Policy, r: Request, m: Metadata, e: Ruling) {
    ToolsSay(lib, p, r, m, e) && forall f :: ToolsSay(lib, p, r, m, f) ==> NoMilder(e.decision, f.decision)
  }

  const KILLED_FOR_PRIVILEGES := Ruling(Kill, Critical, "privilege_escalation")
  const KILLED_FOR_HOST := Ruling(Kill, Critical, "host_resource_access")
  const KILLED_FOR_ESCAPE := Ruling(Kill, Critical, "sandbox_escape")
  const KILLED_FOR_PERSISTENCE := Ruling(Kill, Critical, "persistence_attempt")

  /** What the request draws: the offences in the order they are looked for, and of the values judged
      together the strictest. */
  ghost predicate Draws(lib: Library, p: Policy, r: Request, m: Metadata, e: Ruling) {
    if RaisesPrivileges(lib, p, r, m) then e == KILLED_FOR_PRIVILEGES
    else if exists name :: CriticalCommand(lib, r, name) then
      exists name :: CriticalCommand(lib, r, name) && e == Ruling(Kill, Critical, "critical_command:" + name)
    else if ReachesHost(p, m) then e == KILLED_FOR_HOST
    else if lib.touchesEscape(r.action + " " + r.resource) then e == KILLED_FOR_ESCAPE
    else if Persists(lib, p, r, m) then e == KILLED_FOR_PERSISTENCE
    else if TouchesHostPath(lib, p, r, m) then e == KILLED_FOR_HOST
    else if NamesProtectedVariable(lib, p, r, m) then e == Ruling(Deny, High, "protected_env_var")
    else DrawsLater(lib, p, r, m, e)
  }

  ghost predicate DrawsLater(lib: Library, p: Policy, r: Request, m: Metadata, e: Ruling) {
    if exists f :: PathsSay(lib, p, r, m, f) then PathsDecide(lib, p, r, m, e)
    else if exists f :: NetworkSays(lib, p, r, m, f) then NetworkDecides(lib, p, r, m, e)
    else if exists f :: ToolsSay(lib, p, r, m, f) then ToolsDecide(lib, p, r, m, e)
    else if exists n :: TooMany(lib, p, r, m, n) then
      exists n :: TooMany(lib, p, r, m, n) && e == CountRuling(p, n)
    else if Overran(lib, p, m) then e == Ruling(Kill, High, "max_runtime")
    else e == Ruling(Allow, Normal, "default")
  }

  // ---- the values the rules look at are the values judged ---------------------------------------

  lemma TrimsOnce(s: string, i: nat, j: nat, i': nat, j': nat)
    requires Trims(s, i, j) && Trims(s, i', j') && i < j && i' < j'
    ensures i == i' && j == j'
  {
    assert IsSpace(s[i]) <==> false;
    assert i' <= i && i <= i';
    assert j <= j' && j' <= j;
  }

  lemma PathShape(lib: Library, s: string)
    ensures LooksLikePath(lib, s) <==> PathShaped(lib, s)
  {
    var i, j := StripMeans(s);
    if i': nat, j': nat :| Trims(s, i', j') && i' < j' && StartsPath(lib, s[i'..j']) {
      TrimsSome(s, i, j, i', j');
      TrimsOnce(s, i, j, i', j');
    }
    hide Trims, Strip;
    assert i < j ==> (StartsPath(lib, s[i..j]) <==> LooksLikePath(lib, s)) by {
      if i < j {
        SlashFirst(s[i..j]);
      }
    }
  }

  lemma TrimsSome(s: string, i: nat, j: nat, i': nat, j': nat)
    requires Trims(s, i, j) && Trims(s, i', j') && i' < j'
    ensures i < j
  {
  }

  lemma SlashFirst(text: string)
    requires text != ""
    ensures "/" <= text <==> text[0] == '/'
    ensures "~" <= text <==> text[0] == '~'
    ensures "./" <= text <==> |text| >= 2 && text[0] == '.' && text[1] == '/'
    ensures "../" <= text <==> |text| >= 3 && text[0] == '.' && text[1] == '.' && text[2] == '/'
  {
  }

  lemma HeadOnce(text: string, a: nat, b: nat, a': nat, b': nat)
    requires IsHead(text, a, b) && IsHead(text, a', b')
    ensures a == a' && b == b'
  {
    assert b' <= b && b <= b';
    assert a' <= a && a <= a';
  }

  lemma HeadIs(text: string) returns (a: nat, b: nat)
    ensures IsHead(text, a, b)
    ensures var parts := Split(Split(text, '/')[0], '@'); text[a..b] == parts[|parts| - 1]
  {
    b := SplitFirst(text, '/');
    a := SplitLast(text[..b], '@');
    assert text[..b][a..] == text[a..b];
    assert forall k :: 0 <= k < b ==> text[k] == text[..b][k];
    assert forall k :: a <= k < b ==> text[k] == text[a..b][k - a];
  }

  lemma HostShape(s: string)
    ensures LooksLikeHost(s) <==> HostShaped(s)
  {
    var i, j := StripMeans(s);
    if i': nat, j': nat :| Trims(s, i', j') && i' < j' && NamesHost(s[i'..j']) {
      TrimsSome(s, i, j, i', j');
      TrimsOnce(s, i, j, i', j');
    }
    hide Trims, Strip, NamesHost;
    if i < j {
      HostNamed(s[i..j]);
    }
  }

  lemma HostNamed(text: string)
    ensures var parts := Split(Split(text, '/')[0], '@');
            var head := parts[|parts| - 1];
            NamesHost(text) <==> Contains(text, "://") || "[" <= head || ':' in head || '.' in head
  {
    ContainsMeans(text, "://");
    var a, b := HeadIs(text);
    forall a': nat, b': nat | IsHead(text, a', b')
      ensures a' == a && b' == b
    {
      HeadOnce(text, a, b, a', b');
    }
    hide IsHead, Contains, Split;
  }

  lemma TruthyIs(m: Metadata, key: string)
    ensures Truthy(Claim(m, key)) <==> Asserted(m, key)
    ensures Given(Claim(m, key)) <==> Present(m, key)
    ensures Asserted(m, key) ==> Present(m, key) && Claim(m, key) == m[key]
  {
  }

  /** Exactly the path subjects are looked at, the resource before the claim. */
  lemma PathsLookedAt(lib: Library, r: Request, m: Metadata)
    ensures var values := PathCandidates(lib, m, r.resource);
            && (forall v :: v in values <==> PathSubject(lib, r, m, v))
            && (|values| <= 1 || values == [Text(r.resource), Claim(m, "path")])
  {
    PathShape(lib, r.resource);
    TruthyIs(m, "path");
    hide LooksLikePath, PathShaped;
  }

  lemma HostsLookedAt(r: Request, m: Metadata)
    ensures var values := DomainCandidates(m, r.resource);
            && (forall v :: v in values <==> HostSubject(r, m, v))
            && (|values| <= 1 || values == [Text(r.resource), Claim(m, "domain")])
  {
    HostShape(r.resource);
    TruthyIs(m, "domain");
    hide LooksLikeHost, HostShaped;
  }

  /** For tools the claim comes first. */
  lemma ToolsLookedAt(r: Request, m: Metadata)
    ensures var values := ToolCandidates(m, r);
            && (forall v :: v in values <==> ToolSubject(r, m, v))
            && (|values| <= 1 || values == [Claim(m, "tool"), Text(r.resource)])
  {
    TruthyIs(m, "tool");
  }

  // ---- each rule, by what it answers ------------------------------------------------------------

  lemma WorstSaid(verdict: Json -> Option<Ruling>, values: seq<Json>)
    ensures var w := WorstOf(Rulings(verdict, values));
            && (w.None? <==> forall v :: v in values ==> verdict(v).None?)
            && (w.Some? ==> exists v :: v in values && verdict(v) == w)
            && (forall v :: v in values && verdict(v).Some? ==>
                  w.Some? && NoMilder(w.value.decision, verdict(v).value.decision))
  {
    var rulings := Rulings(verdict, values);
    WorstIsWorst(rulings);
    var w := WorstOf(rulings);
    forall v | v in values
      ensures verdict(v).Some? ==> w.Some? && NoMilder(w.value.decision, verdict(v).value.decision)
    {
      var i :| 0 <= i < |values| && values[i] == v;
      assert rulings[i] in rulings;
    }
    if w.Some? {
      var i :| 0 <= i < |rulings| && rulings[i] == w;
      assert values[i] in values;
    }
  }

  lemma HostRuleIs(lib: Library, p: Policy, r: Request, m: Metadata)
    ensures HostRule(lib, p, r, m) == if TouchesHostPath(lib, p, r, m) then Some(KILLED_FOR_HOST) else None
  {
    PathsLookedAt(lib, r, m);
    hide PathCandidates, PathSubject;
    WorstSaid(v => HostVerdict(lib, v), PathCandidates(lib, m, r.resource));
    forall v
      ensures HostVerdict(lib, v) == if HostPath(lib, v) then Some(KILLED_FOR_HOST) else None
    {
    }
  }

  lemma ListedIs(lib: Library, path: string, entries: seq<string>)
    ensures Listed(lib, path, entries) <==> lib.anyPathMatches(path, NormalisedAll(lib, entries))
  {
    forall list: seq<string> | |list| == |entries|
                               && forall i :: 0 <= i < |list| ==> list[i] == lib.normalisePath(Text(entries[i]))
      ensures list == NormalisedAll(lib, entries)
    {
    }
  }

  lemma PathVerdictIs(lib: Library, p: Policy, v: Json, e: Ruling)
    ensures PathVerdict(lib, p, v) == Some(e) <==> PathDraws(lib, p, v, e)
  {
    ListedIs(lib, lib.normalisePath(v), p.forbiddenPaths);
    ListedIs(lib, lib.normalisePath(v), p.allowedPaths);
    hide Listed, NormalisedAll;
  }

  lemma PathsRuleIs(lib: Library, p: Policy, r: Request, m: Metadata)
    ensures var answer := PathsRule(lib, p, r, m);
            && (answer.None? <==> forall e :: !PathsSay(lib, p, r, m, e))
            && (answer.Some? ==> PathsDecide(lib, p, r, m, answer.value))
  {
    PathsLookedAt(lib, r, m);
    TruthyIs(m, "path");
    hide PathCandidates, PathSubject, Asserted, Truthy;
    WorstSaid(v => PathVerdict(lib, p, v), PathCandidates(lib, m, r.resource));
    forall v, e
      ensures PathVerdict(lib, p, v) == Some(e) <==> PathDraws(lib, p, v, e)
    {
      PathVerdictIs(lib, p, v, e);
    }
    hide PathVerdict, PathDraws, NoMilder;
    var answer := PathsRule(lib, p, r, m);
    if r.kind in FILE_EVENTS || Asserted(m, "path") {
      forall v | PathSubject(lib, r, m, v) && PathVerdict(lib, p, v).Some?
        ensures PathsSay(lib, p, r, m, PathVerdict(lib, p, v).value)
      {
        assert PathDraws(lib, p, v, PathVerdict(lib, p, v).value);
      }
    }
  }

  lemma NetworkVerdictIs(lib: Library, p: Policy, v: Json, e: Ruling)
    ensures NetworkVerdict(lib, p, v) == Some(e) <==> NetworkDraws(lib, p, v, e)
  {
    assert Truthy(v) <==> !Falsy(v);
    hide Truthy, Falsy;
  }

  lemma NetworkRuleIs(lib: Library, p: Policy, r: Request, m: Metadata)
    ensures var answer := NetworkRule(lib, p, r, m);
            && (answer.None? <==> forall e :: !NetworkSays(lib, p, r, m, e))
            && (answer.Some? ==> NetworkDecides(lib, p, r, m, answer.value))
  {
    HostsLookedAt(r, m);
    hide DomainCandidates, HostSubject;
    WorstSaid(v => NetworkVerdict(lib, p, v), DomainCandidates(m, r.resource));
    forall v, e
      ensures NetworkVerdict(lib, p, v) == Some(e) <==> NetworkDraws(lib, p, v, e)
    {
      NetworkVerdictIs(lib, p, v, e);
    }
    hide NetworkVerdict, NetworkDraws, NoMilder;
    if IsNetworkEvent(r) {
      forall v | HostSubject(r, m, v) && NetworkVerdict(lib, p, v).Some?
        ensures NetworkSays(lib, p, r, m, NetworkVerdict(lib, p, v).value)
      {
        assert NetworkDraws(lib, p, v, NetworkVerdict(lib, p, v).value);
      }
    }
  }

  lemma ToolVerdictIs(lib: Library, p: Policy, v: Json, e: Ruling)
    ensures ToolVerdict(lib, p, v) == Some(e) <==> ToolDraws(lib, p, v, e)
  {
    NamesIs(lib, v, p.forbiddenTools);
    NamesIs(lib, v, p.allowedTools);
    hide Names, OneOf;
  }

  lemma NamesIs(lib: Library, v: Json, tools: seq<string>)
    ensures Names(lib, tools, lib.normaliseTool(v)) <==> OneOf(lib, v, tools)
  {
    if Names(lib, tools, lib.normaliseTool(v)) {
      var i :| 0 <= i < |tools| && lib.normaliseTool(Text(tools[i])) == lib.normaliseTool(v);
      assert tools[i] in tools;
    }
  }

  lemma ToolsRuleIs(lib: Library, p: Policy, r: Request, m: Metadata)
    ensures var answer := ToolsRule(lib, p, r, m);
            && (answer.None? <==> forall e :: !ToolsSay(lib, p, r, m, e))
            && (answer.Some? ==> ToolsDecide(lib, p, r, m, answer.value))
  {
    ToolsLookedAt(r, m);
    hide ToolCandidates, ToolSubject;
    WorstSaid(v => ToolVerdict(lib, p, v), ToolCandidates(m, r));
    forall v, e
      ensures ToolVerdict(lib, p, v) == Some(e) <==> ToolDraws(lib, p, v, e)
    {
      ToolVerdictIs(lib, p, v, e);
    }
    hide ToolVerdict, ToolDraws, NoMilder;
    if IsToolEvent(r) {
      forall v | ToolSubject(r, m, v) && ToolVerdict(lib, p, v).Some?
        ensures ToolsSay(lib, p, r, m, ToolVerdict(lib, p, v).value)
      {
        assert ToolDraws(lib, p, v, ToolVerdict(lib, p, v).value);
      }
    }
  }

  lemma ObservedIs(m: Metadata, key: string, n: int)
    ensures Observed(m, key) == Some(n) <==> Measured(m, key, n)
  {
  }

  lemma ToIntIs(lib: Library, m: Metadata, key: string, n: int)
    ensures ToInt(lib, Claim(m, key)) == Some(n) <==> Counts(lib, m, key, n)
  {
  }

  lemma CountInputIs(lib: Library, m: Metadata, n: int)
    ensures CountInput(lib, m) == Some(n) <==> JudgedCount(lib, m, n)
  {
    forall key, k
      ensures ToInt(lib, Claim(m, key)) == Some(k) <==> Counts(lib, m, key, k)
      ensures Observed(m, key) == Some(k) <==> Measured(m, key, k)
    {
      ToIntIs(lib, m, key, k);
      ObservedIs(m, key, k);
    }
    hide ToInt, Observed, Measured, ReadsAs;
    if Observed(m, "process_count").Some? {
      assert Measured(m, "process_count", Observed(m, "process_count").value);
    }
  }

  lemma ProcessesRuleIs(lib: Library, p: Policy, r: Request, m: Metadata)
    ensures var answer := ProcessesRule(lib, p, r, m);
            && (answer.None? <==> forall n :: !TooMany(lib, p, r, m, n))
            && (answer.Some? ==> exists n :: TooMany(lib, p, r, m, n) && answer.value == CountRuling(p, n))
  {
    forall n
      ensures CountInput(lib, m) == Some(n) <==> JudgedCount(lib, m, n)
    {
      CountInputIs(lib, m, n);
    }
    hide CountInput, JudgedCount;
    if ProcessesRule(lib, p, r, m).Some? {
      assert TooMany(lib, p, r, m, CountInput(lib, m).value);
    }
    forall n | TooMany(lib, p, r, m, n)
      ensures ProcessesRule(lib, p, r, m).Some?
    {
      assert CountInput(lib, m) == Some(n);
    }
  }

  lemma LongerIs(lib: Library, v: Json, limit: int)
    ensures LongerThan(lib, v, limit) <==>
              ToSeconds(lib, v).Some? && Exceeds(ToSeconds(lib, v).value, At(limit as real))
  {
  }

  lemma RuntimeRuleIs(lib: Library, p: Policy, r: Request, m: Metadata)
    ensures RuntimeRule(lib, p, r, m) == if Overran(lib, p, m) then Some(Ruling(Kill, High, "max_runtime")) else None
  {
    LongerIs(lib, Claim(m, "runtime_seconds"), p.maxRuntimeSeconds);
    forall n
      ensures Observed(m, "runtime_seconds") == Some(n) <==> Measured(m, "runtime_seconds", n)
    {
      ObservedIs(m, "runtime_seconds", n);
    }
    hide Observed, Measured, LongerThan, ToSeconds;
    if Observed(m, "runtime_seconds").Some? {
      assert Measured(m, "runtime_seconds", Observed(m, "runtime_seconds").value);
    }
    if "runtime_seconds" !in m {
      assert !LongerThan(lib, Null, p.maxRuntimeSeconds) by {
        NullNotLonger(lib, p.maxRuntimeSeconds);
      }
    }
  }

  lemma NullNotLonger(lib: Library, limit: int)
    ensures !LongerThan(lib, Null, limit)
  {
  }

  lemma FlagRulesAre(lib: Library, p: Policy, r: Request, m: Metadata)
    ensures PrivilegeRule(lib, p, r, m)
            == if RaisesPrivileges(lib, p, r, m) then Some(KILLED_FOR_PRIVILEGES) else None
    ensures CriticalRule(lib, p, r, m).Some? <==> exists name :: CriticalCommand(lib, r, name)
    ensures CriticalRule(lib, p, r, m).Some? ==>
              exists name :: CriticalCommand(lib, r, name) &&
                CriticalRule(lib, p, r, m).value == Ruling(Kill, Critical, "critical_command:" + name)
    ensures EscapeRule(lib, p, r, m)
            == if ReachesHost(p, m) then Some(KILLED_FOR_HOST)
               else if lib.touchesEscape(r.action + " " + r.resource) then Some(KILLED_FOR_ESCAPE) else None
    ensures PersistenceRule(lib, p, r, m) == if Persists(lib, p, r, m) then Some(KILLED_FOR_PERSISTENCE) else None
  {
    TruthyIs(m, "privilege_escalation");
    TruthyIs(m, "host_resource");
    TruthyIs(m, "persistence");
    hide Truthy, Claim, Asserted;
    if CriticalRule(lib, p, r, m).Some? {
      assert CriticalCommand(lib, r, lib.criticalCommand(Haystack(r)).value);
    }
  }

  lemma EnvVarRuleIs(lib: Library, p: Policy, r: Request, m: Metadata)
    ensures EnvVarRule(lib, p, r, m)
            == if NamesProtectedVariable(lib, p, r, m) then Some(Ruling(Deny, High, "protected_env_var")) else None
  {
    TruthyIs(m, "env_var");
    hide Asserted;
    if Asserted(m, "env_var") {
      assert NamesVariable(r, m, m["env_var"]);
    } else if r.kind in {"env_access", "environment_access"} && r.resource != "" {
      assert NamesVariable(r, m, Text(r.resource));
    }
  }

  // ---- the verdict ------------------------------------------------------------------------------

  lemma {:induction false} FirstIndex(answers: seq<Option<Ruling>>) returns (i: nat)
    ensures i <= |answers| && forall j :: 0 <= j < i ==> answers[j].None?
    ensures i < |answers| ==> answers[i] == Some(FirstAnswer(answers))
    ensures i == |answers| ==> FirstAnswer(answers) == DEFAULT_RULING
  {
    if answers == [] || answers[0].Some? {
      i := 0;
    } else {
      i := FirstIndex(answers[1..]);
      i := i + 1;
    }
  }

  /** With nothing earlier to answer, the later rules decide. */
  lemma LaterAnswers(lib: Library, p: Policy, r: Request, m: Metadata, i: nat)
    requires 6 <= i <= 11
    requires var a := Answers(lib, p, r, m); (forall j :: 6 <= j < i ==> a[j].None?) && (i < 11 ==> a[i].Some?)
    ensures DrawsLater(lib, p, r, m, if i < 11 then Answers(lib, p, r, m)[i].value else DEFAULT_RULING)
  {
    PathsRuleIs(lib, p, r, m);
    NetworkRuleIs(lib, p, r, m);
    ToolsRuleIs(lib, p, r, m);
    ProcessesRuleIs(lib, p, r, m);
    RuntimeRuleIs(lib, p, r, m);
    hide PrivilegeRule, CriticalRule, EscapeRule, PersistenceRule, HostRule, EnvVarRule, PathsRule, NetworkRule,
         ToolsRule, ProcessesRule, RuntimeRule, PathsSay, PathsDecide, NetworkSays, NetworkDecides, ToolsSay,
         ToolsDecide, TooMany, Overran;
    var a := Answers(lib, p, r, m);
    assert a[6] == PathsRule(lib, p, r, m) && a[7] == NetworkRule(lib, p, r, m) && a[8] == ToolsRule(lib, p, r, m);
    assert a[9] == ProcessesRule(lib, p, r, m) && a[10] == RuntimeRule(lib, p, r, m);
  }

  /** The verdict is what the request draws. */
  lemma EvaluateDraws(lib: Library, p: Policy, r: Request, m: Metadata)
    ensures Draws(lib, p, r, m, Evaluate(lib, p, r, m))
  {
    FlagRulesAre(lib, p, r, m);
    HostRuleIs(lib, p, r, m);
    EnvVarRuleIs(lib, p, r, m);
    hide PrivilegeRule, CriticalRule, EscapeRule, PersistenceRule, HostRule, EnvVarRule, PathsRule, NetworkRule,
         ToolsRule, ProcessesRule, RuntimeRule, RaisesPrivileges, CriticalCommand, ReachesHost, Persists,
         TouchesHostPath, NamesProtectedVariable, DrawsLater, FirstAnswer;
    var a := Answers(lib, p, r, m);
    var i := FirstIndex(a);
    assert a[0] == PrivilegeRule(lib, p, r, m) && a[1] == CriticalRule(lib, p, r, m);
    assert a[2] == EscapeRule(lib, p, r, m) && a[3] == PersistenceRule(lib, p, r, m);
    assert a[4] == HostRule(lib, p, r, m) && a[5] == EnvVarRule(lib, p, r, m);
    if i >= 6 {
      LaterAnswers(lib, p, r, m, i);
    }
  }

  lemma StrictestBlocks(d: Decision, than: Decision)
    requires NoMilder(d, than) && than != Allow
    ensures d != Allow
  {
  }

  /** No offence that is looked for before the paths. */
  ghost predicate Clean(lib: Library, p: Policy, r: Request, m: Metadata) {
    && !RaisesPrivileges(lib, p, r, m) && (forall name :: !CriticalCommand(lib, r, name)) && !ReachesHost(p, m)
    && !lib.touchesEscape(r.action + " " + r.resource) && !Persists(lib, p, r, m)
    && !TouchesHostPath(lib, p, r, m) && !NamesProtectedVariable(lib, p, r, m)
  }

  /** Some domain or tool draws an explicit ALLOW: the limits are then not looked at. */
  ghost predicate Waived(lib: Library, p: Policy, r: Request, m: Metadata) {
    exists e :: (NetworkSays(lib, p, r, m, e) || ToolsSay(lib, p, r, m, e)) && e.decision == Allow
  }

  lemma PathsSayNo(lib: Library, p: Policy, r: Request, m: Metadata, e: Ruling)
    requires PathRuleBlocks(p) && PathsSay(lib, p, r, m, e)
    ensures e.decision != Allow
  {
    var v :| PathSubject(lib, r, m, v) && PathDraws(lib, p, v, e);
    assert Given(v);
    hide ForbiddenPath, OutsidePaths, PathSubject;
  }

  /** A request is allowed exactly when it is clean, no path it names offends, no domain or tool draws
      anything but ALLOW, and it is within the limits unless such an ALLOW waives them. */
  lemma AllowedExactly(lib: Library, p: Policy, r: Request, m: Metadata)
    requires PathRuleBlocks(p)
    ensures Evaluate(lib, p, r, m).decision == Allow <==>
              && Clean(lib, p, r, m)
              && (forall e :: !PathsSay(lib, p, r, m, e))
              && (forall e :: NetworkSays(lib, p, r, m, e) || ToolsSay(lib, p, r, m, e) ==> e.decision == Allow)
              && (Waived(lib, p, r, m) || ((forall n :: !TooMany(lib, p, r, m, n)) && !Overran(lib, p, m)))
  {
    hide Evaluate, Draws, DrawsLater, Clean, PathsSay, NetworkSays, ToolsSay, Waived, TooMany, Overran;
    EvaluateDraws(lib, p, r, m);
    var e := Evaluate(lib, p, r, m);
    CleanFirst(lib, p, r, m, e);
    if Clean(lib, p, r, m) {
      LaterAllowed(lib, p, r, m, e);
    }
  }

  lemma CleanFirst(lib: Library, p: Policy, r: Request, m: Metadata, e: Ruling)
    requires Draws(lib, p, r, m, e)
    ensures if Clean(lib, p, r, m) then DrawsLater(lib, p, r, m, e) else e.decision != Allow
  {
    hide RaisesPrivileges, CriticalCommand, ReachesHost, Persists, TouchesHostPath, NamesProtectedVariable, DrawsLater;
  }

  lemma LaterAllowed(lib: Library, p: Policy, r: Request, m: Metadata, e: Ruling)
    requires PathRuleBlocks(p) && DrawsLater(lib, p, r, m, e)
    ensures e.decision == Allow <==>
              && (forall f :: !PathsSay(lib, p, r, m, f))
              && (forall f :: NetworkSays(lib, p, r, m, f) || ToolsSay(lib, p, r, m, f) ==> f.decision == Allow)
              && (Waived(lib, p, r, m) || ((forall n :: !TooMany(lib, p, r, m, n)) && !Overran(lib, p, m)))
  {
    hide PathRuleBlocks, PathsSay, NetworkSays, ToolsSay, TooMany, Overran, PathsDecide, NetworkDecides, ToolsDecide;
    DecideAllow(lib, p, r, m, e);
    OneKind(lib, p, r, m);
    if f :| NetworkSays(lib, p, r, m, f) {
      assert Waived(lib, p, r, m) <==> exists f :: NetworkSays(lib, p, r, m, f) && f.decision == Allow;
    } else if f :| ToolsSay(lib, p, r, m, f) {
      assert Waived(lib, p, r, m) <==> exists f :: ToolsSay(lib, p, r, m, f) && f.decision == Allow;
    }
  }

  /** The strictest is ALLOW exactly when all are. */
  lemma DecideAllow(lib: Library, p: Policy, r: Request, m: Metadata, e: Ruling)
    requires PathRuleBlocks(p)
    ensures PathsDecide(lib, p, r, m, e) ==> e.decision != Allow
    ensures NetworkDecides(lib, p, r, m, e) ==>
              NetworkSays(lib, p, r, m, e) &&
              (e.decision == Allow <==> forall f :: NetworkSays(lib, p, r, m, f) ==> f.decision == Allow)
    ensures ToolsDecide(lib, p, r, m, e) ==>
              ToolsSay(lib, p, r, m, e) &&
              (e.decision == Allow <==> forall f :: ToolsSay(lib, p, r, m, f) ==> f.decision == Allow)
  {
    if PathsDecide(lib, p, r, m, e) {
      PathsSayNo(lib, p, r, m, e);
    }
    hide PathsSay, NetworkSays, ToolsSay, PathRuleBlocks;
  }

  /** A request is judged by its domains or by its tools, and neither kind is counted. */
  lemma OneKind(lib: Library, p: Policy, r: Request, m: Metadata)
    ensures forall e, f :: !(NetworkSays(lib, p, r, m, e) && ToolsSay(lib, p, r, m, f))
    ensures forall e, n :: !((NetworkSays(lib, p, r, m, e) || ToolsSay(lib, p, r, m, e)) && TooMany(lib, p, r, m, n))
  {
    hide HostSubject, ToolSubject, NetworkDraws, ToolDraws, JudgedCount;
  }

  // ---- what is refused whatever else is said ----------------------------------------------------

  lemma AbsoluteIsShaped(lib: Library, s: string)
    requires s != "" && s[0] == '/'
    ensures PathShaped(lib, s)
  {
    var i, j := StripMeans(s);
    assert !IsSpace('/');
    assert Trims(s, i, j) && i == 0 && j > 0;
    assert StartsPath(lib, s[i..j]);
  }

  lemma ShapedHoldsText(lib: Library, s: string)
    requires PathShaped(lib, s) || HostShaped(s)
    ensures s != ""
  {
  }

  /** A file request for a path that the configuration forbids, or that lies outside what it
      allows, is refused whatever its metadata say. */
  lemma ForbiddenPathRefused(lib: Library, p: Policy, r: Request, m: Metadata)
    requires IsFileEvent(r) && p.pathRule.None? && PathShaped(lib, r.resource)
    requires ForbiddenPath(lib, p, Text(r.resource)) || OutsidePaths(lib, p, Text(r.resource))
    ensures Evaluate(lib, p, r, m).decision != Allow
  {
    hide Evaluate, Clean, Waived, TooMany, Overran, NeverAllows, PathShaped, ForbiddenPath, OutsidePaths;
    ShapedHoldsText(lib, r.resource);
    var rule := if ForbiddenPath(lib, p, Text(r.resource)) then "forbidden_path" else "path_not_allowed";
    var e := Ruling(Deny, High, rule);
    assert PathSubject(lib, r, m, Text(r.resource)) && PathDraws(lib, p, Text(r.resource), e);
    assert PathsSay(lib, p, r, m, e);
    hide PathsSay, NetworkSays, ToolsSay;
    AllowedExactly(lib, p, r, m);
  }

  /** A network request for a forbidden host, or for a target that is no host while the network is
      restricted, is refused whatever its metadata say. */
  lemma ForbiddenHostRefused(lib: Library, p: Policy, r: Request, m: Metadata)
    requires IsNetworkEvent(r) && HostShaped(r.resource) && PathRuleBlocks(p)
    requires ForbiddenDomain(lib, p, Text(r.resource)) || (Restricted(p) && Unresolvable(lib, Text(r.resource)))
    ensures Evaluate(lib, p, r, m).decision != Allow
  {
    hide Evaluate, Clean, Waived, TooMany, Overran, PathRuleBlocks, HostShaped, Unresolvable;
    ShapedHoldsText(lib, r.resource);
    var e := Ruling(Deny, High, if ForbiddenDomain(lib, p, Text(r.resource)) then "forbidden_domain"
                                else "unresolvable_network_target");
    assert HostSubject(r, m, Text(r.resource)) && NetworkDraws(lib, p, Text(r.resource), e);
    assert NetworkSays(lib, p, r, m, e);
    hide PathsSay, NetworkSays, ToolsSay;
    AllowedExactly(lib, p, r, m);
  }

  lemma ForbiddenToolRefused(lib: Library, p: Policy, r: Request, m: Metadata)
    requires IsToolEvent(r) && r.resource != "" && PathRuleBlocks(p)
    requires ForbiddenTool(lib, p, Text(r.resource))
    ensures Evaluate(lib, p, r, m).decision != Allow
  {
    hide Evaluate, Clean, Waived, TooMany, Overran, PathRuleBlocks;
    var e := Ruling(Deny, High, "forbidden_tool");
    assert ToolSubject(r, m, Text(r.resource)) && ToolDraws(lib, p, Text(r.resource), e);
    assert ToolsSay(lib, p, r, m, e);
    hide PathsSay, NetworkSays, ToolsSay;
    AllowedExactly(lib, p, r, m);
  }

  /** A true flag kills, unless the configuration permits what it reports. */
  lemma FlagsKill(lib: Library, p: Policy, r: Request, m: Metadata)
    requires || (Asserted(m, "privilege_escalation") && !p.allowPrivilegeEscalation)
             || (Asserted(m, "host_resource") && !p.allowHostResourceAccess)
             || (Asserted(m, "persistence") && !p.allowPersistence)
    ensures Evaluate(lib, p, r, m).decision == Kill
  {
    EvaluateDraws(lib, p, r, m);
    hide Evaluate, Asserted, DrawsLater;
  }

  lemma CountIsJudged(lib: Library, m: Metadata, k: int) returns (n: int)
    requires Measured(m, "process_count", k)
    ensures n >= k && JudgedCount(lib, m, n)
  {
    n := k;
    if j :| Counts(lib, m, "child_processes", j) && j > k {
      n := j;
    }
  }

  /** A measured count above the limit refuses whatever is claimed, and so does a measured time above it
      unless a domain or a tool draws an explicit ALLOW. */
  lemma OverLimitRefused(lib: Library, p: Policy, r: Request, m: Metadata, n: int)
    requires PathRuleBlocks(p)
    requires || (r.kind == "process_creation" && Measured(m, "process_count", n) && n > p.maxProcesses)
             || (Measured(m, "runtime_seconds", n) && n > p.maxRuntimeSeconds && !Waived(lib, p, r, m))
    ensures Evaluate(lib, p, r, m).decision != Allow
  {
    hide Evaluate, NetworkSays, ToolsSay, PathsSay, Clean, PathRuleBlocks, Waived, JudgedCount;
    AllowedExactly(lib, p, r, m);
    if r.kind == "process_creation" && Measured(m, "process_count", n) && n > p.maxProcesses {
      var k := CountIsJudged(lib, m, n);
      assert TooMany(lib, p, r, m, k);
      assert !Waived(lib, p, r, m) by {
        NotWaived(lib, p, r, m);
      }
    }
  }

  lemma NotWaived(lib: Library, p: Policy, r: Request, m: Metadata)
    ensures r.kind == "process_creation" ==> !Waived(lib, p, r, m)
  {
  }
}
