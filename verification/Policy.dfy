/** The policy engine: eleven rules in a fixed order, and what a client can and cannot obtain by adding
    claims to a request (`watcher/policy.py`, `watcher/authority.py`).

    The regular expressions and the path, domain and tool normalisers are arbitrary functions.
  */
module Policy {
  import opened Strings
  import opened Decisions
  import opened Trace

  type Metadata = map<string, Json>

  /** A value of Python's `float`, rounding aside. */
  datatype Seconds = NotANumber | MinusInfinity | At(seconds: real) | PlusInfinity

  /** What the rules call but this model does not look into. */
  datatype Library = Library(
    parseInt: string -> Option<int>,
    parseFloat: string -> Option<Seconds>,
    isAlpha: char -> bool,
    upper: string -> string,
    text: Json -> string,
    raisesPrivileges: string -> bool,
    criticalCommand: string -> Option<string>,
    touchesEscape: string -> bool,
    touchesPersistence: string -> bool,
    normalisePath: Json -> string,
    anyPathMatches: (string, seq<string>) -> bool,
    extractDomain: Json -> string,
    domainMatchesAny: (string, seq<string>) -> bool,
    normaliseTool: Json -> string)

  datatype Ruling = Ruling(decision: Decision, risk: Risk, rule: string)

  datatype Policy = Policy(
    allowedPaths: seq<string>, forbiddenPaths: seq<string>,
    allowedDomains: seq<string>, forbiddenDomains: seq<string>,
    restrictNetwork: Option<bool>, unknownDomain: Decision,
    allowedTools: seq<string>, forbiddenTools: seq<string>, unknownTool: Decision,
    maxProcesses: nat, maxRuntimeSeconds: nat, killMultiplier: nat,
    protectedEnvVars: seq<string>,
    allowPrivilegeEscalation: bool, allowHostResourceAccess: bool, allowPersistence: bool,
    pathRule: Option<Json -> Option<Ruling>>)
  {
    predicate NetworkIsRestricted() {
      if restrictNetwork.Some? then restrictNetwork.value else allowedDomains != []
    }
  }

  datatype Request = Request(kind: string, action: string, resource: string)

  const FILE_EVENTS := {"file_access", "file_modification"}
  const NETWORK_EVENTS := {"network_request", "api_request"}
  const TOOL_EVENTS := {"tool_request", "model_call"}

  // ---- values -----------------------------------------------------------------------------------

  predicate Truthy(v: Json) {
    match v
    case Null => false
    case Flag(b) => b
    case Num(n) => n != 0
    case Text(s) => s != ""
    case Arr(items) => items != []
    case Obj(fields) => fields != map[]
  }

  /** Neither missing nor the empty string: worth a candidate. */
  predicate Given(v: Json) {
    v != Null && v != Text("")
  }

  function Claim(m: Metadata, key: string): Json {
    if key in m then m[key] else Null
  }

  /** `int(value)`, where it does not raise. */
  function ToInt(lib: Library, v: Json): Option<int> {
    match v
    case Num(n) => Some(n)
    case Flag(b) => Some(if b then 1 else 0)
    case Text(s) => lib.parseInt(s)
    case _ => None
  }

  /** `float(value)`, where it does not raise. */
  function ToSeconds(lib: Library, v: Json): Option<Seconds> {
    match v
    case Num(n) => Some(At(n as real))
    case Flag(b) => Some(At(if b then 1.0 else 0.0))
    case Text(s) => lib.parseFloat(s)
    case _ => None
  }

  /** `a > b`, false for anything compared with NaN. */
  predicate Exceeds(a: Seconds, b: Seconds) {
    match (a, b)
    case (NotANumber, _) => false
    case (_, NotANumber) => false
    case (PlusInfinity, _) => b != PlusInfinity
    case (_, PlusInfinity) => false
    case (MinusInfinity, _) => false
    case (_, MinusInfinity) => true
    case (At(x), At(y)) => x > y
  }

  /** A fact in the supervisor's reserved namespace, if it is there and an integer. */
  function Observed(m: Metadata, key: string): Option<int> {
    var facts := Claim(m, "authoritative");
    if facts.Obj? && key in facts.fields && facts.fields[key].Num? then Some(facts.fields[key].num) else None
  }

  predicate LooksLikePath(lib: Library, resource: string) {
    var text := Strip(resource);
    text != "" &&
    (("/" <= text || "./" <= text || "../" <= text || "~" <= text) ||
     (|text| > 2 && text[1] == ':' && lib.isAlpha(text[0]) && (text[2] == '\\' || text[2] == '/')))
  }

  predicate LooksLikeHost(resource: string) {
    var text := Strip(resource);
    text != "" &&
    (Contains(text, "://") ||
     var first := Split(text, '/')[0];
     var parts := Split(first, '@');
     var head := parts[|parts| - 1];
     "[" <= head || ':' in head || '.' in head)
  }

  /** `add` in `candidate_values`: nothing missing, nothing twice. */
  function Add(candidates: seq<Json>, v: Json): seq<Json> {
    if !Given(v) || v in candidates then candidates else candidates + [v]
  }

  function PathCandidates(lib: Library, m: Metadata, resource: string): seq<Json> {
    var first := if LooksLikePath(lib, resource) then Add([], Text(resource)) else [];
    var both := Add(first, Claim(m, "path"));
    if both == [] then Add([], Text(resource)) else both
  }

  function DomainCandidates(m: Metadata, resource: string): seq<Json> {
    var claimed := Claim(m, "domain");
    var first := if LooksLikeHost(resource) || !Truthy(claimed) then Add([], Text(resource)) else [];
    var both := Add(first, claimed);
    if both == [] then Add([], Text(resource)) else both
  }

  function ToolCandidates(m: Metadata, r: Request): seq<Json> {
    var candidates := Add(Add([], Claim(m, "tool")), Text(r.resource));
    if candidates == [] && r.action != "" then [Text(r.action)] else candidates
  }

  // ---- the most severe of several ---------------------------------------------------------------

  function Rank(r: Option<Ruling>): nat {
    if r.Some? then Severity(r.value.decision) else 0
  }

  /** The first of the most severe. */
  function WorstOf(rulings: seq<Option<Ruling>>): Option<Ruling> {
    if rulings == [] then None
    else
      var best, last := WorstOf(rulings[..|rulings| - 1]), rulings[|rulings| - 1];
      if last.Some? && (best.None? || Rank(last) > Rank(best)) then last else best
  }

  method Worst(rulings: seq<Option<Ruling>>) returns (best: Option<Ruling>)
    ensures best == WorstOf(rulings)
    ensures best.None? <==> forall i :: 0 <= i < |rulings| ==> rulings[i].None?
    ensures forall i :: 0 <= i < |rulings| ==> Rank(rulings[i]) <= Rank(best)
    ensures best.Some? ==> best in rulings
  {
    best := None;
    for i := 0 to |rulings|
      invariant best == WorstOf(rulings[..i])
      invariant best.None? <==> forall j :: 0 <= j < i ==> rulings[j].None?
      invariant forall j :: 0 <= j < i ==> Rank(rulings[j]) <= Rank(best)
      invariant best.Some? ==> best in rulings
    {
      assert rulings[..i + 1][..i] == rulings[..i];
      if rulings[i].Some? && (best.None? || Severity(rulings[i].value.decision) > Severity(best.value.decision)) {
        best := rulings[i];
      }
    }
    assert rulings[..|rulings|] == rulings;
  }

  lemma {:induction false} WorstIsWorst(rulings: seq<Option<Ruling>>)
    ensures WorstOf(rulings).Some? ==> WorstOf(rulings) in rulings
    ensures forall r :: r in rulings ==> Rank(r) <= Rank(WorstOf(rulings))
    ensures forall r :: r in rulings && r.Some? ==> WorstOf(rulings).Some?
  {
    if rulings != [] {
      WorstIsWorst(rulings[..|rulings| - 1]);
      assert rulings == rulings[..|rulings| - 1] + [rulings[|rulings| - 1]];
    }
  }

  /** Of several equally severe, the first. */
  lemma {:induction false} WorstIsFirst(rulings: seq<Option<Ruling>>) returns (i: nat)
    requires WorstOf(rulings).Some?
    ensures i < |rulings| && rulings[i] == WorstOf(rulings)
    ensures forall j :: 0 <= j < i ==> rulings[j].None? || Rank(rulings[j]) < Rank(rulings[i])
  {
    var front, last := rulings[..|rulings| - 1], rulings[|rulings| - 1];
    if WorstOf(rulings) == WorstOf(front) && WorstOf(front).Some? {
      i := WorstIsFirst(front);
    } else {
      i := |rulings| - 1;
      WorstIsWorst(front);
      assert forall j :: 0 <= j < i ==> rulings[j] in front;
    }
  }

  function Rulings(verdict: Json -> Option<Ruling>, values: seq<Json>): seq<Option<Ruling>> {
    seq(|values|, i requires 0 <= i < |values| => verdict(values[i]))
  }

  /** More candidates, no milder an outcome. */
  lemma MoreIsWorse(verdict: Json -> Option<Ruling>, few: seq<Json>, many: seq<Json>)
    requires forall v :: v in few ==> v in many
    ensures Rank(WorstOf(Rulings(verdict, few))) <= Rank(WorstOf(Rulings(verdict, many)))
  {
    var a, b := Rulings(verdict, few), Rulings(verdict, many);
    WorstIsWorst(a);
    WorstIsWorst(b);
    if WorstOf(a).Some? {
      var i :| 0 <= i < |a| && a[i] == WorstOf(a);
      assert few[i] in few;
      var j :| 0 <= j < |many| && many[j] == few[i];
      assert b[j] in b;
    }
  }

  // ---- the eleven rules -------------------------------------------------------------------------

  function Haystack(r: Request): string {
    r.action + " " + r.resource
  }

  function PrivilegeRule(lib: Library, p: Policy, r: Request, m: Metadata): Option<Ruling> {
    if p.allowPrivilegeEscalation then None
    else if Truthy(Claim(m, "privilege_escalation"))
            || (r.kind in {"shell_command", "process_creation"}
                && (lib.raisesPrivileges(r.resource) || lib.raisesPrivileges(r.action)))
    then Some(Ruling(Kill, Critical, "privilege_escalation"))
    else None
  }

  function CriticalRule(lib: Library, p: Policy, r: Request, m: Metadata): Option<Ruling> {
    if r.kind != "shell_command" then None
    else
      match lib.criticalCommand(Haystack(r))
      case Some(name) => Some(Ruling(Kill, Critical, "critical_command:" + name))
      case None => None
  }

  function EscapeRule(lib: Library, p: Policy, r: Request, m: Metadata): Option<Ruling> {
    if Truthy(Claim(m, "host_resource")) && !p.allowHostResourceAccess then
      Some(Ruling(Kill, Critical, "host_resource_access"))
    else if lib.touchesEscape(Haystack(r)) then Some(Ruling(Kill, Critical, "sandbox_escape"))
    else None
  }

  function PersistenceRule(lib: Library, p: Policy, r: Request, m: Metadata): Option<Ruling> {
    if p.allowPersistence then None
    else if Truthy(Claim(m, "persistence"))
            || (r.kind in {"shell_command", "file_modification", "process_creation"}
                && lib.touchesPersistence(Haystack(r)))
    then Some(Ruling(Kill, Critical, "persistence_attempt"))
    else None
  }

  function HostVerdict(lib: Library, v: Json): Option<Ruling> {
    var path := lib.normalisePath(v);
    if "/proc/1" <= path || "/sys/" <= path || path == "/var/run/docker.sock" then
      Some(Ruling(Kill, Critical, "host_resource_access"))
    else None
  }

  function HostRule(lib: Library, p: Policy, r: Request, m: Metadata): Option<Ruling> {
    if p.allowHostResourceAccess || r.kind !in FILE_EVENTS then None
    else WorstOf(Rulings(v => HostVerdict(lib, v), PathCandidates(lib, m, r.resource)))
  }

  function EnvVarRule(lib: Library, p: Policy, r: Request, m: Metadata): Option<Ruling> {
    var claimed := Claim(m, "env_var");
    var name := if !Truthy(claimed) && r.kind in {"env_access", "environment_access"} then Text(r.resource)
                else claimed;
    if Truthy(name) && lib.upper(lib.text(name)) in p.protectedEnvVars then
      Some(Ruling(Deny, High, "protected_env_var"))
    else None
  }

  function NormalisedAll(lib: Library, entries: seq<string>): seq<string> {
    seq(|entries|, i requires 0 <= i < |entries| => lib.normalisePath(Text(entries[i])))
  }

  /** A projected Policy V1 document brings its own path rule. */
  function PathVerdict(lib: Library, p: Policy, v: Json): Option<Ruling> {
    if p.pathRule.Some? then p.pathRule.value(v)
    else
      var path := lib.normalisePath(v);
      if path == "" then None
      else if lib.anyPathMatches(path, NormalisedAll(lib, p.forbiddenPaths)) then
        Some(Ruling(Deny, High, "forbidden_path"))
      else if p.allowedPaths != [] && !lib.anyPathMatches(path, NormalisedAll(lib, p.allowedPaths)) then
        Some(Ruling(Deny, High, "path_not_allowed"))
      else None
  }

  function PathsRule(lib: Library, p: Policy, r: Request, m: Metadata): Option<Ruling> {
    if r.kind !in FILE_EVENTS && !Truthy(Claim(m, "path")) then None
    else WorstOf(Rulings(v => PathVerdict(lib, p, v), PathCandidates(lib, m, r.resource)))
  }

  function NetworkVerdict(lib: Library, p: Policy, v: Json): Option<Ruling> {
    var domain := if Truthy(v) then lib.extractDomain(v) else "";
    if domain == "" then
      if p.NetworkIsRestricted() then Some(Ruling(Deny, High, "unresolvable_network_target")) else None
    else if p.forbiddenDomains != [] && lib.domainMatchesAny(domain, p.forbiddenDomains) then
      Some(Ruling(Deny, High, "forbidden_domain"))
    else if p.NetworkIsRestricted() && !lib.domainMatchesAny(domain, p.allowedDomains) then
      Some(Ruling(p.unknownDomain, High, "domain_not_allowed"))
    else None
  }

  function NetworkRule(lib: Library, p: Policy, r: Request, m: Metadata): Option<Ruling> {
    if r.kind !in NETWORK_EVENTS then None
    else WorstOf(Rulings(v => NetworkVerdict(lib, p, v), DomainCandidates(m, r.resource)))
  }

  predicate Names(lib: Library, tools: seq<string>, tool: string) {
    exists i :: 0 <= i < |tools| && lib.normaliseTool(Text(tools[i])) == tool
  }

  function ToolVerdict(lib: Library, p: Policy, v: Json): Option<Ruling> {
    var tool := lib.normaliseTool(v);
    if tool == "" then None
    else if Names(lib, p.forbiddenTools, tool) then Some(Ruling(Deny, High, "forbidden_tool"))
    else if p.allowedTools != [] && !Names(lib, p.allowedTools, tool) then
      Some(Ruling(p.unknownTool, Elevated, "tool_not_allowed"))
    else None
  }

  function ToolsRule(lib: Library, p: Policy, r: Request, m: Metadata): Option<Ruling> {
    if r.kind !in TOOL_EVENTS then None
    else WorstOf(Rulings(v => ToolVerdict(lib, p, v), ToolCandidates(m, r)))
  }

  /** The process count to judge: the larger of the measurement and the claim, or without a
      measurement the first claim that is a number. */
  function CountInput(lib: Library, m: Metadata): Option<int> {
    var measured, alias := Observed(m, "process_count"), ToInt(lib, Claim(m, "child_processes"));
    if measured.Some? then
      if alias.Some? && alias.value > measured.value then alias else measured
    else
      var claimed := if "child_processes" in m then alias else ToInt(lib, Claim(m, "process_count"));
      if claimed.Some? then claimed else alias
  }

  function ProcessesRule(lib: Library, p: Policy, r: Request, m: Metadata): Option<Ruling> {
    if r.kind != "process_creation" then None
    else
      match CountInput(lib, m)
      case None => None
      case Some(count) =>
        if count <= p.maxProcesses then None
        else if count > p.maxProcesses * p.killMultiplier then Some(Ruling(Kill, Critical, "max_processes_hard"))
        else Some(Ruling(Deny, High, "max_processes"))
  }

  /** `resolve_fact` for the two measured facts: the value, and whether the supervisor measured it. */
  function Resolve(m: Metadata, key: string): (Json, bool) {
    if Observed(m, key).Some? then (Num(Observed(m, key).value), true)
    else if key == "process_count" && "child_processes" in m then (m["child_processes"], false)
    else (Claim(m, key), false)
  }

  /** Two values, those that are no numbers skipped; with a measurement the larger counts. */
  method ProcessCountInput(lib: Library, m: Metadata) returns (count: Option<int>)
    ensures count == CountInput(lib, m)
  {
    var (value, measured) := Resolve(m, "process_count");
    var values := [value, Claim(m, "child_processes")];
    var candidates: seq<int> := [];
    for i := 0 to 2
      invariant candidates == (if i >= 1 then Parsed(ToInt(lib, values[0])) else []) +
                              (if i >= 2 then Parsed(ToInt(lib, values[1])) else [])
    {
      var n := ToInt(lib, values[i]);
      if n.Some? {
        candidates := candidates + [n.value];
      }
    }
    if candidates == [] {
      return None;
    }
    count := Some(candidates[0]);
    if measured && |candidates| == 2 && candidates[1] > candidates[0] {
      count := Some(candidates[1]);
    }
  }

  function Parsed<T>(value: Option<T>): seq<T> {
    if value.Some? then [value.value] else []
  }

  function ElapsedInput(lib: Library, m: Metadata): Option<Seconds> {
    var measured, claimed := Observed(m, "runtime_seconds"), ToSeconds(lib, Claim(m, "runtime_seconds"));
    if measured.None? then claimed
    else
      var seconds := At(measured.value as real);
      if claimed.Some? && Exceeds(claimed.value, seconds) then claimed else Some(seconds)
  }

  function RuntimeRule(lib: Library, p: Policy, r: Request, m: Metadata): Option<Ruling> {
    match ElapsedInput(lib, m)
    case None => None
    case Some(elapsed) =>
      if Exceeds(elapsed, At(p.maxRuntimeSeconds as real)) then Some(Ruling(Kill, High, "max_runtime")) else None
  }

  /** Every rule's answer, in the order they are asked. */
  function Answers(lib: Library, p: Policy, r: Request, m: Metadata): (answers: seq<Option<Ruling>>)
    ensures |answers| == 11
  {
    [PrivilegeRule(lib, p, r, m), CriticalRule(lib, p, r, m), EscapeRule(lib, p, r, m),
     PersistenceRule(lib, p, r, m), HostRule(lib, p, r, m), EnvVarRule(lib, p, r, m), PathsRule(lib, p, r, m),
     NetworkRule(lib, p, r, m), ToolsRule(lib, p, r, m), ProcessesRule(lib, p, r, m), RuntimeRule(lib, p, r, m)]
  }

  const DEFAULT_RULING := Ruling(Allow, Normal, "default")

  /** The first rule to answer wins, whatever it says. */
  function FirstAnswer(answers: seq<Option<Ruling>>): Ruling {
    if answers == [] then DEFAULT_RULING
    else if answers[0].Some? then answers[0].value
    else FirstAnswer(answers[1..])
  }

  function Evaluate(lib: Library, p: Policy, r: Request, m: Metadata): Ruling {
    FirstAnswer(Answers(lib, p, r, m))
  }

  // ---- adding claims ----------------------------------------------------------------------------

  /** `m'` is `m` with claims added: nothing replaced, and neither the supervisor's namespace nor
      `env_var` among the additions. */
  predicate Claims(m: Metadata, m': Metadata) {
    && m.Keys <= m'.Keys
    && (forall key :: key in m ==> m'[key] == m[key])
    && ("env_var" in m' ==> "env_var" in m)
    && ("authoritative" in m' ==> "authoritative" in m)
  }

  predicate PathGuard(lib: Library, r: Request, m: Metadata) {
    r.resource == "" || LooksLikePath(lib, r.resource) || "path" in m
  }

  predicate DomainGuard(r: Request, m: Metadata) {
    r.resource == "" || LooksLikeHost(r.resource) || "domain" in m
  }

  predicate ToolGuard(r: Request, m: Metadata) {
    r.resource != "" || r.action == "" || "tool" in m
  }

  predicate CountGuard(lib: Library, m: Metadata) {
    Observed(m, "process_count").Some? || "child_processes" in m || ToInt(lib, Claim(m, "process_count")).None?
  }

  ghost predicate Within(few: seq<Json>, many: seq<Json>) {
    forall v :: v in few ==> v in many
  }

  ghost predicate AtLeast(many: Option<int>, few: Option<int>) {
    few.Some? ==> many.Some? && many.value >= few.value
  }

  lemma ClaimKept(m: Metadata, m': Metadata, key: string)
    requires Claims(m, m') && key in m
    ensures Claim(m', key) == Claim(m, key)
  {
  }

  lemma PathsKept(lib: Library, r: Request, m: Metadata, m': Metadata)
    requires Claims(m, m') && PathGuard(lib, r, m)
    ensures Within(PathCandidates(lib, m, r.resource), PathCandidates(lib, m', r.resource))
  {
  }

  /** No path the rules would look at can be talked out of sight exactly when the resource is empty
      or shaped like a path, or the path claim is already there. */
  lemma PathsKeptExactly(lib: Library, r: Request, m: Metadata)
    ensures (forall m' :: Claims(m, m') ==>
               Within(PathCandidates(lib, m, r.resource), PathCandidates(lib, m', r.resource)))
            <==> PathGuard(lib, r, m)
  {
    if PathGuard(lib, r, m) {
      forall m' | Claims(m, m')
        ensures Within(PathCandidates(lib, m, r.resource), PathCandidates(lib, m', r.resource))
      {
        PathsKept(lib, r, m, m');
      }
    } else {
      var m' := m["path" := Text(r.resource + "x")];
      assert PathCandidates(lib, m, r.resource) == [Text(r.resource)];
      assert PathCandidates(lib, m', r.resource) == [Text(r.resource + "x")];
      assert |r.resource + "x"| > |r.resource|;
      assert Text(r.resource) in PathCandidates(lib, m, r.resource);
      assert Claims(m, m') && !Within(PathCandidates(lib, m, r.resource), PathCandidates(lib, m', r.resource));
    }
  }

  lemma DomainsKept(r: Request, m: Metadata, m': Metadata)
    requires Claims(m, m') && DomainGuard(r, m)
    ensures Within(DomainCandidates(m, r.resource), DomainCandidates(m', r.resource))
  {
  }

  lemma DomainDisplaced(r: Request, m: Metadata) returns (m': Metadata)
    requires !DomainGuard(r, m)
    ensures Claims(m, m') && !Within(DomainCandidates(m, r.resource), DomainCandidates(m', r.resource))
  {
    m' := m["domain" := Text(r.resource + "x")];
    assert DomainCandidates(m, r.resource) == [Text(r.resource)];
    assert DomainCandidates(m', r.resource) == [Text(r.resource + "x")];
    assert |r.resource + "x"| > |r.resource|;
    assert Text(r.resource) in DomainCandidates(m, r.resource);
  }

  lemma DomainsKeptExactly(r: Request, m: Metadata)
    ensures (forall m' :: Claims(m, m') ==>
               Within(DomainCandidates(m, r.resource), DomainCandidates(m', r.resource)))
            <==> DomainGuard(r, m)
  {
    hide DomainCandidates, DomainGuard, Claims, Within;
    if DomainGuard(r, m) {
      forall m' | Claims(m, m')
        ensures Within(DomainCandidates(m, r.resource), DomainCandidates(m', r.resource))
      {
        DomainsKept(r, m, m');
      }
    } else {
      var m' := DomainDisplaced(r, m);
    }
  }

  lemma ToolsKept(r: Request, m: Metadata, m': Metadata)
    requires Claims(m, m') && ToolGuard(r, m)
    ensures Within(ToolCandidates(m, r), ToolCandidates(m', r))
  {
  }

  lemma ToolsKeptExactly(r: Request, m: Metadata)
    ensures (forall m' :: Claims(m, m') ==> Within(ToolCandidates(m, r), ToolCandidates(m', r)))
            <==> ToolGuard(r, m)
  {
    if ToolGuard(r, m) {
      forall m' | Claims(m, m')
        ensures Within(ToolCandidates(m, r), ToolCandidates(m', r))
      {
        ToolsKept(r, m, m');
      }
    } else {
      var m' := m["tool" := Text(r.action + "x")];
      assert ToolCandidates(m, r) == [Text(r.action)];
      assert ToolCandidates(m', r) == [Text(r.action + "x")];
      assert |r.action + "x"| > |r.action|;
      assert Text(r.action) in ToolCandidates(m, r);
      assert Claims(m, m') && !Within(ToolCandidates(m, r), ToolCandidates(m', r));
    }
  }

  lemma CountKept(lib: Library, m: Metadata, m': Metadata)
    requires Claims(m, m') && CountGuard(lib, m)
    ensures AtLeast(CountInput(lib, m'), CountInput(lib, m))
  {
    assert Observed(m', "process_count") == Observed(m, "process_count");
  }

  /** The judged process count can only be talked upwards exactly when the supervisor measured it, or
      there is no claimed count that a later `child_processes` could displace. */
  lemma CountKeptExactly(lib: Library, m: Metadata)
    ensures (forall m' :: Claims(m, m') ==> AtLeast(CountInput(lib, m'), CountInput(lib, m)))
            <==> CountGuard(lib, m)
  {
    if CountGuard(lib, m) {
      forall m' | Claims(m, m')
        ensures AtLeast(CountInput(lib, m'), CountInput(lib, m))
      {
        CountKept(lib, m, m');
      }
    } else {
      var claimed := ToInt(lib, Claim(m, "process_count")).value;
      var m' := m["child_processes" := Num(claimed - 1)];
      assert Observed(m', "process_count") == Observed(m, "process_count");
      assert CountInput(lib, m) == Some(claimed) && CountInput(lib, m') == Some(claimed - 1);
      assert Claims(m, m') && !AtLeast(CountInput(lib, m'), CountInput(lib, m));
    }
  }

  /** The guards that matter for this kind of request. */
  predicate Guarded(lib: Library, r: Request, m: Metadata) {
    && (r.kind in FILE_EVENTS ==> PathGuard(lib, r, m))
    && (r.kind in NETWORK_EVENTS ==> DomainGuard(r, m))
    && (r.kind in TOOL_EVENTS ==> ToolGuard(r, m))
    && (r.kind == "process_creation" ==> CountGuard(lib, m))
  }

  lemma FlagRulesMonotone(lib: Library, p: Policy, r: Request, m: Metadata, m': Metadata)
    requires Claims(m, m')
    ensures Rank(PrivilegeRule(lib, p, r, m)) <= Rank(PrivilegeRule(lib, p, r, m'))
    ensures CriticalRule(lib, p, r, m) == CriticalRule(lib, p, r, m')
    ensures Rank(EscapeRule(lib, p, r, m)) <= Rank(EscapeRule(lib, p, r, m'))
    ensures Rank(PersistenceRule(lib, p, r, m)) <= Rank(PersistenceRule(lib, p, r, m'))
    ensures EnvVarRule(lib, p, r, m) == EnvVarRule(lib, p, r, m')
  {
    assert Claim(m, "env_var") == Claim(m', "env_var");
    assert Truthy(Claim(m, "privilege_escalation")) ==> Truthy(Claim(m', "privilege_escalation"));
    assert Truthy(Claim(m, "host_resource")) ==> Truthy(Claim(m', "host_resource"));
    assert Truthy(Claim(m, "persistence")) ==> Truthy(Claim(m', "persistence"));
    hide Claims, Claim, Truthy;
  }

  lemma PathRulesMonotone(lib: Library, p: Policy, r: Request, m: Metadata, m': Metadata)
    requires Claims(m, m') && Guarded(lib, r, m)
    ensures Rank(HostRule(lib, p, r, m)) <= Rank(HostRule(lib, p, r, m'))
    ensures Rank(PathsRule(lib, p, r, m)) <= Rank(PathsRule(lib, p, r, m'))
  {
    var few, many := PathCandidates(lib, m, r.resource), PathCandidates(lib, m', r.resource);
    if r.kind in FILE_EVENTS {
      PathsKept(lib, r, m, m');
      MoreIsWorse(v => HostVerdict(lib, v), few, many);
      MoreIsWorse(v => PathVerdict(lib, p, v), few, many);
    } else if Truthy(Claim(m, "path")) {
      ClaimKept(m, m', "path");
    }
  }

  lemma TargetRulesMonotone(lib: Library, p: Policy, r: Request, m: Metadata, m': Metadata)
    requires Claims(m, m') && Guarded(lib, r, m)
    ensures Rank(NetworkRule(lib, p, r, m)) <= Rank(NetworkRule(lib, p, r, m'))
    ensures Rank(ToolsRule(lib, p, r, m)) <= Rank(ToolsRule(lib, p, r, m'))
  {
    if r.kind in NETWORK_EVENTS {
      DomainsKept(r, m, m');
      MoreIsWorse(v => NetworkVerdict(lib, p, v), DomainCandidates(m, r.resource), DomainCandidates(m', r.resource));
    }
    if r.kind in TOOL_EVENTS {
      ToolsKept(r, m, m');
      MoreIsWorse(v => ToolVerdict(lib, p, v), ToolCandidates(m, r), ToolCandidates(m', r));
    }
  }

  lemma LimitRulesMonotone(lib: Library, p: Policy, r: Request, m: Metadata, m': Metadata)
    requires Claims(m, m') && Guarded(lib, r, m)
    ensures Rank(ProcessesRule(lib, p, r, m)) <= Rank(ProcessesRule(lib, p, r, m'))
    ensures Rank(RuntimeRule(lib, p, r, m)) <= Rank(RuntimeRule(lib, p, r, m'))
  {
    CountLimitMonotone(lib, p, r, m, m');
    RuntimeLimitMonotone(lib, p, r, m, m');
    hide ProcessesRule, RuntimeRule, Claims, Guarded;
  }

  lemma CountLimitMonotone(lib: Library, p: Policy, r: Request, m: Metadata, m': Metadata)
    requires Claims(m, m') && (r.kind == "process_creation" ==> CountGuard(lib, m))
    ensures Rank(ProcessesRule(lib, p, r, m)) <= Rank(ProcessesRule(lib, p, r, m'))
  {
    if r.kind == "process_creation" {
      CountKept(lib, m, m');
    }
    hide Claims, CountInput, CountGuard;
  }

  lemma RuntimeLimitMonotone(lib: Library, p: Policy, r: Request, m: Metadata, m': Metadata)
    requires Claims(m, m')
    ensures Rank(RuntimeRule(lib, p, r, m)) <= Rank(RuntimeRule(lib, p, r, m'))
  {
    assert Observed(m', "runtime_seconds") == Observed(m, "runtime_seconds");
    assert Claim(m, "runtime_seconds") == Null || Claim(m', "runtime_seconds") == Claim(m, "runtime_seconds");
    hide Claims, Observed, Claim;
  }

  /** A claim may only add restriction: no single rule becomes milder when claims are added. */
  lemma RulesMonotone(lib: Library, p: Policy, r: Request, m: Metadata, m': Metadata, i: nat)
    requires Claims(m, m') && Guarded(lib, r, m) && i < 11
    ensures Rank(Answers(lib, p, r, m)[i]) <= Rank(Answers(lib, p, r, m')[i])
  {
    hide PrivilegeRule, CriticalRule, EscapeRule, PersistenceRule, HostRule, EnvVarRule, PathsRule, NetworkRule,
         ToolsRule, ProcessesRule, RuntimeRule;
    if i < 4 || i == 5 {
      FlagRulesMonotone(lib, p, r, m, m');
    } else if i == 4 || i == 6 {
      PathRulesMonotone(lib, p, r, m, m');
    } else if i < 9 {
      TargetRulesMonotone(lib, p, r, m, m');
    } else {
      LimitRulesMonotone(lib, p, r, m, m');
    }
  }

  // ---- the verdict as a whole -------------------------------------------------------------------

  lemma {:induction false} FirstAnswerIsOne(answers: seq<Option<Ruling>>)
    ensures FirstAnswer(answers) == DEFAULT_RULING || Some(FirstAnswer(answers)) in answers
    ensures FirstAnswer(answers) == DEFAULT_RULING ||
            exists i :: 0 <= i < |answers| && answers[i] == Some(FirstAnswer(answers))
  {
    if answers != [] && answers[0].None? {
      FirstAnswerIsOne(answers[1..]);
    }
  }

  lemma {:induction false} FirstAnswerBlocks(answers: seq<Option<Ruling>>, i: nat)
    requires i < |answers| && answers[i].Some?
    requires forall j :: 0 <= j < |answers| && answers[j].Some? ==> Blocked(answers[j].value.decision)
    ensures Blocked(FirstAnswer(answers).decision)
  {
    if answers[0].None? {
      FirstAnswerBlocks(answers[1..], i - 1);
    }
  }

  ghost predicate NeverAllows(verdict: Json -> Option<Ruling>) {
    forall v :: Given(v) && verdict(v).Some? ==> Blocked(verdict(v).value.decision)
  }

  /** No value can draw an explicit ALLOW from the network rule or the tool rule. */
  ghost predicate NoRuleAllows(lib: Library, p: Policy) {
    NeverAllows(v => NetworkVerdict(lib, p, v)) && NeverAllows(v => ToolVerdict(lib, p, v))
  }

  lemma WorstBlocks(verdict: Json -> Option<Ruling>, values: seq<Json>)
    requires NeverAllows(verdict) && forall v :: v in values ==> Given(v)
    ensures var w := WorstOf(Rulings(verdict, values)); w.Some? ==> Blocked(w.value.decision)
  {
    var rulings := Rulings(verdict, values);
    WorstIsWorst(rulings);
    if WorstOf(rulings).Some? {
      var i :| 0 <= i < |rulings| && rulings[i] == WorstOf(rulings);
      assert values[i] in values;
    }
  }

  lemma PathsGiven(lib: Library, resource: string, m: Metadata)
    ensures forall v :: v in PathCandidates(lib, m, resource) ==> Given(v)
  {
    hide LooksLikePath;
  }

  lemma DomainsGiven(resource: string, m: Metadata)
    ensures forall v :: v in DomainCandidates(m, resource) ==> Given(v)
  {
    hide LooksLikeHost;
  }

  lemma ToolsGiven(r: Request, m: Metadata)
    ensures forall v :: v in ToolCandidates(m, r) ==> Given(v)
  {
  }

  ghost predicate BlocksIfAny(answer: Option<Ruling>) {
    answer.Some? ==> Blocked(answer.value.decision)
  }

  lemma FixedRulesBlock(lib: Library, p: Policy, r: Request, m: Metadata)
    ensures BlocksIfAny(PrivilegeRule(lib, p, r, m)) && BlocksIfAny(CriticalRule(lib, p, r, m))
    ensures BlocksIfAny(EscapeRule(lib, p, r, m)) && BlocksIfAny(PersistenceRule(lib, p, r, m))
    ensures BlocksIfAny(EnvVarRule(lib, p, r, m)) && BlocksIfAny(ProcessesRule(lib, p, r, m))
    ensures BlocksIfAny(RuntimeRule(lib, p, r, m))
  {
  }

  lemma HostNeverAllows(lib: Library)
    ensures NeverAllows(v => HostVerdict(lib, v))
  {
  }

  lemma PathAndNetworkRulesBlock(lib: Library, p: Policy, r: Request, m: Metadata)
    requires NeverAllows(v => NetworkVerdict(lib, p, v)) && NeverAllows(v => PathVerdict(lib, p, v))
    ensures BlocksIfAny(HostRule(lib, p, r, m)) && BlocksIfAny(PathsRule(lib, p, r, m))
    ensures BlocksIfAny(NetworkRule(lib, p, r, m))
  {
    PathsGiven(lib, r.resource, m);
    DomainsGiven(r.resource, m);
    HostNeverAllows(lib);
    hide PathCandidates, DomainCandidates, HostVerdict, PathVerdict, NetworkVerdict, NeverAllows;
    WorstBlocks(v => HostVerdict(lib, v), PathCandidates(lib, m, r.resource));
    WorstBlocks(v => PathVerdict(lib, p, v), PathCandidates(lib, m, r.resource));
    WorstBlocks(v => NetworkVerdict(lib, p, v), DomainCandidates(m, r.resource));
  }

  lemma ToolsRuleBlocks(lib: Library, p: Policy, r: Request, m: Metadata)
    requires NeverAllows(v => ToolVerdict(lib, p, v))
    ensures BlocksIfAny(ToolsRule(lib, p, r, m))
  {
    ToolsGiven(r, m);
    hide ToolCandidates, ToolVerdict, NeverAllows;
    WorstBlocks(v => ToolVerdict(lib, p, v), ToolCandidates(m, r));
  }

  lemma AnswersBlock(lib: Library, p: Policy, r: Request, m: Metadata)
    requires NoRuleAllows(lib, p) && NeverAllows(v => PathVerdict(lib, p, v))
    ensures forall answer :: answer in Answers(lib, p, r, m) ==> BlocksIfAny(answer)
  {
    FixedRulesBlock(lib, p, r, m);
    PathAndNetworkRulesBlock(lib, p, r, m);
    ToolsRuleBlocks(lib, p, r, m);
    hide PrivilegeRule, CriticalRule, EscapeRule, PersistenceRule, HostRule, EnvVarRule, PathsRule, NetworkRule,
         ToolsRule, ProcessesRule, RuntimeRule, BlocksIfAny;
  }

  /** Whatever is claimed on top, this request stays blocked if it was. */
  ghost predicate StaysBlocked(lib: Library, p: Policy, r: Request) {
    forall m, m' :: Claims(m, m') && Guarded(lib, r, m) && Blocked(Evaluate(lib, p, r, m).decision) ==>
      Blocked(Evaluate(lib, p, r, m').decision)
  }

  ghost predicate BlockedStaysBlocked(lib: Library, p: Policy) {
    forall r :: StaysBlocked(lib, p, r)
  }

  /** The daemon refuses a client's request whose type or action is blank. */
  predicate Sendable(r: Request) {
    Strip(r.kind) != "" && Strip(r.action) != ""
  }

  ghost predicate BlockedStaysForClients(lib: Library, p: Policy) {
    forall r :: Sendable(r) ==> StaysBlocked(lib, p, r)
  }

  lemma BlockedStays(lib: Library, p: Policy, r: Request, m: Metadata, m': Metadata)
    requires NoRuleAllows(lib, p) && NeverAllows(v => PathVerdict(lib, p, v))
    requires Claims(m, m') && Guarded(lib, r, m) && Blocked(Evaluate(lib, p, r, m).decision)
    ensures Blocked(Evaluate(lib, p, r, m').decision)
  {
    hide PrivilegeRule, CriticalRule, EscapeRule, PersistenceRule, HostRule, EnvVarRule, PathsRule, NetworkRule,
         ToolsRule, ProcessesRule, RuntimeRule, Claims, Guarded, NoRuleAllows, NeverAllows;
    var answers, answers' := Answers(lib, p, r, m), Answers(lib, p, r, m');
    FirstAnswerIsOne(answers);
    var i :| 0 <= i < |answers| && answers[i] == Some(FirstAnswer(answers));
    RulesMonotone(lib, p, r, m, m', i);
    AnswersBlock(lib, p, r, m');
    forall j | 0 <= j < 11 && answers'[j].Some?
      ensures Blocked(answers'[j].value.decision)
    {
      assert answers'[j] in answers';
    }
    FirstAnswerBlocks(answers', i);
  }

  // ---- requests that show the promise can fail ------------------------------------------------------

  /** A run that has lasted too long, and nothing else. */
  function Overdue(p: Policy): Metadata {
    map["authoritative" := Obj(map["runtime_seconds" := Num(p.maxRuntimeSeconds + 1)])]
  }

  /** A network or tool request whose text the escape pattern leaves alone. */
  predicate Plain(lib: Library, r: Request) {
    r.kind in NETWORK_EVENTS + TOOL_EVENTS && !lib.touchesEscape(Haystack(r))
  }

  const HARMLESS := "call"

  const CONNECT := Request("network_request", HARMLESS, "")

  /** Without an action, which no client can send. */
  const NAMELESS := Request("tool_request", "", "")

  lemma SingleRuling(verdict: Json -> Option<Ruling>, v: Json)
    ensures WorstOf(Rulings(verdict, [])) == None
    ensures WorstOf(Rulings(verdict, [v])) == verdict(v)
  {
    assert Rulings(verdict, [v])[..0] == [];
  }

  lemma PlainFlags(lib: Library, p: Policy, r: Request, m: Metadata)
    requires Plain(lib, r) && m.Keys <= {"authoritative", "domain", "tool"}
    ensures PrivilegeRule(lib, p, r, m).None? && CriticalRule(lib, p, r, m).None? && EscapeRule(lib, p, r, m).None?
    ensures PersistenceRule(lib, p, r, m).None? && EnvVarRule(lib, p, r, m).None?
  {
  }

  lemma PlainTargets(lib: Library, p: Policy, r: Request, m: Metadata)
    requires Plain(lib, r) && m.Keys <= {"authoritative", "domain", "tool"}
    ensures HostRule(lib, p, r, m).None? && PathsRule(lib, p, r, m).None? && ProcessesRule(lib, p, r, m).None?
    ensures r.kind in TOOL_EVENTS ==> NetworkRule(lib, p, r, m).None?
    ensures r.kind in NETWORK_EVENTS ==> ToolsRule(lib, p, r, m).None?
  {
    hide PathCandidates, DomainCandidates, ToolCandidates;
  }

  lemma OverdueRuntime(lib: Library, p: Policy, r: Request)
    ensures RuntimeRule(lib, p, r, Overdue(p)) == Some(Ruling(Kill, High, "max_runtime"))
  {
  }

  /** The network rule and the tool rule are the only ones a plain request can draw an answer from
      before the runtime limit. */
  lemma PlainAnswers(lib: Library, p: Policy, r: Request, m: Metadata)
    requires Plain(lib, r) && m.Keys <= {"authoritative", "domain", "tool"}
    ensures forall i :: 0 <= i < 10 && i != 7 && i != 8 ==> Answers(lib, p, r, m)[i].None?
    ensures r.kind in TOOL_EVENTS ==> Answers(lib, p, r, m)[7].None?
    ensures r.kind in NETWORK_EVENTS ==> Answers(lib, p, r, m)[8].None?
  {
    hide PrivilegeRule, CriticalRule, EscapeRule, PersistenceRule, HostRule, EnvVarRule, PathsRule, NetworkRule,
         ToolsRule, ProcessesRule, RuntimeRule, Plain;
    PlainFlags(lib, p, r, m);
    PlainTargets(lib, p, r, m);
    var a := Answers(lib, p, r, m);
    assert a[0].None? && a[1].None? && a[2].None? && a[3].None? && a[4].None?;
    assert a[5].None? && a[6].None? && a[9].None?;
    hide Answers;
  }

  lemma AnswersAre(lib: Library, p: Policy, r: Request, m: Metadata)
    ensures Answers(lib, p, r, m)[2] == EscapeRule(lib, p, r, m)
    ensures Answers(lib, p, r, m)[7] == NetworkRule(lib, p, r, m)
    ensures Answers(lib, p, r, m)[8] == ToolsRule(lib, p, r, m)
    ensures Answers(lib, p, r, m)[9] == ProcessesRule(lib, p, r, m)
    ensures Answers(lib, p, r, m)[10] == RuntimeRule(lib, p, r, m)
  {
    hide PrivilegeRule, CriticalRule, EscapeRule, PersistenceRule, HostRule, EnvVarRule, PathsRule, NetworkRule,
         ToolsRule, ProcessesRule, RuntimeRule;
  }

  /** When neither its host nor its tool draws an answer, an overdue request is killed for its runtime. */
  lemma OverdueKills(lib: Library, p: Policy, r: Request)
    requires Plain(lib, r)
    requires NetworkRule(lib, p, r, Overdue(p)).None? && ToolsRule(lib, p, r, Overdue(p)).None?
    ensures Evaluate(lib, p, r, Overdue(p)).decision == Kill
  {
    assert Overdue(p).Keys <= {"authoritative", "domain", "tool"};
    hide Plain, NetworkRule, ToolsRule, EscapeRule, ProcessesRule, RuntimeRule, Overdue, Answers;
    PlainAnswers(lib, p, r, Overdue(p));
    AnswersAre(lib, p, r, Overdue(p));
    OverdueRuntime(lib, p, r);
    SkipTo(Answers(lib, p, r, Overdue(p)), 10);
  }

  lemma PlainEvaluates(lib: Library, p: Policy, r: Request, m: Metadata)
    requires Plain(lib, r) && m.Keys <= {"authoritative", "domain", "tool"}
    ensures r.kind in NETWORK_EVENTS && NetworkRule(lib, p, r, m).Some? ==>
              Evaluate(lib, p, r, m) == NetworkRule(lib, p, r, m).value
    ensures r.kind in TOOL_EVENTS && ToolsRule(lib, p, r, m).Some? ==>
              Evaluate(lib, p, r, m) == ToolsRule(lib, p, r, m).value
  {
    hide Plain, NetworkRule, ToolsRule, EscapeRule, ProcessesRule, RuntimeRule, Answers;
    PlainAnswers(lib, p, r, m);
    AnswersAre(lib, p, r, m);
    if r.kind in NETWORK_EVENTS && NetworkRule(lib, p, r, m).Some? {
      SkipTo(Answers(lib, p, r, m), 7);
    }
    if r.kind in TOOL_EVENTS && ToolsRule(lib, p, r, m).Some? {
      SkipTo(Answers(lib, p, r, m), 8);
    }
  }

  lemma ConnectRulings(lib: Library, p: Policy, v: Json)
    requires Given(v)
    ensures NetworkRule(lib, p, CONNECT, Overdue(p)).None? && ToolsRule(lib, p, CONNECT, Overdue(p)).None?
    ensures NetworkRule(lib, p, CONNECT, Overdue(p)["domain" := v]) == NetworkVerdict(lib, p, v)
  {
    SingleRuling(w => NetworkVerdict(lib, p, w), v);
    assert DomainCandidates(Overdue(p), "") == [];
    assert DomainCandidates(Overdue(p)["domain" := v], "") == [v];
  }

  lemma NamelessRulings(lib: Library, p: Policy, v: Json)
    requires Given(v)
    ensures NetworkRule(lib, p, NAMELESS, Overdue(p)).None? && ToolsRule(lib, p, NAMELESS, Overdue(p)).None?
    ensures ToolsRule(lib, p, NAMELESS, Overdue(p)["tool" := v]) == ToolVerdict(lib, p, v)
  {
    SingleRuling(w => ToolVerdict(lib, p, w), v);
    assert ToolCandidates(Overdue(p), NAMELESS) == [];
    assert ToolCandidates(Overdue(p)["tool" := v], NAMELESS) == [v];
  }

  lemma Freed(lib: Library, p: Policy, r: Request, m: Metadata, m': Metadata)
    requires Claims(m, m') && Guarded(lib, r, m)
    requires Blocked(Evaluate(lib, p, r, m).decision) && !Blocked(Evaluate(lib, p, r, m').decision)
    ensures !StaysBlocked(lib, p, r)
  {
    hide Claims, Guarded, Evaluate;
  }

  lemma OverdueClaims(p: Policy, key: string, v: Json)
    requires key == "domain" || key == "tool"
    ensures Claims(Overdue(p), Overdue(p)[key := v])
    ensures Overdue(p)[key := v].Keys <= {"authoritative", "domain", "tool"}
  {
  }

  lemma AllowingDomainFrees(lib: Library, p: Policy, v: Json)
    requires Plain(lib, CONNECT) && Given(v)
    requires NetworkVerdict(lib, p, v).Some? && !Blocked(NetworkVerdict(lib, p, v).value.decision)
    ensures !StaysBlocked(lib, p, CONNECT)
  {
    PlainGuarded(lib, p, CONNECT);
    hide NetworkVerdict, NetworkRule, ToolsRule, Evaluate, Claims, Guarded, Plain, StaysBlocked;
    OverdueClaims(p, "domain", v);
    ConnectRulings(lib, p, v);
    OverdueKills(lib, p, CONNECT);
    PlainEvaluates(lib, p, CONNECT, Overdue(p)["domain" := v]);
    Freed(lib, p, CONNECT, Overdue(p), Overdue(p)["domain" := v]);
  }

  lemma AllowingToolFrees(lib: Library, p: Policy, v: Json)
    requires Plain(lib, NAMELESS) && Given(v)
    requires ToolVerdict(lib, p, v).Some? && !Blocked(ToolVerdict(lib, p, v).value.decision)
    ensures !StaysBlocked(lib, p, NAMELESS)
  {
    PlainGuarded(lib, p, NAMELESS);
    hide ToolVerdict, NetworkRule, ToolsRule, Evaluate, Claims, Guarded, Plain, StaysBlocked;
    OverdueClaims(p, "tool", v);
    NamelessRulings(lib, p, v);
    OverdueKills(lib, p, NAMELESS);
    PlainEvaluates(lib, p, NAMELESS, Overdue(p)["tool" := v]);
    Freed(lib, p, NAMELESS, Overdue(p), Overdue(p)["tool" := v]);
  }

  lemma {:induction false} SkipTo(answers: seq<Option<Ruling>>, k: nat)
    requires k < |answers| && answers[k].Some? && forall i :: 0 <= i < k ==> answers[i].None?
    ensures FirstAnswer(answers) == answers[k].value
  {
    if k > 0 {
      SkipTo(answers[1..], k - 1);
    }
  }

  /** A projected path rule answers, if at all, with one of the violation decisions, none of them
      ALLOW. */
  ghost predicate PathRuleBlocks(p: Policy) {
    p.pathRule.Some? ==> NeverAllows(p.pathRule.value)
  }

  lemma PathsNeverAllow(lib: Library, p: Policy)
    requires PathRuleBlocks(p)
    ensures NeverAllows(v => PathVerdict(lib, p, v))
  {
    forall v | Given(v) && PathVerdict(lib, p, v).Some?
      ensures Blocked(PathVerdict(lib, p, v).value.decision)
    {
    }
  }

  /** A configuration that never answers ALLOW to what it does not know keeps the promise. */
  lemma StrictConfigurationSuffices(lib: Library, p: Policy)
    requires p.NetworkIsRestricted() ==> p.unknownDomain != Allow
    requires p.allowedTools != [] ==> p.unknownTool != Allow
    ensures NoRuleAllows(lib, p)
  {
    forall v | Given(v)
      ensures NetworkVerdict(lib, p, v).Some? ==> Blocked(NetworkVerdict(lib, p, v).value.decision)
      ensures ToolVerdict(lib, p, v).Some? ==> Blocked(ToolVerdict(lib, p, v).value.decision)
    {
    }
  }

  /** For callers of the policy itself, a blocked request can be talked into an allowed one exactly when
      some domain or tool can draw an explicit ALLOW: the first rule to answer wins, and an ALLOW keeps
      the later rules, the runtime limit among them, from being asked. */
  lemma BlockedStaysExactly(lib: Library, p: Policy)
    requires Plain(lib, CONNECT) && Plain(lib, NAMELESS) && PathRuleBlocks(p)
    ensures BlockedStaysBlocked(lib, p) <==> NoRuleAllows(lib, p)
  {
    PathsNeverAllow(lib, p);
    if NoRuleAllows(lib, p) {
      forall r
        ensures StaysBlocked(lib, p, r)
      {
        AllStay(lib, p, r);
      }
    } else if !NeverAllows(v => NetworkVerdict(lib, p, v)) {
      var v :| Given(v) && NetworkVerdict(lib, p, v).Some? && !Blocked(NetworkVerdict(lib, p, v).value.decision);
      AllowingDomainFrees(lib, p, v);
    } else {
      var v :| Given(v) && ToolVerdict(lib, p, v).Some? && !Blocked(ToolVerdict(lib, p, v).value.decision);
      AllowingToolFrees(lib, p, v);
    }
  }

  lemma AllStay(lib: Library, p: Policy, r: Request)
    requires NoRuleAllows(lib, p) && NeverAllows(v => PathVerdict(lib, p, v))
    ensures StaysBlocked(lib, p, r)
  {
    hide Claims, Guarded, Evaluate, NoRuleAllows, NeverAllows;
    forall m, m' | Claims(m, m') && Guarded(lib, r, m) && Blocked(Evaluate(lib, p, r, m).decision)
      ensures Blocked(Evaluate(lib, p, r, m').decision)
    {
      BlockedStays(lib, p, r, m, m');
    }
  }

  // ---- the same for what clients can send -------------------------------------------------------------

  /** A tool request a client can send that no rule but the runtime limit would stop: another tool can
      be claimed beside it. */
  predicate Unremarkable(lib: Library, p: Policy, r: Request) {
    Sendable(r) && Plain(lib, r) && r.kind in TOOL_EVENTS && r.resource != "" &&
    ToolVerdict(lib, p, Text(r.resource)).None?
  }

  /** No domain can draw an ALLOW, and a tool only where no unremarkable request exists to add it to. */
  ghost predicate NoAllowForClients(lib: Library, p: Policy) {
    && NeverAllows(v => NetworkVerdict(lib, p, v))
    && (NeverAllows(v => ToolVerdict(lib, p, v)) || forall r :: !Unremarkable(lib, p, r))
  }

  lemma UnremarkableRulings(lib: Library, p: Policy, r: Request, v: Json)
    requires Unremarkable(lib, p, r) && Given(v) && ToolVerdict(lib, p, v).Some?
    ensures NetworkRule(lib, p, r, Overdue(p)).None? && ToolsRule(lib, p, r, Overdue(p)).None?
    ensures ToolsRule(lib, p, r, Overdue(p)["tool" := v]) == ToolVerdict(lib, p, v)
  {
    var own := Text(r.resource);
    assert v != own;
    assert ToolCandidates(Overdue(p), r) == [own];
    assert ToolCandidates(Overdue(p)["tool" := v], r) == [v, own];
    hide ToolCandidates, ToolVerdict, Overdue, DomainCandidates;
    SingleRuling(w => ToolVerdict(lib, p, w), own);
    PairRuling(w => ToolVerdict(lib, p, w), v, own);
  }

  lemma PairRuling(verdict: Json -> Option<Ruling>, v: Json, w: Json)
    requires verdict(w).None?
    ensures WorstOf(Rulings(verdict, [v, w])) == verdict(v)
  {
    var rulings := Rulings(verdict, [v, w]);
    SingleRuling(verdict, v);
    assert rulings[..1] == Rulings(verdict, [v]) && rulings[1].None?;
  }

  lemma PlainGuarded(lib: Library, p: Policy, r: Request)
    requires Plain(lib, r)
    requires if r.kind in TOOL_EVENTS then r.resource != "" || r.action == "" else r.resource == ""
    ensures Guarded(lib, r, Overdue(p))
  {
  }

  lemma AllowingToolFreesClients(lib: Library, p: Policy, r: Request, v: Json)
    requires Unremarkable(lib, p, r) && Given(v)
    requires ToolVerdict(lib, p, v).Some? && !Blocked(ToolVerdict(lib, p, v).value.decision)
    ensures !StaysBlocked(lib, p, r)
  {
    hide ToolVerdict, NetworkRule, ToolsRule, Evaluate, Claims, Guarded, Plain, StaysBlocked, Sendable, Overdue,
         Given;
    PlainGuarded(lib, p, r);
    UnremarkableRulings(lib, p, r, v);
    OverdueClaims(p, "tool", v);
    OverdueKills(lib, p, r);
    PlainEvaluates(lib, p, r, Overdue(p)["tool" := v]);
    Freed(lib, p, r, Overdue(p), Overdue(p)["tool" := v]);
  }

  /** Where the tool rule had nothing to say to a client's request, an added claim changes that only for
      an unremarkable request. */
  lemma ToolsStaySilent(lib: Library, p: Policy, r: Request, m: Metadata, m': Metadata)
    requires Claims(m, m') && ToolGuard(r, m) && Sendable(r) && r.kind in TOOL_EVENTS
    requires EscapeRule(lib, p, r, m).None? && ToolsRule(lib, p, r, m).None?
    ensures ToolsRule(lib, p, r, m').None? || Unremarkable(lib, p, r)
  {
    if "tool" in m {
      assert ToolCandidates(m, r) == ToolCandidates(m', r);
    } else {
      var own := Text(r.resource);
      assert ToolCandidates(m, r) == [own];
      SingleRuling(w => ToolVerdict(lib, p, w), own);
    }
  }

  /** The first rule to answer. */
  lemma {:induction false} FirstAnswerAt(answers: seq<Option<Ruling>>) returns (i: nat)
    requires Blocked(FirstAnswer(answers).decision)
    ensures i < |answers| && answers[i] == Some(FirstAnswer(answers))
    ensures forall j :: 0 <= j < i ==> answers[j].None?
  {
    if answers[0].Some? {
      i := 0;
    } else {
      i := FirstAnswerAt(answers[1..]);
      i := i + 1;
    }
  }

  /** With everything before `k` blocking if it answers at all, an answer before `k` settles it. */
  lemma {:induction false} BlocksBefore(answers: seq<Option<Ruling>>, i: nat, k: nat)
    requires i < k <= |answers| && answers[i].Some?
    requires forall j :: 0 <= j < k ==> BlocksIfAny(answers[j])
    ensures Blocked(FirstAnswer(answers).decision)
  {
    if answers[0].None? {
      BlocksBefore(answers[1..], i - 1, k - 1);
    }
  }

  lemma EarlyRulesBlock(lib: Library, p: Policy, r: Request, m: Metadata, i: nat)
    requires NeverAllows(v => NetworkVerdict(lib, p, v)) && NeverAllows(v => PathVerdict(lib, p, v)) && i < 8
    ensures BlocksIfAny(Answers(lib, p, r, m)[i])
  {
    FixedRulesBlock(lib, p, r, m);
    PathAndNetworkRulesBlock(lib, p, r, m);
    hide PrivilegeRule, CriticalRule, EscapeRule, PersistenceRule, HostRule, EnvVarRule, PathsRule, NetworkRule,
         ToolsRule, ProcessesRule, RuntimeRule, BlocksIfAny;
  }

  lemma ProcessesNeedCreation(lib: Library, p: Policy, r: Request, m: Metadata)
    ensures r.kind in TOOL_EVENTS ==> ProcessesRule(lib, p, r, m).None?
    ensures r.kind !in TOOL_EVENTS ==> ToolsRule(lib, p, r, m).None?
    ensures r.kind in TOOL_EVENTS && Guarded(lib, r, m) ==> ToolGuard(r, m)
  {
  }

  /** If the tool rule allows a client's request with its claims, some earlier rule has blocked the
      request already, or the request is unremarkable. */
  lemma EarlierBlocks(lib: Library, p: Policy, r: Request, m: Metadata, m': Metadata, i: nat)
    requires Claims(m, m') && Guarded(lib, r, m) && Sendable(r) && !Unremarkable(lib, p, r) && i < 11
    requires Answers(lib, p, r, m)[i].Some? && Blocked(Answers(lib, p, r, m)[i].value.decision)
    requires forall j :: 0 <= j < i ==> Answers(lib, p, r, m)[j].None?
    requires !BlocksIfAny(Answers(lib, p, r, m')[8])
    ensures i < 8
  {
    hide PrivilegeRule, CriticalRule, EscapeRule, PersistenceRule, HostRule, EnvVarRule, PathsRule, NetworkRule,
         ToolsRule, ProcessesRule, RuntimeRule, Claims, Guarded, Sendable, Unremarkable, ToolGuard, Answers;
    RulesMonotone(lib, p, r, m, m', i);
    ProcessesNeedCreation(lib, p, r, m);
    ProcessesNeedCreation(lib, p, r, m');
    AnswersAre(lib, p, r, m);
    AnswersAre(lib, p, r, m');
    if i == 10 {
      ToolsStaySilent(lib, p, r, m, m');
    }
  }

  lemma ClientsStay(lib: Library, p: Policy, r: Request, m: Metadata, m': Metadata)
    requires NeverAllows(v => NetworkVerdict(lib, p, v)) && NeverAllows(v => PathVerdict(lib, p, v))
    requires Sendable(r) && !Unremarkable(lib, p, r)
    requires Claims(m, m') && Guarded(lib, r, m) && Blocked(Evaluate(lib, p, r, m).decision)
    ensures Blocked(Evaluate(lib, p, r, m').decision)
  {
    hide Answers, Claims, Guarded, Sendable, Unremarkable, NeverAllows;
    var answers, answers' := Answers(lib, p, r, m), Answers(lib, p, r, m');
    var i := FirstAnswerAt(answers);
    RulesMonotone(lib, p, r, m, m', i);
    forall j | 0 <= j < 8
      ensures BlocksIfAny(answers'[j])
    {
      EarlyRulesBlock(lib, p, r, m', j);
    }
    LateRulesBlock(lib, p, r, m');
    if BlocksIfAny(answers'[8]) {
      BlocksBefore(answers', i, 11);
    } else {
      EarlierBlocks(lib, p, r, m, m', i);
      BlocksBefore(answers', i, 8);
    }
  }

  lemma LateRulesBlock(lib: Library, p: Policy, r: Request, m: Metadata)
    ensures BlocksIfAny(Answers(lib, p, r, m)[9]) && BlocksIfAny(Answers(lib, p, r, m)[10])
  {
    FixedRulesBlock(lib, p, r, m);
    hide PrivilegeRule, CriticalRule, EscapeRule, PersistenceRule, HostRule, EnvVarRule, PathsRule, NetworkRule,
         ToolsRule, ProcessesRule, RuntimeRule, BlocksIfAny;
  }

  lemma HarmlessSendable()
    ensures Sendable(CONNECT)
  {
    assert StripLeft("call") == "call" && StripRight("call") == "call";
    assert StripLeft("network_request") == "network_request" && StripRight("network_request") == "network_request";
  }

  /** Over what a client can send, a blocked request stays blocked exactly when no domain can draw an
      ALLOW, and no tool can unless there is no unremarkable request to claim it in. */
  lemma BlockedStaysForClientsExactly(lib: Library, p: Policy)
    requires Plain(lib, CONNECT) && PathRuleBlocks(p)
    ensures BlockedStaysForClients(lib, p) <==> NoAllowForClients(lib, p)
  {
    PathsNeverAllow(lib, p);
    HarmlessSendable();
    if NoAllowForClients(lib, p) {
      forall r | Sendable(r)
        ensures StaysBlocked(lib, p, r)
      {
        ClientStays(lib, p, r);
      }
    } else if !NeverAllows(v => NetworkVerdict(lib, p, v)) {
      var v :| Given(v) && NetworkVerdict(lib, p, v).Some? && !Blocked(NetworkVerdict(lib, p, v).value.decision);
      AllowingDomainFrees(lib, p, v);
    } else {
      var v :| Given(v) && ToolVerdict(lib, p, v).Some? && !Blocked(ToolVerdict(lib, p, v).value.decision);
      var r :| Unremarkable(lib, p, r);
      AllowingToolFreesClients(lib, p, r, v);
    }
  }

  lemma ClientStays(lib: Library, p: Policy, r: Request)
    requires NoAllowForClients(lib, p) && NeverAllows(v => PathVerdict(lib, p, v)) && Sendable(r)
    ensures StaysBlocked(lib, p, r)
  {
    if Unremarkable(lib, p, r) {
      AllStay(lib, p, r);
    } else {
      hide Claims, Guarded, Evaluate, NeverAllows, Sendable, Unremarkable;
      forall m, m' | Claims(m, m') && Guarded(lib, r, m) && Blocked(Evaluate(lib, p, r, m).decision)
        ensures Blocked(Evaluate(lib, p, r, m').decision)
      {
        ClientsStay(lib, p, r, m, m');
      }
    }
  }

  /** Staying blocked is all that is promised: a claim that draws a milder answer from an earlier rule
      replaces a KILL. */
  lemma SeverityCanDrop(lib: Library, p: Policy, v: Json)
    requires Plain(lib, CONNECT) && Given(v)
    requires NetworkVerdict(lib, p, v).Some? && NetworkVerdict(lib, p, v).value.decision != Kill
    ensures var m, m' := Overdue(p), Overdue(p)["domain" := v];
            && Sendable(CONNECT) && Claims(m, m') && Guarded(lib, CONNECT, m)
            && Severity(Evaluate(lib, p, CONNECT, m').decision) < Severity(Evaluate(lib, p, CONNECT, m).decision)
  {
    hide NetworkVerdict, NetworkRule, ToolsRule, Evaluate, Claims, Guarded, Plain, Sendable, Overdue, Given;
    HarmlessSendable();
    PlainGuarded(lib, p, CONNECT);
    OverdueClaims(p, "domain", v);
    ConnectRulings(lib, p, v);
    OverdueKills(lib, p, CONNECT);
    PlainEvaluates(lib, p, CONNECT, Overdue(p)["domain" := v]);
  }

  // ---- the claim that is left out -----------------------------------------------------------------------

  predicate Protected(lib: Library, p: Policy, name: Json) {
    lib.upper(lib.text(name)) in p.protectedEnvVars
  }

  ghost predicate StaysProtected(lib: Library, p: Policy, r: Request, m: Metadata, v: Json) {
    EnvVarRule(lib, p, r, m).Some? ==> EnvVarRule(lib, p, r, m["env_var" := v]).Some?
  }

  /** The request itself names a protected variable. */
  predicate NamesProtected(lib: Library, p: Policy, r: Request) {
    r.kind in {"env_access", "environment_access"} && r.resource != "" && Protected(lib, p, Text(r.resource))
  }

  /** Why `env_var` is not among the claims: it takes the resource's place instead of joining it. As long
      as there is any unprotected name to claim, it can hide exactly a request that names a protected
      variable itself. */
  lemma EnvVarHidesExactly(lib: Library, p: Policy, r: Request, m: Metadata, other: Json)
    requires "env_var" !in m && Truthy(other) && !Protected(lib, p, other)
    ensures (forall v :: StaysProtected(lib, p, r, m, v)) <==> !NamesProtected(lib, p, r)
  {
    assert Claim(m["env_var" := other], "env_var") == other;
    assert EnvVarRule(lib, p, r, m).Some? <==> NamesProtected(lib, p, r);
    assert StaysProtected(lib, p, r, m, other) ==> !NamesProtected(lib, p, r);
  }
}
