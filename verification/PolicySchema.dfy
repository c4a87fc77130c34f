/** The execution policy: parsing and normalising a policy document, and printing it back. */
module PolicySchema {
  import opened Wrappers
  import opened Text
  import opened Json

  /** One complete, normalised policy.  The nested records of the document are flattened. */
  datatype Policy = Policy(
    version: int,
    workspace: string,
    reference: string,
    external: string,
    mode: string,
    destinations: seq<string>,
    auth: string,
    gitRead: bool,
    gitCommit: bool,
    gitPush: bool,
    sandboxRequired: bool,
    cpu: real,
    memory: int,
    pids: int,
    securityClass: string)

  /** The leaves of a policy document. */
  datatype Leaf =
    | Version | WorkspaceAccess | ReferenceAccess | External | Mode | Destinations | Auth
    | GitRead | GitCommit | GitPush | SandboxRequired | Cpu | Memory | Pids | SecurityClass

  function PathOf(leaf: Leaf): seq<string>
  {
    match leaf
    case Version => ["version"]
    case WorkspaceAccess => ["workspace", "access"]
    case ReferenceAccess => ["reference", "access"]
    case External => ["filesystem", "external"]
    case Mode => ["network", "task_shell", "mode"]
    case Destinations => ["network", "task_shell", "destinations"]
    case Auth => ["credentials", "provider_auth", "task_shell"]
    case GitRead => ["git", "read"]
    case GitCommit => ["git", "commit"]
    case GitPush => ["git", "push"]
    case SandboxRequired => ["sandbox", "required"]
    case Cpu => ["resources", "cpu"]
    case Memory => ["resources", "memory"]
    case Pids => ["resources", "pids"]
    case SecurityClass => ["security_class"]
  }

  const WORKSPACE_ACCESS: set<string> := {"none", "read", "write"}
  const REFERENCE_ACCESS: set<string> := {"none", "read"}
  const EXTERNAL_ACCESS: set<string> := {"deny", "read", "write"}
  const NETWORK_MODES: set<string> := {"deny", "allowlist", "allow"}
  const VISIBILITY: set<string> := {"deny", "allow"}
  const SECURITY_CLASSES: set<string> := {"hardened", "compatibility"}

  function TopFields(): set<string>
  {
    {"version", "workspace", "reference", "filesystem", "network", "credentials", "git", "sandbox", "resources", "security_class"}
  }

  /******* Normalising single values *******/

  /** What `str.strip` removes. */
  predicate IsSpace(c: char)
  {
    var n := c as int;
    9 <= n <= 13 || 28 <= n <= 32 || n == 0x85 || n == 0xA0 || n == 0x1680 || 0x2000 <= n <= 0x200A
    || n == 0x2028 || n == 0x2029 || n == 0x202F || n == 0x205F || n == 0x3000
  }

  predicate ValidDestination(s: string)
  {
    && s != [] && !IsSpace(s[0]) && !IsSpace(s[|s| - 1])
    && 0 as char !in s && '\n' !in s
  }

  predicate Whole(r: real)
  {
    r.Floor as real == r
  }

  function NormalizeCpu(v: Json): Option<real>
  {
    match v
    case Int(n) => if n > 0 then Some(n as real) else None
    case Float(r) => if r > 0.0 then Some(r) else None
    case _ => None
  }

  function SuffixFactor(c: char): Option<int>
  {
    if c == 'k' || c == 'K' then Some(1024)
    else if c == 'm' || c == 'M' then Some(1024 * 1024)
    else if c == 'g' || c == 'G' then Some(1024 * 1024 * 1024)
    else if c == 't' || c == 'T' then Some(1024 * 1024 * 1024 * 1024)
    else None
  }

  /** A quantity without leading zero, and an optional binary suffix. */
  function MemoryText(s: string): Option<int>
  {
    if s == [] || s[0] == '0' then None
    else if AllDigits(s) then Some(NatOf(s))
    else
      var last := |s| - 1;
      var factor := SuffixFactor(s[last]);
      if factor.None? || !AllDigits(s[..last]) then None
      else Some(NatOf(s[..last]) * factor.value)
  }

  function NormalizeMemory(v: Json): Option<int>
  {
    match v
    case Int(n) => if n > 0 then Some(n) else None
    case Str(s) => MemoryText(s)
    case _ => None
  }

  function PositiveInt(v: Json): Option<int>
  {
    if v.Int? && v.n > 0 then Some(v.n) else None
  }

  predicate DestinationItem(v: Json)
  {
    v.Str? && ValidDestination(v.s)
  }

  /** Every item a valid destination, none twice; in ascending order whatever the order given. */
  function NormalizeDestinations(v: Json): Option<seq<string>>
  {
    if v.Arr? && (forall i :: 0 <= i < |v.items| ==> DestinationItem(v.items[i]))
       && (forall i, j :: 0 <= i < j < |v.items| ==> v.items[i] != v.items[j])
    then Some(Sorted(set i | 0 <= i < |v.items| :: v.items[i].s))
    else None
  }

  /******* The list normaliser as the loop it is *******/

  function InsertInOrder(x: string, s: seq<string>): seq<string>
  {
    if s == [] || Before(x, s[0]) then [x] + s else [s[0]] + InsertInOrder(x, s[1..])
  }

  function SortList(s: seq<string>): seq<string>
  {
    if s == [] then [] else InsertInOrder(s[0], SortList(s[1..]))
  }

  lemma {:induction false} InsertKeepsOrder(x: string, s: seq<string>)
    requires Ascending(s) && x !in s
    ensures Elements(InsertInOrder(x, s)) == Elements(s) + {x} && Ascending(InsertInOrder(x, s))
  {
    if s == [] {
    } else if Before(x, s[0]) {
      forall j | 0 <= j < |s|
        ensures Before(x, s[j])
      {
        if j > 0 {
          BeforeTransitive(x, s[0], s[j]);
        }
      }
    } else {
      var rest := InsertInOrder(x, s[1..]);
      TailElements(s);
      InsertKeepsOrder(x, s[1..]);
      BeforeTotal(x, s[0]);
      assert s == [s[0]] + s[1..];
      forall j | 0 <= j < |rest|
        ensures Before(s[0], rest[j])
      {
        assert rest[j] in Elements(rest);
        if rest[j] != x {
          FirstIsLeast(s, rest[j]);
        }
      }
    }
  }

  lemma {:induction false} SortListIsSorted(s: seq<string>)
    requires forall i, j :: 0 <= i < j < |s| ==> s[i] != s[j]
    ensures SortList(s) == Sorted(Elements(s))
  {
    SortListOrders(s);
    AscendingUnique(SortList(s), Sorted(Elements(s)));
  }

  lemma {:induction false} SortListOrders(s: seq<string>)
    requires forall i, j :: 0 <= i < j < |s| ==> s[i] != s[j]
    ensures Elements(SortList(s)) == Elements(s) && Ascending(SortList(s))
  {
    if s != [] {
      SortListOrders(s[1..]);
      assert s == [s[0]] + s[1..];
      assert s[0] !in s[1..];
      assert forall x :: x in SortList(s[1..]) <==> x in Elements(SortList(s[1..]));
      InsertKeepsOrder(s[0], SortList(s[1..]));
    }
  }

  method NormalizeDestinationList(items: seq<Json>) returns (r: Option<seq<string>>)
    ensures r == NormalizeDestinations(Arr(items))
  {
    var result: seq<string> := [];
    var seen: set<string> := {};
    for i := 0 to |items|
      invariant |result| == i && seen == Elements(result)
      invariant forall j :: 0 <= j < i ==> DestinationItem(items[j]) && result[j] == items[j].s
      invariant forall j, k :: 0 <= j < k < i ==> result[j] != result[k]
    {
      var item := items[i];
      if !DestinationItem(item) {
        return None;
      }
      if item.s in seen {
        ghost var j :| 0 <= j < |result| && result[j] == item.s;
        assert items[j] == items[i];
        return None;
      }
      seen := seen + {item.s};
      result := result + [item.s];
    }
    SortListIsSorted(result);
    assert Elements(result) == set i | 0 <= i < |items| :: items[i].s;
    r := Some(SortList(result));
  }

  /******* Documents *******/

  predicate HasFields(v: Json, required: set<string>, optional: set<string>)
  {
    v.Obj? && required <= v.fields.Keys <= required + optional
  }

  function ChoiceField(v: Json, key: string, allowed: set<string>): Option<string>
  {
    if HasFields(v, {key}, {}) && v.fields[key].Str? && v.fields[key].s in allowed then Some(v.fields[key].s) else None
  }

  function BoolField(fields: map<string, Json>, key: string): Option<bool>
  {
    if key in fields && fields[key].Bool? then Some(fields[key].b) else None
  }

  /** Mode and destinations; destinations are given exactly in allowlist mode. */
  function TaskShell(v: Json): Option<(string, seq<string>)>
  {
    if !HasFields(v, {"mode"}, {"destinations"}) || !v.fields["mode"].Str? || v.fields["mode"].s !in NETWORK_MODES then None
    else
      var mode := v.fields["mode"].s;
      var ds := if "destinations" in v.fields then NormalizeDestinations(v.fields["destinations"]) else Some([]);
      if ds.None? || (mode == "allowlist") != (ds.value != []) then None else Some((mode, ds.value))
  }

  function NetworkField(v: Json): Option<(string, seq<string>)>
  {
    if HasFields(v, {"task_shell"}, {}) then TaskShell(v.fields["task_shell"]) else None
  }

  function AuthField(v: Json): Option<string>
  {
    if HasFields(v, {"provider_auth"}, {}) then ChoiceField(v.fields["provider_auth"], "task_shell", VISIBILITY) else None
  }

  function GitField(v: Json): Option<(bool, bool, bool)>
  {
    if !HasFields(v, {"read", "commit", "push"}, {}) then None
    else
      var a, b, c := BoolField(v.fields, "read"), BoolField(v.fields, "commit"), BoolField(v.fields, "push");
      if a.None? || b.None? || c.None? then None else Some((a.value, b.value, c.value))
  }

  function SandboxField(v: Json): Option<bool>
  {
    if HasFields(v, {"required"}, {}) then BoolField(v.fields, "required") else None
  }

  function ResourcesField(v: Json): Option<(real, int, int)>
  {
    if !HasFields(v, {"cpu", "memory", "pids"}, {}) then None
    else
      var a, b, c := NormalizeCpu(v.fields["cpu"]), NormalizeMemory(v.fields["memory"]), PositiveInt(v.fields["pids"]);
      if a.None? || b.None? || c.None? then None else Some((a.value, b.value, c.value))
  }

  /** `ExecutionPolicy.from_dict`; None stands for its ValueError. */
  function FromDict(v: Json): Option<Policy>
  {
    if !HasFields(v, TopFields(), {}) || v.fields["version"] != Int(1) then None
    else
      var d := v.fields;
      var workspace := ChoiceField(d["workspace"], "access", WORKSPACE_ACCESS);
      var reference := ChoiceField(d["reference"], "access", REFERENCE_ACCESS);
      var external := ChoiceField(d["filesystem"], "external", EXTERNAL_ACCESS);
      var network := NetworkField(d["network"]);
      var auth := AuthField(d["credentials"]);
      var git := GitField(d["git"]);
      var sandbox := SandboxField(d["sandbox"]);
      var resources := ResourcesField(d["resources"]);
      var security := d["security_class"];
      if workspace.None? || reference.None? || external.None? || network.None? || auth.None? || git.None?
         || sandbox.None? || resources.None? || !security.Str? || security.s !in SECURITY_CLASSES
      then None
      else Some(Policy(1, workspace.value, reference.value, external.value, network.value.0, network.value.1,
                       auth.value, git.value.0, git.value.1, git.value.2, sandbox.value,
                       resources.value.0, resources.value.1, resources.value.2, security.s))
  }

  function Strings(ds: seq<string>): Json
  {
    Arr(seq(|ds|, i requires 0 <= i < |ds| => Str(ds[i])))
  }

  function CpuJson(r: real): Json
  {
    if Whole(r) then Int(r.Floor) else Float(r)
  }

  function NetworkDict(p: Policy): Json
  {
    Obj(map["task_shell" := Obj(map["mode" := Str(p.mode), "destinations" := Strings(p.destinations)])])
  }

  function CredentialsDict(p: Policy): Json
  {
    Obj(map["provider_auth" := Obj(map["task_shell" := Str(p.auth)])])
  }

  function GitDict(p: Policy): Json
  {
    Obj(map["read" := Bool(p.gitRead), "commit" := Bool(p.gitCommit), "push" := Bool(p.gitPush)])
  }

  function ResourcesDict(p: Policy): Json
  {
    Obj(map["cpu" := CpuJson(p.cpu), "memory" := Int(p.memory), "pids" := Int(p.pids)])
  }

  function TopDict(version: Json, workspace: Json, reference: Json, filesystem: Json, network: Json,
                   credentials: Json, git: Json, sandbox: Json, resources: Json, security: Json): map<string, Json>
  {
    map["version" := version, "workspace" := workspace, "reference" := reference, "filesystem" := filesystem,
        "network" := network, "credentials" := credentials, "git" := git, "sandbox" := sandbox,
        "resources" := resources, "security_class" := security]
  }

  function AsDict(p: Policy): Json
  {
    Obj(TopDict(Int(p.version), Obj(map["access" := Str(p.workspace)]), Obj(map["access" := Str(p.reference)]),
                Obj(map["external" := Str(p.external)]), NetworkDict(p), CredentialsDict(p), GitDict(p),
                Obj(map["required" := Bool(p.sandboxRequired)]), ResourcesDict(p), Str(p.securityClass)))
  }

  predicate TopKeysIn(m: map<string, Json>)
  {
    && "version" in m && "workspace" in m && "reference" in m && "filesystem" in m && "network" in m
    && "credentials" in m && "git" in m && "sandbox" in m && "resources" in m && "security_class" in m
  }

  lemma TopLookup(a: Json, b: Json, c: Json, d: Json, e: Json, f: Json, g: Json, h: Json, i: Json, j: Json)
    ensures var m := TopDict(a, b, c, d, e, f, g, h, i, j);
            && m.Keys == TopFields()
            && TopKeysIn(m)
            && m["version"] == a && m["workspace"] == b && m["reference"] == c && m["filesystem"] == d
            && m["network"] == e && m["credentials"] == f && m["git"] == g && m["sandbox"] == h
            && m["resources"] == i && m["security_class"] == j
  {
  }

  /** What every constructed policy satisfies. */
  ghost predicate Valid(p: Policy)
  {
    && p.version == 1
    && p.workspace in {"none", "read", "write"} && p.reference in {"none", "read"} && p.external in {"deny", "read", "write"}
    && p.mode in {"deny", "allowlist", "allow"} && p.auth in {"deny", "allow"} && p.securityClass in {"hardened", "compatibility"}
    && ValidDestinations(p.destinations) && ((p.mode == "allowlist") == (p.destinations != []))
    && p.cpu > 0.0 && p.memory > 0 && p.pids > 0
  }

  ghost predicate ValidDestinations(ds: seq<string>)
  {
    Ascending(ds) && forall i :: 0 <= i < |ds| ==> ValidDestination(ds[i])
  }

  lemma NormalizedIsValid(v: Json)
    requires NormalizeDestinations(v).Some?
    ensures ValidDestinations(NormalizeDestinations(v).value)
  {
    var all := set i | 0 <= i < |v.items| :: v.items[i].s;
    var ds := Sorted(all);
    forall k | 0 <= k < |ds|
      ensures ValidDestination(ds[k])
    {
      assert ds[k] in Elements(ds);
      var i :| 0 <= i < |v.items| && v.items[i].s == ds[k];
      assert DestinationItem(v.items[i]);
    }
  }

  lemma {:induction false} LeadingDigitPositive(s: string)
    requires AllDigits(s) && s[0] != '0'
    ensures NatOf(s) > 0
  {
    if |s| > 1 {
      LeadingDigitPositive(s[..|s| - 1]);
    } else {
      assert s[..0] == [];
      assert IsDigit(s[0]);
    }
  }

  lemma MemoryPositive(v: Json)
    requires NormalizeMemory(v).Some?
    ensures NormalizeMemory(v).value > 0
  {
    if v.Str? {
      var s := v.s;
      if AllDigits(s) {
        LeadingDigitPositive(s);
      } else {
        LeadingDigitPositive(s[..|s| - 1]);
      }
    }
  }

  /******* What the normalisers accept *******/

  /** `str.strip`. */
  function Strip(s: string): string
  {
    if s != [] && IsSpace(s[0]) then Strip(s[1..])
    else if s != [] && IsSpace(s[|s| - 1]) then Strip(s[..|s| - 1])
    else s
  }

  lemma {:induction false} StripShrinks(s: string)
    ensures |Strip(s)| <= |s|
  {
    if s != [] && IsSpace(s[0]) {
      StripShrinks(s[1..]);
    } else if s != [] && IsSpace(s[|s| - 1]) {
      StripShrinks(s[..|s| - 1]);
    }
  }

  /** The characters `str.strip` removes, listed. */
  lemma WhitespaceIs(c: char)
    ensures IsSpace(c) <==>
              c as int in {0x09, 0x0A, 0x0B, 0x0C, 0x0D, 0x1C, 0x1D, 0x1E, 0x1F, 0x20, 0x85, 0xA0, 0x1680, 0x2000, 0x2001, 0x2002, 0x2003,
                           0x2004, 0x2005, 0x2006, 0x2007, 0x2008, 0x2009, 0x200A, 0x2028, 0x2029, 0x202F, 0x205F, 0x3000}
  {
  }

  /** A destination is valid if and only if it is not empty, stripping leaves it as it is, and it has neither NUL nor
      newline. */
  lemma ValidDestinationIff(s: string)
    ensures ValidDestination(s) <==> s != "" && Strip(s) == s && 0 as char !in s && '\n' !in s
  {
    if s != [] && IsSpace(s[0]) {
      StripShrinks(s[1..]);
    } else if s != [] && IsSpace(s[|s| - 1]) {
      StripShrinks(s[..|s| - 1]);
    }
  }

  /** The value of a memory text: its digits times a power of 1024 that its suffix, in either case, selects.
      Nothing else is accepted: no leading zero, no empty quantity, no other suffix. */
  lemma MemoryTextIs(q: string, c: char)
    requires AllDigits(q) && q[0] != '0'
    ensures MemoryText(q) == Some(NatOf(q))
    ensures c in {'k', 'K'} ==> MemoryText(q + [c]) == Some(NatOf(q) * 1024)
    ensures c in {'m', 'M'} ==> MemoryText(q + [c]) == Some(NatOf(q) * 1048576)
    ensures c in {'g', 'G'} ==> MemoryText(q + [c]) == Some(NatOf(q) * 1073741824)
    ensures c in {'t', 'T'} ==> MemoryText(q + [c]) == Some(NatOf(q) * 1099511627776)
    ensures !IsDigit(c) && c !in {'k', 'K', 'm', 'M', 'g', 'G', 't', 'T'} ==> MemoryText(q + [c]) == None
  {
    var s := q + [c];
    assert s[0] == q[0] && s[..|s| - 1] == q && s[|s| - 1] == c;
    assert !IsDigit(c) ==> !AllDigits(s);
  }

  /** Every accepted memory text is of one of those forms. */
  lemma MemoryTextOnly(s: string)
    requires MemoryText(s).Some?
    ensures s != [] && s[0] != '0'
    ensures AllDigits(s) || (AllDigits(s[..|s| - 1]) && s[|s| - 1] in {'k', 'K', 'm', 'M', 'g', 'G', 't', 'T'})
  {
  }

  /** Exactly which cpu values are accepted, and as what. */
  lemma CpuIs(v: Json)
    ensures NormalizeCpu(v).Some? <==> (v.Int? && v.n > 0) || (v.Float? && v.r > 0.0)
    ensures NormalizeCpu(v).Some? ==> NormalizeCpu(v).value == (if v.Int? then v.n as real else v.r)
    ensures v.Int? ==> CpuJson(v.n as real) == v
    ensures v.Float? && !Whole(v.r) ==> CpuJson(v.r) == v
  {
  }

  /** An accepted document, section by section. */
  lemma AcceptedSections(v: Json)
    requires FromDict(v).Some?
    ensures var p := FromDict(v).value;
            && HasFields(v, TopFields(), {}) && TopKeysIn(v.fields) && v.fields["version"] == Int(1) && p.version == 1
            && ChoiceField(v.fields["workspace"], "access", WORKSPACE_ACCESS) == Some(p.workspace)
            && ChoiceField(v.fields["reference"], "access", REFERENCE_ACCESS) == Some(p.reference)
            && ChoiceField(v.fields["filesystem"], "external", EXTERNAL_ACCESS) == Some(p.external)
            && NetworkField(v.fields["network"]) == Some((p.mode, p.destinations))
            && AuthField(v.fields["credentials"]) == Some(p.auth)
            && GitField(v.fields["git"]) == Some((p.gitRead, p.gitCommit, p.gitPush))
            && SandboxField(v.fields["sandbox"]) == Some(p.sandboxRequired)
            && ResourcesField(v.fields["resources"]) == Some((p.cpu, p.memory, p.pids))
            && v.fields["security_class"] == Str(p.securityClass) && p.securityClass in SECURITY_CLASSES
  {
    hide NetworkField;
    hide ResourcesField;
    hide GitField;
    hide SandboxField;
    hide AuthField;
    hide ChoiceField;
  }

  lemma ChoiceIsAllowed(v: Json, key: string, allowed: set<string>)
    requires ChoiceField(v, key, allowed).Some?
    ensures ChoiceField(v, key, allowed).value in allowed
  {
  }

  lemma ShellIsValid(v: Json)
    requires NetworkField(v).Some?
    ensures NetworkField(v).value.0 in NETWORK_MODES && ValidDestinations(NetworkField(v).value.1)
    ensures (NetworkField(v).value.0 == "allowlist") == (NetworkField(v).value.1 != [])
  {
    var shell := v.fields["task_shell"];
    if "destinations" in shell.fields {
      NormalizedIsValid(shell.fields["destinations"]);
    }
    hide NormalizeDestinations;
  }

  lemma LimitsArePositive(v: Json)
    requires ResourcesField(v).Some?
    ensures ResourcesField(v).value.0 > 0.0 && ResourcesField(v).value.1 > 0 && ResourcesField(v).value.2 > 0
  {
    MemoryPositive(v.fields["memory"]);
    hide NormalizeMemory;
  }

  lemma AuthIsAllowed(v: Json)
    requires AuthField(v).Some?
    ensures AuthField(v).value in VISIBILITY
  {
  }

  /** Everything `from_dict` accepts is a valid policy. */
  lemma FromDictValid(v: Json)
    requires FromDict(v).Some?
    ensures Valid(FromDict(v).value)
  {
    hide FromDict;
    hide ChoiceField;
    hide NetworkField;
    hide AuthField;
    hide GitField;
    hide SandboxField;
    hide ResourcesField;
    hide TopFields;
    AcceptedSections(v);
    ChoiceIsAllowed(v.fields["workspace"], "access", WORKSPACE_ACCESS);
    ChoiceIsAllowed(v.fields["reference"], "access", REFERENCE_ACCESS);
    ChoiceIsAllowed(v.fields["filesystem"], "external", EXTERNAL_ACCESS);
    AuthIsAllowed(v.fields["credentials"]);
    ShellIsValid(v.fields["network"]);
    LimitsArePositive(v.fields["resources"]);
  }

  /** A destination list is accepted if and only if it is a list of valid strings, none twice; the result holds exactly
      those in ascending order. */
  lemma NormalizedDestinationsAre(v: Json)
    ensures NormalizeDestinations(v).Some? <==>
              && v.Arr?
              && (forall i :: 0 <= i < |v.items| ==> v.items[i].Str? && ValidDestination(v.items[i].s))
              && (forall i, j :: 0 <= i < j < |v.items| ==> v.items[i] != v.items[j])
    ensures NormalizeDestinations(v).Some? ==>
              && Ascending(NormalizeDestinations(v).value)
              && forall d :: d in NormalizeDestinations(v).value <==> Str(d) in v.items
  {
    if NormalizeDestinations(v).Some? {
      var all := set i | 0 <= i < |v.items| :: v.items[i].s;
      var ds := Sorted(all);
      forall d
        ensures d in ds <==> Str(d) in v.items
      {
        assert d in ds <==> d in Elements(ds);
        if Str(d) in v.items {
          var i :| 0 <= i < |v.items| && v.items[i] == Str(d);
          assert v.items[i].s == d;
        }
        if d in all {
          var i :| 0 <= i < |v.items| && v.items[i].s == d;
          assert DestinationItem(v.items[i]);
        }
      }
    }
  }

  lemma StringsNormalize(ds: seq<string>)
    requires ValidDestinations(ds)
    ensures NormalizeDestinations(Strings(ds)) == Some(ds)
  {
    var v := Strings(ds);
    AscendingDistinct(ds);
    var all := set i | 0 <= i < |v.items| :: v.items[i].s;
    assert all == Elements(ds) by {
      forall x | x in Elements(ds)
        ensures x in all
      {
        var i :| 0 <= i < |ds| && ds[i] == x;
        assert v.items[i].s == x;
      }
    }
    AscendingUnique(Sorted(all), ds);
  }

  lemma CpuRoundTrip(r: real)
    requires r > 0.0
    ensures NormalizeCpu(CpuJson(r)) == Some(r)
  {
  }

  /** Reading a document section by section. */
  lemma FromSections(v: Json, p: Policy)
    requires HasFields(v, TopFields(), {}) && TopKeysIn(v.fields) && v.fields["version"] == Int(1) && p.version == 1
    requires ChoiceField(v.fields["workspace"], "access", WORKSPACE_ACCESS) == Some(p.workspace)
    requires ChoiceField(v.fields["reference"], "access", REFERENCE_ACCESS) == Some(p.reference)
    requires ChoiceField(v.fields["filesystem"], "external", EXTERNAL_ACCESS) == Some(p.external)
    requires NetworkField(v.fields["network"]) == Some((p.mode, p.destinations))
    requires AuthField(v.fields["credentials"]) == Some(p.auth)
    requires GitField(v.fields["git"]) == Some((p.gitRead, p.gitCommit, p.gitPush))
    requires SandboxField(v.fields["sandbox"]) == Some(p.sandboxRequired)
    requires ResourcesField(v.fields["resources"]) == Some((p.cpu, p.memory, p.pids))
    requires v.fields["security_class"] == Str(p.securityClass) && p.securityClass in SECURITY_CLASSES
    ensures FromDict(v) == Some(p)
  {
    hide ChoiceField;
    hide NetworkField;
    hide AuthField;
    hide GitField;
    hide SandboxField;
    hide ResourcesField;
    hide TopFields;
  }

  /** A valid policy survives printing and reading. */
  lemma DictRoundTrip(p: Policy)
    requires Valid(p)
    ensures FromDict(AsDict(p)) == Some(p)
  {
    hide FromDict;
    hide TopDict;
    hide TopFields;
    NetworkRoundTrip(p);
    GitRoundTrip(p);
    ResourcesRoundTrip(p);
    CredentialsRoundTrip(p);
    ChoicesRoundTrip(p);
    TopLookup(Int(p.version), Obj(map["access" := Str(p.workspace)]), Obj(map["access" := Str(p.reference)]),
              Obj(map["external" := Str(p.external)]), NetworkDict(p), CredentialsDict(p), GitDict(p),
              Obj(map["required" := Bool(p.sandboxRequired)]), ResourcesDict(p), Str(p.securityClass));
    FromSections(AsDict(p), p);
  }

  lemma ChoicesRoundTrip(p: Policy)
    requires Valid(p)
    ensures ChoiceField(Obj(map["access" := Str(p.workspace)]), "access", WORKSPACE_ACCESS) == Some(p.workspace)
    ensures ChoiceField(Obj(map["access" := Str(p.reference)]), "access", REFERENCE_ACCESS) == Some(p.reference)
    ensures ChoiceField(Obj(map["external" := Str(p.external)]), "external", EXTERNAL_ACCESS) == Some(p.external)
    ensures SandboxField(Obj(map["required" := Bool(p.sandboxRequired)])) == Some(p.sandboxRequired)
  {
  }

  lemma NetworkRoundTrip(p: Policy)
    requires Valid(p)
    ensures NetworkField(NetworkDict(p)) == Some((p.mode, p.destinations))
  {
    StringsNormalize(p.destinations);
    var shell := NetworkDict(p).fields["task_shell"];
    assert HasFields(shell, {"mode"}, {"destinations"});
    assert shell.fields["destinations"] == Strings(p.destinations);
    hide Strings;
    hide NormalizeDestinations;
    assert TaskShell(shell) == Some((p.mode, p.destinations));
  }

  lemma CredentialsRoundTrip(p: Policy)
    requires Valid(p)
    ensures AuthField(CredentialsDict(p)) == Some(p.auth)
  {
  }

  lemma GitRoundTrip(p: Policy)
    ensures GitField(GitDict(p)) == Some((p.gitRead, p.gitCommit, p.gitPush))
  {
  }

  lemma ResourcesRoundTrip(p: Policy)
    requires Valid(p)
    ensures ResourcesField(ResourcesDict(p)) == Some((p.cpu, p.memory, p.pids))
  {
    CpuRoundTrip(p.cpu);
  }
}
