/** Matching a policy against a driver's capabilities, and compiling it to Codex and Cursor settings. */
module PolicyCompile {
  import opened Wrappers
  import opened Text
  import opened Json
  import opened Toml
  import opened PolicySchema
  import opened PolicyResolver
  import opened PolicyNarrowing

  /******* Capabilities *******/

  datatype Capabilities = Capabilities(
    workspaceModes: set<string>,
    interactiveRun: bool,
    nativeSandbox: bool,
    compatibilityModes: set<string>,
    policyCapabilities: set<string>,
    securityClasses: set<string>)

  const CODEX: Capabilities := Capabilities({"readonly", "writable"}, true, true, {"outer-only"},
    {"provider_state_protection", "network_deny", "network_allowlist"}, {"compatibility"})

  const CURSOR: Capabilities := Capabilities({"readonly", "writable"}, true, true, {},
    {"provider_state_protection"}, {"compatibility"})

  function When(condition: bool, capability: string): set<string>
  {
    if condition then {capability} else {}
  }

  function Required(p: Policy): set<string>
  {
    var hardened := p.securityClass == "hardened";
    {"security_class:" + p.securityClass}
    + When(p.workspace == "read", "workspace:readonly") + When(p.workspace == "write", "workspace:writable")
    + When(hardened && p.sandboxRequired, "filesystem_sandbox")
    + When(hardened && p.mode == "deny", "network_deny") + When(hardened && p.mode == "allowlist", "network_allowlist")
    + When(hardened && p.auth == "deny", "provider_state_protection")
  }

  /** `CapabilityRequirement.from_policy`, adding to one set branch by branch. */
  method RequiredOf(p: Policy) returns (required: set<string>)
    ensures required == Required(p)
  {
    required := {"security_class:" + p.securityClass};
    if p.workspace == "read" {
      required := required + {"workspace:readonly"};
    } else if p.workspace == "write" {
      required := required + {"workspace:writable"};
    }
    if p.securityClass == "hardened" {
      if p.sandboxRequired {
        required := required + {"filesystem_sandbox"};
      }
      if p.mode == "deny" {
        required := required + {"network_deny"};
      } else if p.mode == "allowlist" {
        required := required + {"network_allowlist"};
      }
      if p.auth == "deny" {
        required := required + {"provider_state_protection"};
      }
    }
  }

  function Available(c: Capabilities): set<string>
  {
    c.policyCapabilities
    + (set m | m in c.workspaceModes :: "workspace:" + m)
    + (set s | s in c.securityClasses :: "security_class:" + s)
    + (set m | m in c.compatibilityModes :: "compatibility:" + m)
    + When(c.interactiveRun, "interactive-run")
    + When(c.nativeSandbox, "filesystem_sandbox")
  }

  function Missing(p: Policy, c: Capabilities): set<string>
  {
    Required(p) - Available(c)
  }

  /** A security class a driver does not list is a missing capability, whatever else it offers. */
  lemma ClassMustBeListed(p: Policy, c: Capabilities)
    requires p.securityClass !in c.securityClasses
    requires "security_class:" + p.securityClass !in c.policyCapabilities
    ensures "security_class:" + p.securityClass in Missing(p, c)
  {
    var need := "security_class:" + p.securityClass;
    assert need[0] == 's';
    forall m | m in c.workspaceModes
      ensures need != "workspace:" + m
    {
      assert ("workspace:" + m)[0] == 'w';
    }
    forall m | m in c.compatibilityModes
      ensures need != "compatibility:" + m
    {
      assert ("compatibility:" + m)[0] == 'c';
    }
    forall s | s in c.securityClasses
      ensures need != "security_class:" + s
    {
      assert need[15..] == p.securityClass && ("security_class:" + s)[15..] == s;
    }
    assert "interactive-run"[0] == 'i' && "filesystem_sandbox"[0] == 'f';
  }

  /** A driver with both workspace modes and the compatibility class has every capability that a
      compatibility policy requires. */
  lemma CompatibilityIsCovered(p: Policy, c: Capabilities)
    requires p.securityClass == "compatibility" && {"readonly", "writable"} <= c.workspaceModes
    requires "compatibility" in c.securityClasses
    ensures Missing(p, c) == {}
  {
    assert "workspace:readonly" == "workspace:" + "readonly";
    assert "workspace:writable" == "workspace:" + "writable";
    assert "security_class:" + p.securityClass in Available(c);
  }

  /** Both drivers accept exactly the compatibility class. */
  lemma DriversMatchCompatibilityOnly(p: Policy)
    requires Valid(p)
    ensures Missing(p, CODEX) == {} <==> p.securityClass == "compatibility"
    ensures Missing(p, CURSOR) == {} <==> p.securityClass == "compatibility"
  {
    if p.securityClass == "compatibility" {
      CompatibilityIsCovered(p, CODEX);
      CompatibilityIsCovered(p, CURSOR);
    } else {
      assert ("security_class:" + p.securityClass)[0] == 's';
      ClassMustBeListed(p, CODEX);
      ClassMustBeListed(p, CURSOR);
    }
  }

  /******* Compiled settings *******/

  datatype Isolation = Isolation(uid: nat, gid: nat, nestedSandboxBootstrap: bool)

  datatype GeneratedFile = GeneratedFile(name: string, target: string, document: Json)

  datatype Artifacts = Artifacts(argv: seq<string>, files: seq<GeneratedFile>, isolation: Isolation)

  datatype Unsupported =
    | MissingCapabilities(missing: set<string>)
    | NoWorkspace
    | ReadOnlyNetwork
    | AuthDenyNeedsSandbox
    | SandboxedAllow
    | RestrictedNetworkNeedsSandbox

  const CONTROL_ISOLATION := Isolation(1000, 1000, false)
  const SANDBOX_ISOLATION := Isolation(1000, 1000, true)

  /******* Codex *******/

  /** The name of a setting in a table, and a setting with its value, as Codex's `-c` takes them. */
  function Key(table: string, name: string): string
  {
    table + "." + name
  }

  function Assign(key: string, value: string): string
  {
    key + "=" + value
  }

  const WRITE_SANDBOX := "sandbox_workspace_write"
  const NETWORK_ON := Assign(Key(WRITE_SANDBOX, "network_access"), "true")
  const NETWORK_OFF := Assign(Key(WRITE_SANDBOX, "network_access"), "false")
  const PROXY := "features.network_proxy"
  const PROXY_ON := Assign(Key(PROXY, "enabled"), "true")
  const PROXY_OFF := Assign(Key(PROXY, "enabled"), "false")
  const DOMAINS := Assign(Key(PROXY, "domains"), "")
  const PROFILE := "agentdev_credential_confidentiality"
  const PROVIDER_STATE := "\"/home/node/.codex"
  const ALLOW := " = \"allow\""
  const STATE_DENIED :=
    Assign(Key(Key("permissions", PROFILE), "filesystem"),
           "{ " + PROVIDER_STATE + "\" = \"deny\", " + PROVIDER_STATE + "/**\" = \"deny\" }")

  function DomainEntries(ds: seq<string>): string
    requires ds != []
  {
    if |ds| == 1 then Quote(ds[0]) + ALLOW else Quote(ds[0]) + ALLOW + ", " + DomainEntries(ds[1..])
  }

  /** `_toml_domain_allowlist`. */
  function DomainTable(ds: seq<string>): string
    requires ds != []
  {
    DOMAINS + "{ " + DomainEntries(ds) + " }"
  }

  /** The destinations a domain table allows, read as TOML: an inline table of distinct quoted keys. */
  function ReadDomains(t: string): Option<seq<string>>
  {
    var start := DOMAINS + "{ ";
    if start <= t then ReadEntries(t[|start|..]) else None
  }

  function ReadEntries(t: string): Option<seq<string>>
    decreases |t|
  {
    if t == [] || t[0] != '"' then None
    else
      var s := ReadBasic(t[1..]);
      if s.None? || !(ALLOW <= s.value.1) then None
      else
        var rest := s.value.1[|ALLOW|..];
        if rest == " }" then Some([s.value.0])
        else if !(", " <= rest) then None
        else
          var more := ReadEntries(rest[2..]);
          if more.None? || s.value.0 in more.value then None else Some([s.value.0] + more.value)
  }

  /** Destinations that TOML can hold as keys: distinct, and without U+007F. */
  predicate Tomlable(ds: seq<string>)
  {
    ds == [] || (DELETE !in ds[0] && ds[0] !in ds[1..] && Tomlable(ds[1..]))
  }

  lemma ReadFirstEntry(d: string, rest: string)
    ensures var t := Quote(d) + ALLOW + rest;
            && t != [] && t[0] == '"'
            && ReadBasic(t[1..]) == (if DELETE in d then None else Some((d, ALLOW + rest)))
            && ALLOW <= ALLOW + rest && (ALLOW + rest)[|ALLOW|..] == rest
  {
    var t := Quote(d) + ALLOW + rest;
    assert t[1..] == EscapeAll(d) + "\"" + (ALLOW + rest);
    BasicOfJson(d, ALLOW + rest);
  }

  lemma ReadMoreEntries(t: string, d: string, rest: string, more: string)
    requires t != [] && t[0] == '"' && ReadBasic(t[1..]) == Some((d, ALLOW + rest))
    requires ALLOW <= ALLOW + rest && (ALLOW + rest)[|ALLOW|..] == rest
    requires rest == ", " + more
    ensures ReadEntries(t) == (var ds := ReadEntries(more); if ds.None? || d in ds.value then None else Some([d] + ds.value))
  {
    assert ", " <= rest && rest[2..] == more && rest[0] == ',';
  }

  lemma ReadLastEntry(t: string, d: string)
    requires t != [] && t[0] == '"' && ReadBasic(t[1..]) == Some((d, ALLOW + " }"))
    requires ALLOW <= ALLOW + " }" && (ALLOW + " }")[|ALLOW|..] == " }"
    ensures ReadEntries(t) == Some([d])
  {
  }

  lemma {:induction false} ReadDomainEntries(ds: seq<string>)
    requires ds != []
    ensures ReadEntries(DomainEntries(ds) + " }") == if Tomlable(ds) then Some(ds) else None
    decreases |ds|
  {
    hide ReadBasic;
    hide Quote;
    if |ds| == 1 {
      assert DomainEntries(ds) + " }" == Quote(ds[0]) + ALLOW + " }";
      ReadFirstEntry(ds[0], " }");
      if DELETE !in ds[0] {
        ReadLastEntry(Quote(ds[0]) + ALLOW + " }", ds[0]);
      }
      assert [ds[0]] == ds && ds[1..] == [];
    } else {
      var more := DomainEntries(ds[1..]) + " }";
      var rest := ", " + more;
      assert DomainEntries(ds) + " }" == Quote(ds[0]) + ALLOW + rest;
      ReadFirstEntry(ds[0], rest);
      ReadDomainEntries(ds[1..]);
      if DELETE !in ds[0] {
        ReadMoreEntries(Quote(ds[0]) + ALLOW + rest, ds[0], rest, more);
      }
      assert [ds[0]] + ds[1..] == ds;
    }
  }

  /** TOML reads a compiled domain table if and only if the destinations are distinct and none contains
      U+007F, which JSON text leaves as it is; then it allows exactly those destinations. */
  lemma DomainTableDecodes(ds: seq<string>)
    requires ds != []
    ensures ReadDomains(DomainTable(ds)) == if Tomlable(ds) then Some(ds) else None
  {
    var start := DOMAINS + "{ ";
    assert DomainTable(ds) == start + (DomainEntries(ds) + " }");
    assert DomainTable(ds)[|start|..] == DomainEntries(ds) + " }";
    ReadDomainEntries(ds);
  }

  /** A valid destination that no configuration can name. */
  lemma UnreadableDestination()
    ensures ValidDestination([DELETE]) && ReadDomains(DomainTable([[DELETE]])) == None
  {
    DomainTableDecodes([[DELETE]]);
    assert !Tomlable([[DELETE]]);
    hide ReadDomains;
    hide DomainTable;
  }

  /** No destination contains U+007F. */
  predicate Nameable(ds: seq<string>)
  {
    forall i :: 0 <= i < |ds| ==> DELETE !in ds[i]
  }

  /** For the destinations of a valid policy only U+007F matters. */
  lemma {:induction false} ValidTomlable(ds: seq<string>)
    requires Ascending(ds)
    ensures Tomlable(ds) <==> Nameable(ds)
  {
    if ds != [] {
      AscendingDistinct(ds);
      ValidTomlable(ds[1..]);
      assert forall i :: 1 <= i < |ds| ==> ds[i] == ds[1..][i - 1];
    }
  }

  function DenyEgress(): seq<string>
  {
    ["-c", NETWORK_OFF]
  }

  /** The proxy settings that accompany every allowlist. */
  function ProxyLocks(): seq<string>
  {
    ["-c", Assign(Key(PROXY, "enable_socks5"), "false"), "-c", Assign(Key(PROXY, "enable_socks5_udp"), "false")]
    + ["-c", Assign(Key(PROXY, "allow_upstream_proxy"), "false")]
    + DangerLocks()
    + ["-c", Assign(Key(PROXY, "mode"), "\"full\""), "-c", Assign(Key(PROXY, "allow_local_binding"), "false")]
  }

  function DangerLocks(): seq<string>
  {
    ["-c", Assign(Key(PROXY, "dangerously_allow_non_loopback_proxy"), "false")]
    + ["-c", Assign(Key(PROXY, "dangerously_allow_all_unix_sockets"), "false")]
  }

  function UntrustedProject(): string
  {
    Assign("projects", "{ \"/workspace\" = { trust_level = \"untrusted\" } }")
  }

  function AllowlistEgress(ds: seq<string>): seq<string>
    requires ds != []
  {
    ["-c", NETWORK_ON, "-c", UntrustedProject(), "-c", PROXY_ON] + ProxyLocks() + ["-c", DomainTable(ds)]
  }

  function ProfileSettings(workspace: string): seq<string>
  {
    ["-c", Assign("default_permissions", "\"" + PROFILE + "\"")]
    + ["-c", Assign(Key(Key("permissions", PROFILE), "extends"), if workspace == "read" then "\":read-only\"" else "\":workspace\"")]
    + ["-c", STATE_DENIED]
  }

  function ShellSettings(): seq<string>
  {
    ["-c", Assign(Key("shell_environment_policy", "inherit"), "\"all\"")]
    + ["-c", Assign(Key("shell_environment_policy", "ignore_default_excludes"), "false")]
    + ["-c", Assign(Key("history", "persistence"), "\"none\"")]
  }

  function CredentialSettings(workspace: string): seq<string>
  {
    ProfileSettings(workspace) + ShellSettings()
  }

  function SandboxSettings(workspace: string): seq<string>
  {
    ["--sandbox", if workspace == "read" then "read-only" else "workspace-write", "-c", "approval_policy=never"]
  }

  function NetworkSettings(p: Policy): seq<string>
    requires p.mode == "allowlist" ==> p.destinations != []
  {
    if p.workspace == "read" then []
    else if p.mode == "deny" then DenyEgress()
    else if p.mode == "allow" then ["-c", NETWORK_ON, "-c", PROXY_OFF]
    else if p.mode == "allowlist" then AllowlistEgress(p.destinations)
    else []
  }

  function Codex(p: Policy): Result<Artifacts, Unsupported>
    requires Valid(p)
  {
    if Missing(p, CODEX) != {} then Failure(MissingCapabilities(Missing(p, CODEX)))
    else if p.workspace == "none" then Failure(NoWorkspace)
    else if p.workspace == "read" && p.mode != "deny" then Failure(ReadOnlyNetwork)
    else if p.auth == "deny" && !p.sandboxRequired then Failure(AuthDenyNeedsSandbox)
    else
      var credentials := if p.auth == "deny" then CredentialSettings(p.workspace) else [];
      Success(Artifacts(SandboxSettings(p.workspace) + NetworkSettings(p) + credentials, [],
                        if p.sandboxRequired then SANDBOX_ISOLATION else CONTROL_ISOLATION))
  }

  /** `CodexDriver._compile_execution_policy`, appending to one argument list. */
  method CompileCodex(p: Policy) returns (r: Result<Artifacts, Unsupported>)
    requires Valid(p)
    ensures r == Codex(p)
  {
    hide Available;
    hide AllowlistEgress;
    hide CredentialSettings;
    var required := RequiredOf(p);
    var missing := required - Available(CODEX);
    if missing != {} {
      return Failure(MissingCapabilities(missing));
    }
    if p.workspace == "none" {
      return Failure(NoWorkspace);
    }
    var sandbox := if p.workspace == "read" then "read-only" else "workspace-write";
    var argv := ["--sandbox", sandbox, "-c", "approval_policy=never"];
    assert argv == SandboxSettings(p.workspace) == SandboxSettings(p.workspace) + [];
    assert |"read-only"| != |"workspace-write"|;
    if sandbox == "read-only" {
      if p.mode != "deny" {
        return Failure(ReadOnlyNetwork);
      }
    } else if p.mode == "deny" {
      argv := argv + DenyEgress();
    } else if p.mode == "allow" {
      argv := argv + ["-c", NETWORK_ON, "-c", PROXY_OFF];
    } else {
      argv := argv + AllowlistEgress(p.destinations);
    }
    assert argv == SandboxSettings(p.workspace) + NetworkSettings(p) == SandboxSettings(p.workspace) + NetworkSettings(p) + [];
    if p.auth == "deny" {
      if !p.sandboxRequired {
        return Failure(AuthDenyNeedsSandbox);
      }
      argv := argv + CredentialSettings(p.workspace);
    }
    var isolation := if p.sandboxRequired then SANDBOX_ISOLATION else CONTROL_ISOLATION;
    r := Success(Artifacts(argv, [], isolation));
  }

  /** Codex compiles exactly these policies. */
  lemma CodexCompilesIff(p: Policy)
    requires Valid(p)
    ensures Codex(p).Success? <==>
              && p.securityClass == "compatibility" && p.workspace != "none"
              && (p.workspace == "read" ==> p.mode == "deny")
              && (p.auth == "deny" ==> p.sandboxRequired)
  {
    DriversMatchCompatibilityOnly(p);
    hide Missing;
  }

  /** A setting that neither turns the network on, nor the proxy off, nor names domains. */
  predicate Quiet(x: string)
  {
    x != NETWORK_ON && x != PROXY_OFF && !(DOMAINS <= x)
  }

  lemma OtherStart(x: string)
    requires x != "" && x[0] != 's' && x[0] != 'f'
    ensures Quiet(x)
  {
    LoudStarts();
  }

  lemma LoudStarts()
    ensures |NETWORK_ON| > 1 && |PROXY_OFF| > 1 && |DOMAINS| > 1
    ensures NETWORK_ON[0] == 's' && NETWORK_ON[1] == 'a' && PROXY_OFF[0] == 'f' && DOMAINS[0] == 'f'
  {
    assert NETWORK_ON[0] == WRITE_SANDBOX[0] && NETWORK_ON[1] == WRITE_SANDBOX[1];
    assert PROXY_OFF[0] == PROXY[0] && DOMAINS[0] == PROXY[0];
  }

  lemma ShellSetting(name: string, value: string)
    ensures Quiet(Assign(Key("shell_environment_policy", name), value))
  {
    var x := Assign(Key("shell_environment_policy", name), value);
    assert x[0] == "shell_environment_policy"[0] == 's' && x[1] == "shell_environment_policy"[1] == 'h';
    LoudStarts();
  }

  /** A proxy setting is told from the domain table by the first two letters of its name. */
  lemma ProxySetting(name: string, value: string)
    requires |name| >= 2 && (name[0] != 'd' || name[1] != 'o') && Assign(name, value) != Assign("enabled", "false")
    ensures Quiet(Assign(Key(PROXY, name), value))
  {
    var x := Assign(Key(PROXY, name), value);
    var start := PROXY + ".";
    LoudStarts();
    assert x == start + Assign(name, value) && PROXY_OFF == start + Assign("enabled", "false");
    assert x[|start|..] == Assign(name, value) && PROXY_OFF[|start|..] == Assign("enabled", "false");
    assert x[0] == start[0] == PROXY[0] == 'f';
    assert x[|start|] == name[0] && x[|start| + 1] == name[1];
    assert DOMAINS == start + Assign("domains", "");
    assert DOMAINS[|start|] == "domains"[0] && DOMAINS[|start| + 1] == "domains"[1];
  }

  lemma SandboxIsQuiet(workspace: string)
    ensures forall x :: x in SandboxSettings(workspace) ==> Quiet(x)
  {
    OtherStart("--sandbox");
    OtherStart("read-only");
    OtherStart("workspace-write");
    OtherStart("-c");
    OtherStart("approval_policy=never");
    hide Quiet;
  }

  lemma DenyIsQuiet()
    ensures forall x :: x in DenyEgress() ==> Quiet(x)
  {
    OtherStart("-c");
    LoudStarts();
    assert NETWORK_OFF[0] == NETWORK_ON[0];
    assert |NETWORK_OFF| == |NETWORK_ON| + 1;
    assert Quiet(NETWORK_OFF);
    hide Quiet;
  }

  lemma ProfileIsQuiet(workspace: string)
    ensures forall x :: x in ProfileSettings(workspace) ==> Quiet(x)
    ensures STATE_DENIED in ProfileSettings(workspace)
  {
    OtherStart("-c");
    OtherSetting("default_permissions", "\"" + PROFILE + "\"");
    OtherSetting(Key(Key("permissions", PROFILE), "extends"), if workspace == "read" then "\":read-only\"" else "\":workspace\"");
    OtherStart(STATE_DENIED);
    hide Quiet;
    hide Assign;
    hide Key;
  }

  lemma ShellIsQuiet()
    ensures forall x :: x in ShellSettings() ==> Quiet(x)
  {
    OtherStart("-c");
    ShellSetting("inherit", "\"all\"");
    ShellSetting("ignore_default_excludes", "false");
    OtherSetting(Key("history", "persistence"), "\"none\"");
    hide Quiet;
    hide Assign;
    hide Key;
  }

  lemma CredentialsAreQuiet(workspace: string)
    ensures forall x :: x in CredentialSettings(workspace) ==> Quiet(x)
    ensures STATE_DENIED in CredentialSettings(workspace)
  {
    ProfileIsQuiet(workspace);
    ShellIsQuiet();
    hide Quiet;
    hide ProfileSettings;
    hide ShellSettings;
  }

  lemma OtherSetting(key: string, value: string)
    requires key != "" && key[0] != 's' && key[0] != 'f'
    ensures Quiet(Assign(key, value))
  {
    OtherStart(Assign(key, value));
  }

  lemma DangersAreQuiet()
    ensures forall x :: x in DangerLocks() ==> Quiet(x)
  {
    OtherStart("-c");
    ProxyLock("dangerously_allow_non_loopback_proxy", "false");
    ProxyLock("dangerously_allow_all_unix_sockets", "false");
    hide Quiet;
    hide Assign;
    hide Key;
  }

  lemma LocksAreQuiet()
    ensures forall x :: x in ProxyLocks() ==> Quiet(x)
  {
    OtherStart("-c");
    ProxyLock("enable_socks5", "false");
    ProxyLock("enable_socks5_udp", "false");
    ProxyLock("allow_upstream_proxy", "false");
    DangersAreQuiet();
    ProxyLock("mode", "\"full\"");
    ProxyLock("allow_local_binding", "false");
    hide Quiet;
    hide Assign;
    hide Key;
    hide DangerLocks;
  }

  /** A proxy setting of another name than "enabled", told by its first or seventh letter. */
  lemma ProxyLock(name: string, value: string)
    requires |name| >= 2 && (name[0] != 'd' || name[1] != 'o') && (name[0] != 'e' || (|name| > 6 && name[6] != 'd'))
    ensures Quiet(Assign(Key(PROXY, name), value))
  {
    assert Assign("enabled", "false")[0] == 'e' && Assign("enabled", "false")[6] == 'd';
    assert Assign(name, value)[0] == name[0] && (|name| > 6 ==> Assign(name, value)[6] == name[6]);
    ProxySetting(name, value);
  }

  lemma AllowlistIsQuiet(ds: seq<string>, x: string)
    requires ds != [] && x in AllowlistEgress(ds) && x != NETWORK_ON && x != DomainTable(ds)
    ensures Quiet(x)
  {
    LocksAreQuiet();
    OtherStart("-c");
    OtherSetting("projects", "{ \"/workspace\" = { trust_level = \"untrusted\" } }");
    EnabledIsQuiet();
    hide Quiet;
    hide DomainTable;
    hide ProxyLocks;
  }

  lemma EnabledIsQuiet()
    ensures Quiet(PROXY_ON)
  {
    assert |Assign("enabled", "true")| != |Assign("enabled", "false")|;
    ProxySetting("enabled", "true");
  }

  /** The settings that are not quiet are told apart. */
  lemma LoudSettings(ds: seq<string>)
    requires ds != []
    ensures DOMAINS <= DomainTable(ds) && !(DOMAINS <= NETWORK_ON) && !(DOMAINS <= PROXY_OFF)
    ensures DomainTable(ds) != NETWORK_ON && DomainTable(ds) != PROXY_OFF && NETWORK_ON != PROXY_OFF
  {
    LoudStarts();
    var t := DomainTable(ds);
    assert t[..|DOMAINS|] == DOMAINS;
    assert t[0] == DOMAINS[0];
    var start := PROXY + ".";
    assert PROXY_OFF == start + Assign("enabled", "false") && DOMAINS == start + Assign("domains", "");
    assert PROXY_OFF[|start|] == "enabled"[0] && DOMAINS[|start|] == "domains"[0] && t[|start|] == DOMAINS[|start|];
  }

  /** Where a compiled argument list turns the task network on, the proxy off, or names domains. */
  lemma CodexNetwork(p: Policy, x: string)
    requires Valid(p) && Codex(p).Success? && x in Codex(p).value.argv
    ensures x == NETWORK_ON ==> p.workspace == "write" && p.mode != "deny"
    ensures x == PROXY_OFF ==> p.workspace == "write" && p.mode == "allow"
    ensures DOMAINS <= x ==>
              && p.workspace == "write" && p.mode == "allowlist" && x == DomainTable(p.destinations)
              && ReadDomains(x) == if Nameable(p.destinations) then Some(p.destinations) else None
  {
    CodexCompilesIff(p);
    hide Quiet;
    hide Missing;
    hide NetworkSettings;
    hide CredentialSettings;
    hide SandboxSettings;
    hide ReadDomains;
    if x in NetworkSettings(p) {
      NetworkPart(p, x);
    } else {
      SandboxIsQuiet(p.workspace);
      CredentialsAreQuiet(p.workspace);
      QuietMeans(x);
    }
  }

  lemma QuietMeans(x: string)
    requires Quiet(x)
    ensures x != NETWORK_ON && x != PROXY_OFF && !(DOMAINS <= x)
  {
  }

  lemma NetworkPart(p: Policy, x: string)
    requires Valid(p) && p.workspace in {"read", "write"} && x in NetworkSettings(p)
    ensures x == NETWORK_ON ==> p.workspace == "write" && p.mode != "deny"
    ensures x == PROXY_OFF ==> p.workspace == "write" && p.mode == "allow"
    ensures DOMAINS <= x ==>
              && p.workspace == "write" && p.mode == "allowlist" && x == DomainTable(p.destinations)
              && ReadDomains(x) == if Nameable(p.destinations) then Some(p.destinations) else None
  {
    hide ReadDomains;
    hide AllowlistEgress;
    hide DenyEgress;
    hide DomainTable;
    LoudSettings(["a"]);
    if p.mode == "deny" {
      DenyIsQuiet();
    } else if p.mode == "allow" {
      OtherStart("-c");
    } else {
      LoudSettings(p.destinations);
      DomainTableDecodes(p.destinations);
      ValidTomlable(p.destinations);
      if x != NETWORK_ON && x != DomainTable(p.destinations) {
        AllowlistIsQuiet(p.destinations, x);
      }
    }
  }

  /** A compiled writable policy gets the network it asks for, and provider state is hidden when it must be. */
  lemma CodexGrants(p: Policy)
    requires Valid(p) && Codex(p).Success? && p.workspace == "write"
    ensures var argv := Codex(p).value.argv;
            && (p.mode == "deny" ==> NETWORK_OFF in argv)
            && (p.mode == "allow" ==> NETWORK_ON in argv && PROXY_OFF in argv)
            && (p.mode == "allowlist" ==> NETWORK_ON in argv && PROXY_ON in argv && DomainTable(p.destinations) in argv)
  {
    hide Missing;
    hide CredentialSettings;
    hide SandboxSettings;
    hide ProxyLocks;
    hide DomainTable;
    var n := NetworkSettings(p);
    assert forall x :: x in n ==> x in Codex(p).value.argv;
    if p.mode == "deny" {
      assert n[1] == NETWORK_OFF;
    } else if p.mode == "allow" {
      assert n[1] == NETWORK_ON && n[3] == PROXY_OFF;
    } else {
      assert n[1] == NETWORK_ON && n[5] == PROXY_ON && n[|n| - 1] == DomainTable(p.destinations);
    }
  }

  lemma CodexHidesState(p: Policy)
    requires Valid(p) && Codex(p).Success? && p.auth == "deny"
    ensures STATE_DENIED in Codex(p).value.argv && Codex(p).value.isolation == SANDBOX_ISOLATION
  {
    CredentialsAreQuiet(p.workspace);
    hide Missing;
    hide NetworkSettings;
    hide CredentialSettings;
    hide SandboxSettings;
  }

  /******* Cursor *******/

  const PRIVATE_DENIES: seq<string> :=
    ["127.0.0.0/8", "10.0.0.0/8", "172.16.0.0/12", "192.168.0.0/16", "169.254.0.0/16", "::1/128", "fc00::/7", "fe80::/10"]

  /** `cursor_task_egress_sandbox_json`, as a document. */
  function SandboxDocument(p: Policy): Json
  {
    Obj(map[
      "type" := Str(if p.workspace == "read" then "workspace_readonly" else "workspace_readwrite"),
      "networkPolicy" := Obj(map["default" := Str("deny"),
                                 "allow" := Strings(if p.mode == "deny" then [] else p.destinations),
                                 "deny" := Strings(PRIVATE_DENIES)])])
  }

  function Cursor(p: Policy): Result<Artifacts, Unsupported>
    requires Valid(p)
  {
    if Missing(p, CURSOR) != {} then Failure(MissingCapabilities(Missing(p, CURSOR)))
    else if p.workspace == "none" then Failure(NoWorkspace)
    else if p.auth == "deny" && !p.sandboxRequired then Failure(AuthDenyNeedsSandbox)
    else if p.mode == "allow" then
      if p.sandboxRequired then Failure(SandboxedAllow)
      else Success(Artifacts(["--sandbox", "disabled"], [], CONTROL_ISOLATION))
    else if !p.sandboxRequired then Failure(RestrictedNetworkNeedsSandbox)
    else
      Success(Artifacts(["--sandbox", "enabled"],
                        [GeneratedFile("sandbox.json", "/home/node/.cursor/sandbox.json", SandboxDocument(p))],
                        SANDBOX_ISOLATION))
  }

  /** Cursor compiles exactly these policies. */
  lemma CursorCompilesIff(p: Policy)
    requires Valid(p)
    ensures Cursor(p).Success? <==>
              && p.securityClass == "compatibility" && p.workspace != "none"
              && (p.mode == "allow") != p.sandboxRequired
              && (p.auth == "deny" ==> p.sandboxRequired)
  {
    DriversMatchCompatibilityOnly(p);
    hide Missing;
  }

  /** What a sandbox document lets through: None unless its default is to deny. */
  ghost function AllowedByDocument(d: Json): Option<set<Json>>
  {
    if d.Obj? && "networkPolicy" in d.fields then
      var n := d.fields["networkPolicy"];
      if n.Obj? && n.fields.Keys == {"default", "allow", "deny"} && n.fields["default"] == Str("deny") && n.fields["allow"].Arr?
      then Some(set i | 0 <= i < |n.fields["allow"].items| :: n.fields["allow"].items[i]) else None
    else None
  }

  lemma DocumentAllows(p: Policy)
    requires Valid(p) && p.mode != "allow"
    ensures AllowedByDocument(SandboxDocument(p)) == Some(set d | d in p.destinations :: Str(d))
  {
    var n := SandboxDocument(p).fields["networkPolicy"];
    assert n.fields.Keys == {"default", "allow", "deny"};
    var items := n.fields["allow"].items;
    assert items == Strings(p.destinations).items;
    assert forall i :: 0 <= i < |items| ==> items[i] == Str(p.destinations[i]);
    assert (set i | 0 <= i < |items| :: items[i]) == set d | d in p.destinations :: Str(d) by {
      forall d | d in p.destinations
        ensures Str(d) in (set i | 0 <= i < |items| :: items[i])
      {
        var i :| 0 <= i < |p.destinations| && p.destinations[i] == d;
        assert items[i] == Str(d);
      }
    }
  }

  /** A policy whose network is restricted compiles to the enabled sandbox and its document. */
  lemma CursorRestricts(p: Policy)
    requires Valid(p) && p.mode != "allow" && Cursor(p).Success?
    ensures Cursor(p).value.argv == ["--sandbox", "enabled"] && Cursor(p).value.isolation == SANDBOX_ISOLATION
    ensures |Cursor(p).value.files| == 1
    ensures AllowedByDocument(Cursor(p).value.files[0].document) == Some(set d | d in p.destinations :: Str(d))
  {
    hide Missing;
    hide SandboxDocument;
    hide AllowedByDocument;
    DocumentAllows(p);
  }

  /** A policy that requires the sandbox compiles to settings that use it. */
  lemma SandboxIsUsed(p: Policy)
    requires Valid(p) && p.sandboxRequired
    ensures Cursor(p).Success? ==> Cursor(p).value.argv == ["--sandbox", "enabled"] && Cursor(p).value.isolation == SANDBOX_ISOLATION
    ensures Codex(p).Success? ==> Codex(p).value.isolation == SANDBOX_ISOLATION
  {
    hide Missing;
    hide SandboxDocument;
  }

  /** A Codex argument list for a denied network does not open it. */
  lemma CodexStaysOffline(p: Policy)
    requires Valid(p) && p.mode == "deny" && Codex(p).Success?
    ensures NETWORK_ON !in Codex(p).value.argv
    ensures forall x :: x in Codex(p).value.argv ==> !(DOMAINS <= x)
  {
    forall x | x in Codex(p).value.argv
      ensures x != NETWORK_ON && !(DOMAINS <= x)
    {
      CodexNetwork(p, x);
    }
    hide Codex;
  }

  /******* End to end *******/

  /** What of the baseline an accepted resolution still has, for the fields the compilers look at. */
  lemma ResolvedFields(baseline: Policy, layers: seq<Option<Json>>)
    requires Valid(baseline) && Resolve(baseline, layers).Success?
    ensures var p := Resolve(baseline, layers).value;
            && Valid(p)
            && (baseline.mode == "deny" ==> p.mode == "deny" && p.destinations == [])
            && (baseline.mode == "allowlist" ==> p.mode != "allow" && Elements(p.destinations) <= Elements(baseline.destinations))
            && (baseline.sandboxRequired ==> p.sandboxRequired)
            && (baseline.auth == "deny" ==> p.auth == "deny")
            && (baseline.securityClass == "hardened" ==> p.securityClass == "hardened")
            && (baseline.workspace != "write" ==> p.workspace != "write")
  {
    ResolutionNarrows(baseline, layers);
    hide Resolve;
    NarrowedFields(baseline, Resolve(baseline, layers).value);
    hide Valid;
    hide NotWider;
  }

  lemma NarrowedFields(a: Policy, p: Policy)
    requires Valid(a) && Valid(p) && NotWider(a, p)
    ensures a.mode == "deny" ==> p.mode == "deny" && p.destinations == []
    ensures a.mode == "allowlist" ==> p.mode != "allow" && Elements(p.destinations) <= Elements(a.destinations)
    ensures a.sandboxRequired ==> p.sandboxRequired
    ensures a.auth == "deny" ==> p.auth == "deny"
    ensures a.securityClass == "hardened" ==> p.securityClass == "hardened"
    ensures a.workspace != "write" ==> p.workspace != "write"
  {
    WideningIs(a, p);
    hide FirstWidening;
    assert Within(a, p, Mode) && Within(a, p, Destinations) && Within(a, p, SandboxRequired) && Within(a, p, Auth);
    assert Within(a, p, SecurityClass) && Within(a, p, WorkspaceAccess);
    SetsMean(a.destinations, p.destinations);
    assert p.destinations == [] ==> Elements(p.destinations) == {};
  }

  /** A baseline that denies the task network is never compiled to settings that open it. */
  lemma DenyBaselineStaysOffline(baseline: Policy, layers: seq<Option<Json>>)
    requires Valid(baseline) && baseline.mode == "deny" && Resolve(baseline, layers).Success?
    ensures var p := Resolve(baseline, layers).value;
            && Valid(p)
            && (Codex(p).Success? ==>
                  && NETWORK_ON !in Codex(p).value.argv
                  && forall x :: x in Codex(p).value.argv ==> !(DOMAINS <= x))
            && (Cursor(p).Success? ==>
                  && Cursor(p).value.argv == ["--sandbox", "enabled"] && |Cursor(p).value.files| == 1
                  && AllowedByDocument(Cursor(p).value.files[0].document) == Some({}))
  {
    hide *;
    ResolvedFields(baseline, layers);
    var p := Resolve(baseline, layers).value;
    if Codex(p).Success? {
      CodexStaysOffline(p);
    }
    if Cursor(p).Success? {
      CursorRestricts(p);
      assert (set d | d in p.destinations :: Str(d)) == {};
    }
  }

  /** An allowlist baseline is compiled to nothing wider than its destinations. */
  lemma AllowlistBaselineBoundsCodex(baseline: Policy, layers: seq<Option<Json>>, x: string)
    requires Valid(baseline) && baseline.mode == "allowlist" && Resolve(baseline, layers).Success?
    ensures var p := Resolve(baseline, layers).value;
            && Valid(p)
            && (Codex(p).Success? && x in Codex(p).value.argv ==>
                  && x != PROXY_OFF
                  && (DOMAINS <= x ==> (ReadDomains(x).Some? <==> Nameable(p.destinations)))
                  && (DOMAINS <= x && ReadDomains(x).Some? ==> Elements(ReadDomains(x).value) <= Elements(baseline.destinations))
                  && (x == NETWORK_ON ==> exists t :: t in Codex(p).value.argv && DOMAINS <= t))
  {
    hide *;
    ResolvedFields(baseline, layers);
    var p := Resolve(baseline, layers).value;
    if Codex(p).Success? && x in Codex(p).value.argv {
      CodexNetwork(p, x);
      if x == NETWORK_ON {
        OnlyAllowlistRemains(p);
        CodexGrants(p);
        LoudSettings(p.destinations);
      }
    }
  }

  lemma OnlyAllowlistRemains(p: Policy)
    requires Valid(p) && p.mode != "allow" && p.mode != "deny"
    ensures p.mode == "allowlist" && p.destinations != []
  {
  }

  lemma AllowlistBaselineBoundsCursor(baseline: Policy, layers: seq<Option<Json>>)
    requires Valid(baseline) && baseline.mode == "allowlist" && Resolve(baseline, layers).Success?
    ensures var p := Resolve(baseline, layers).value;
            && Valid(p)
            && (Cursor(p).Success? ==>
                  && Cursor(p).value.argv == ["--sandbox", "enabled"] && |Cursor(p).value.files| == 1
                  && AllowedByDocument(Cursor(p).value.files[0].document).Some?
                  && AllowedByDocument(Cursor(p).value.files[0].document).value <= set d | d in baseline.destinations :: Str(d))
  {
    hide *;
    ResolvedFields(baseline, layers);
    var p := Resolve(baseline, layers).value;
    if Cursor(p).Success? {
      CursorRestricts(p);
      ElementsWithin(p.destinations, baseline.destinations);
    }
  }

  lemma ElementsWithin(s: seq<string>, t: seq<string>)
    requires Elements(s) <= Elements(t)
    ensures (set d | d in s :: Str(d)) <= set d | d in t :: Str(d)
  {
    assert forall d :: d in s ==> d in Elements(s);
  }

  /** A baseline that requires the sandbox is never compiled to run without it. */
  lemma SandboxBaselineKeepsSandbox(baseline: Policy, layers: seq<Option<Json>>)
    requires Valid(baseline) && baseline.sandboxRequired && Resolve(baseline, layers).Success?
    ensures var p := Resolve(baseline, layers).value;
            && Valid(p)
            && (Cursor(p).Success? ==> Cursor(p).value.argv == ["--sandbox", "enabled"] && Cursor(p).value.isolation == SANDBOX_ISOLATION)
            && (Codex(p).Success? ==> Codex(p).value.isolation == SANDBOX_ISOLATION)
  {
    hide *;
    ResolvedFields(baseline, layers);
    SandboxIsUsed(Resolve(baseline, layers).value);
  }

  /** A baseline that hides provider authentication is compiled to settings that hide it. */
  lemma AuthDenyBaselineHidesState(baseline: Policy, layers: seq<Option<Json>>)
    requires Valid(baseline) && baseline.auth == "deny" && Resolve(baseline, layers).Success?
    ensures var p := Resolve(baseline, layers).value;
            && Valid(p)
            && (Codex(p).Success? ==> STATE_DENIED in Codex(p).value.argv && Codex(p).value.isolation == SANDBOX_ISOLATION)
            && (Cursor(p).Success? ==> Cursor(p).value.argv == ["--sandbox", "enabled"])
  {
    hide *;
    ResolvedFields(baseline, layers);
    var p := Resolve(baseline, layers).value;
    if Codex(p).Success? {
      CodexHidesState(p);
    }
    if Cursor(p).Success? {
      CursorCompilesIff(p);
      SandboxIsUsed(p);
    }
  }

  lemma HardenedIsMissing(p: Policy)
    requires Valid(p) && p.securityClass == "hardened"
    ensures Codex(p).Failure? && Codex(p).error.MissingCapabilities? && "security_class:hardened" in Codex(p).error.missing
    ensures Cursor(p).Failure? && Cursor(p).error.MissingCapabilities? && "security_class:hardened" in Cursor(p).error.missing
  {
    assert ("security_class:" + p.securityClass)[0] == 's';
    ClassMustBeListed(p, CODEX);
    ClassMustBeListed(p, CURSOR);
    assert "security_class:" + p.securityClass == "security_class:hardened";
    hide Missing;
    hide SandboxDocument;
    hide SandboxSettings;
    hide NetworkSettings;
    hide CredentialSettings;
  }

  /** A hardened baseline is compiled by neither driver. */
  lemma HardenedBaselineCompilesNowhere(baseline: Policy, layers: seq<Option<Json>>)
    requires Valid(baseline) && baseline.securityClass == "hardened" && Resolve(baseline, layers).Success?
    ensures var p := Resolve(baseline, layers).value;
            && Valid(p)
            && Codex(p).Failure? && Codex(p).error.MissingCapabilities? && "security_class:hardened" in Codex(p).error.missing
            && Cursor(p).Failure? && Cursor(p).error.MissingCapabilities? && "security_class:hardened" in Cursor(p).error.missing
  {
    hide *;
    ResolvedFields(baseline, layers);
    HardenedIsMissing(Resolve(baseline, layers).value);
  }
}
