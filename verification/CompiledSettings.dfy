/** What the compiled settings of the two drivers say, in their own words. */
module CompiledSettings {
  import opened Wrappers
  import opened Text
  import opened Json
  import opened PolicySchema
  import opened PolicyResolver
  import opened PolicyCompile

  /******* Capabilities *******/

  /** Which capabilities a policy requires, name by name. */
  lemma RequiredMeans(p: Policy)
    requires Valid(p)
    ensures forall s :: s in {"hardened", "compatibility"} ==> ("security_class:" + s in Required(p) <==> p.securityClass == s)
    ensures "workspace:readonly" in Required(p) <==> p.workspace == "read"
    ensures "workspace:writable" in Required(p) <==> p.workspace == "write"
    ensures "filesystem_sandbox" in Required(p) <==> p.securityClass == "hardened" && p.sandboxRequired
    ensures "network_deny" in Required(p) <==> p.securityClass == "hardened" && p.mode == "deny"
    ensures "network_allowlist" in Required(p) <==> p.securityClass == "hardened" && p.mode == "allowlist"
    ensures "provider_state_protection" in Required(p) <==> p.securityClass == "hardened" && p.auth == "deny"
  {
    ClassNames(p.securityClass);
    hide Valid;
  }

  /** A class capability starts differently from every other one. */
  lemma ClassNames(s: string)
    ensures ("security_class:" + s)[0] == 's' && ("security_class:" + s)[15..] == s
    ensures forall t :: "security_class:" + t == "security_class:" + s ==> t == s
    ensures "security_class:" + s !in {"workspace:readonly", "workspace:writable", "filesystem_sandbox", "network_deny",
                                       "network_allowlist", "provider_state_protection"}
  {
    forall t | "security_class:" + t == "security_class:" + s
      ensures t == s
    {
      assert ("security_class:" + t)[15..] == t;
    }
    assert "workspace:readonly"[0] == 'w' && "workspace:writable"[0] == 'w' && "filesystem_sandbox"[0] == 'f';
    assert "network_deny"[0] == 'n' && "network_allowlist"[0] == 'n' && "provider_state_protection"[0] == 'p';
  }

  /** Which capabilities a driver with the given declaration offers, name by name. */
  lemma AvailableMeans(c: Capabilities)
    requires forall x :: x in c.policyCapabilities ==> x in {"provider_state_protection", "network_deny", "network_allowlist"}
    ensures "workspace:readonly" in Available(c) <==> "readonly" in c.workspaceModes
    ensures "workspace:writable" in Available(c) <==> "writable" in c.workspaceModes
    ensures "filesystem_sandbox" in Available(c) <==> c.nativeSandbox
    ensures "network_deny" in Available(c) <==> "network_deny" in c.policyCapabilities
    ensures "network_allowlist" in Available(c) <==> "network_allowlist" in c.policyCapabilities
    ensures "provider_state_protection" in Available(c) <==> "provider_state_protection" in c.policyCapabilities
  {
    Prefixed(c, "workspace:readonly", "readonly");
    Prefixed(c, "workspace:writable", "writable");
    FirstLetters();
    Plain(c, "filesystem_sandbox");
    Plain(c, "network_deny");
    Plain(c, "network_allowlist");
    Plain(c, "provider_state_protection");
    hide Available;
  }

  lemma FirstLetters()
    ensures "filesystem_sandbox"[0] == 'f' && "network_deny"[0] == 'n' && "network_allowlist"[0] == 'n'
    ensures "provider_state_protection"[0] == 'p' && "interactive-run"[0] == 'i' && "workspace:readonly"[0] == 'w'
    ensures "workspace:writable"[0] == 'w'
    ensures "network_deny" != "network_allowlist"
  {
  }

  /** A name that starts like no prefixed capability. */
  lemma Plain(c: Capabilities, x: string)
    requires x != "" && x[0] in {'f', 'n', 'p'}
    ensures x in Available(c) <==> x in c.policyCapabilities || (c.nativeSandbox && x == "filesystem_sandbox")
  {
    FirstLetters();
    assert forall m :: ("workspace:" + m)[0] == 'w' && ("security_class:" + m)[0] == 's' && ("compatibility:" + m)[0] == 'c';
  }

  lemma Prefixed(c: Capabilities, x: string, mode: string)
    requires x == "workspace:" + mode && x !in c.policyCapabilities
    ensures x in Available(c) <==> mode in c.workspaceModes
  {
    FirstLetters();
    assert x[0] == 'w' && x[10..] == mode;
    assert forall m :: ("workspace:" + m)[10..] == m && ("security_class:" + m)[0] == 's' && ("compatibility:" + m)[0] == 'c';
  }

  /** Every required capability is one of these. */
  lemma RequiredOnly(p: Policy)
    ensures Required(p) <= {"security_class:" + p.securityClass, "workspace:readonly", "workspace:writable", "filesystem_sandbox",
                            "network_deny", "network_allowlist", "provider_state_protection"}
  {
  }

  /** What is missing for a hardened policy: under Codex only the class itself, under Cursor the network controls as
      well. */
  lemma HardenedMisses(p: Policy, x: string)
    requires Valid(p) && p.securityClass == "hardened"
    ensures x in Missing(p, CODEX) <==> x == "security_class:hardened"
    ensures x in Missing(p, CURSOR) <==>
              || x == "security_class:hardened"
              || (x == "network_deny" && p.mode == "deny") || (x == "network_allowlist" && p.mode == "allowlist")
  {
    RequiredMeans(p);
    RequiredOnly(p);
    AvailableMeans(CODEX);
    AvailableMeans(CURSOR);
    HardenedIsNotOffered();
    hide Required;
    hide Available;
    hide Valid;
  }

  lemma HardenedIsNotOffered()
    ensures "security_class:" + "hardened" == "security_class:hardened"
    ensures "security_class:hardened" !in Available(CODEX) && "security_class:hardened" !in Available(CURSOR)
    ensures "security_class:hardened" !in {"network_deny", "network_allowlist"}
  {
    var x := "security_class:" + "hardened";
    ClassNames("hardened");
    FirstLetters();
    assert x == "security_class:hardened";
    assert forall m :: ("workspace:" + m)[0] == 'w' && ("compatibility:" + m)[0] == 'c';
    assert "compatibility" != "hardened";
    assert "filesystem_sandbox"[0] != x[0] && "interactive-run"[0] != x[0];
  }

  /******* Codex *******/

  /** A compiled policy runs in the sandbox of its workspace access, without approvals. */
  lemma CodexSandbox(p: Policy)
    requires Valid(p) && Codex(p).Success?
    ensures var argv := Codex(p).value.argv;
            && |argv| >= 4 && argv[0] == "--sandbox"
            && (argv[1] == "read-only" <==> p.workspace == "read")
            && (argv[1] == "workspace-write" <==> p.workspace == "write")
            && argv[2..4] == ["-c", "approval_policy=never"]
    ensures Codex(p).value.isolation == Isolation(1000, 1000, p.sandboxRequired) && Codex(p).value.files == []
  {
    CodexCompilesIff(p);
    hide Missing;
    hide NetworkSettings;
    hide CredentialSettings;
    SandboxTexts(p.workspace);
    hide SandboxSettings;
    var argv, front := Codex(p).value.argv, SandboxSettings(p.workspace);
    assert argv[..4] == front;
    assert argv[0] == front[0] && argv[1] == front[1] && argv[2..4] == front[2..4];
  }

  lemma SandboxTexts(workspace: string)
    requires workspace in {"read", "write"}
    ensures var s := SandboxSettings(workspace);
            && |s| == 4 && s[0] == "--sandbox" && s[2..4] == ["-c", "approval_policy=never"]
            && (s[1] == "read-only" <==> workspace == "read") && (s[1] == "workspace-write" <==> workspace == "write")
  {
    assert |"read-only"| != |"workspace-write"|;
  }

  /** The text of a proxy setting. */
  function ProxyText(name: string, value: string): string
  {
    "features.network_proxy" + "." + name + "=" + value
  }

  /** An open network with an allowlist comes with every lock of the proxy. */
  lemma CodexLocksProxy(p: Policy)
    requires Valid(p) && Codex(p).Success? && p.workspace == "write" && p.mode == "allowlist"
    ensures var argv := Codex(p).value.argv;
            && ProxyText("enabled", "true") in argv
            && ProxyText("enable_socks5", "false") in argv && ProxyText("enable_socks5_udp", "false") in argv
            && ProxyText("allow_upstream_proxy", "false") in argv
            && ProxyText("dangerously_allow_non_loopback_proxy", "false") in argv
            && ProxyText("dangerously_allow_all_unix_sockets", "false") in argv
            && ProxyText("mode", "\"full\"") in argv && ProxyText("allow_local_binding", "false") in argv
            && "projects" + "=" + "{ \"/workspace\" = { trust_level = \"untrusted\" } }" in argv
  {
    CodexGrants(p);
    LocksText();
    var argv := Codex(p).value.argv;
    hide ProxyText;
    assert forall x :: x in ProxyLocks() ==> x in AllowlistEgress(p.destinations);
    assert forall x :: x in AllowlistEgress(p.destinations) ==> x in NetworkSettings(p);
    assert UntrustedProject() in AllowlistEgress(p.destinations);
    hide AllowlistEgress;
    hide ProxyLocks;
    hide Missing;
    hide SandboxSettings;
    hide CredentialSettings;
    assert forall x :: x in NetworkSettings(p) ==> x in argv;
  }

  lemma LocksText()
    ensures PROXY_ON == ProxyText("enabled", "true")
    ensures {ProxyText("enable_socks5", "false"), ProxyText("enable_socks5_udp", "false"),
             ProxyText("allow_upstream_proxy", "false"), ProxyText("dangerously_allow_non_loopback_proxy", "false"),
             ProxyText("dangerously_allow_all_unix_sockets", "false"), ProxyText("mode", "\"full\""),
             ProxyText("allow_local_binding", "false")} <= Elements(ProxyLocks())
  {
    assert forall name, value :: Assign(Key(PROXY, name), value) == ProxyText(name, value);
    var locks := ProxyLocks();
    assert locks[1] == Assign(Key(PROXY, "enable_socks5"), "false") && locks[3] == Assign(Key(PROXY, "enable_socks5_udp"), "false");
    assert locks[5] == Assign(Key(PROXY, "allow_upstream_proxy"), "false");
    assert locks[7] == Assign(Key(PROXY, "dangerously_allow_non_loopback_proxy"), "false");
    assert locks[9] == Assign(Key(PROXY, "dangerously_allow_all_unix_sockets"), "false");
    assert locks[11] == Assign(Key(PROXY, "mode"), "\"full\"") && locks[13] == Assign(Key(PROXY, "allow_local_binding"), "false");
    hide Assign;
    hide Key;
    hide ProxyText;
  }

  /** The settings that hide provider state, by their text. */
  function ProfileText(name: string, value: string): string
  {
    "permissions" + "." + "agentdev_credential_confidentiality" + "." + name + "=" + value
  }

  function DeniedTable(): string
  {
    "{ " + "\"/home/node/.codex" + "\" = \"deny\", " + "\"/home/node/.codex" + "/**\" = \"deny\" }"
  }

  /** Denied provider authentication compiles to the credential profile, which extends the profile of the workspace
      access and denies the provider's state directory with all below it; otherwise nothing is added. */
  lemma CodexCredentials(p: Policy)
    requires Valid(p) && Codex(p).Success?
    ensures var argv := Codex(p).value.argv;
            if p.auth == "deny" then
              && |argv| >= 12
              && argv[|argv| - 12..] ==
                   ["-c", "default_permissions" + "=" + "\"" + "agentdev_credential_confidentiality" + "\"",
                    "-c", ProfileText("extends", if p.workspace == "read" then "\":read-only\"" else "\":workspace\""),
                    "-c", ProfileText("filesystem", DeniedTable()),
                    "-c", "shell_environment_policy" + "." + "inherit" + "=" + "\"all\"",
                    "-c", "shell_environment_policy" + "." + "ignore_default_excludes" + "=" + "false",
                    "-c", "history" + "." + "persistence" + "=" + "\"none\""]
            else argv == SandboxSettings(p.workspace) + NetworkSettings(p)
  {
    CredentialText(p.workspace);
    var front := SandboxSettings(p.workspace) + NetworkSettings(p);
    hide Missing;
    hide NetworkSettings;
    hide SandboxSettings;
    hide CredentialSettings;
    hide ProfileText;
    if p.auth == "deny" {
      var all := front + CredentialSettings(p.workspace);
      assert all[|all| - 12..] == CredentialSettings(p.workspace);
    } else {
      assert front + [] == front;
    }
  }

  lemma CredentialText(workspace: string)
    ensures CredentialSettings(workspace) ==
              ["-c", "default_permissions" + "=" + "\"" + "agentdev_credential_confidentiality" + "\"",
               "-c", ProfileText("extends", if workspace == "read" then "\":read-only\"" else "\":workspace\""),
               "-c", ProfileText("filesystem", DeniedTable()),
               "-c", "shell_environment_policy" + "." + "inherit" + "=" + "\"all\"",
               "-c", "shell_environment_policy" + "." + "ignore_default_excludes" + "=" + "false",
               "-c", "history" + "." + "persistence" + "=" + "\"none\""]
    ensures |CredentialSettings(workspace)| == 12
  {
    var s := CredentialSettings(workspace);
    ProfileValueText("extends", if workspace == "read" then "\":read-only\"" else "\":workspace\"");
    DeniedText();
    assert s[1] == "default_permissions" + "=" + ("\"" + PROFILE + "\"") == "default_permissions" + "=" + "\"" + PROFILE + "\"";
  }

  lemma ProfileValueText(name: string, value: string)
    ensures Assign(Key(Key("permissions", PROFILE), name), value) == ProfileText(name, value)
  {
  }

  lemma DeniedText()
    ensures STATE_DENIED == ProfileText("filesystem", DeniedTable())
  {
    ProfileValueText("filesystem", DeniedTable());
  }

  /** Why Codex refuses a policy: the first reason in this order. */
  lemma CodexRefusals(p: Policy)
    requires Valid(p) && Codex(p).Failure?
    ensures Codex(p).error.MissingCapabilities? <==> p.securityClass != "compatibility"
    ensures Codex(p).error == NoWorkspace <==> p.securityClass == "compatibility" && p.workspace == "none"
    ensures Codex(p).error == ReadOnlyNetwork <==>
              p.securityClass == "compatibility" && p.workspace == "read" && p.mode != "deny"
    ensures Codex(p).error == AuthDenyNeedsSandbox <==>
              && p.securityClass == "compatibility" && p.workspace != "none" && (p.workspace == "read" ==> p.mode == "deny")
              && p.auth == "deny" && !p.sandboxRequired
  {
    DriversMatchCompatibilityOnly(p);
    hide Missing;
    hide SandboxSettings;
    hide NetworkSettings;
    hide CredentialSettings;
  }

  /******* Cursor *******/

  /** Why Cursor refuses a policy: the first reason in this order. */
  lemma CursorRefusals(p: Policy)
    requires Valid(p) && Cursor(p).Failure?
    ensures Cursor(p).error.MissingCapabilities? <==> p.securityClass != "compatibility"
    ensures Cursor(p).error == NoWorkspace <==> p.securityClass == "compatibility" && p.workspace == "none"
    ensures Cursor(p).error == AuthDenyNeedsSandbox <==>
              p.securityClass == "compatibility" && p.workspace != "none" && p.auth == "deny" && !p.sandboxRequired
    ensures Cursor(p).error == SandboxedAllow <==>
              p.securityClass == "compatibility" && p.workspace != "none" && p.mode == "allow" && p.sandboxRequired
    ensures Cursor(p).error == RestrictedNetworkNeedsSandbox <==>
              && p.securityClass == "compatibility" && p.workspace != "none" && p.auth != "deny" && p.mode != "allow"
              && !p.sandboxRequired
  {
    DriversMatchCompatibilityOnly(p);
    hide Missing;
    hide SandboxDocument;
  }

  /** What a compiled policy runs with: no sandbox for an open network, else the sandbox and one generated document. */
  lemma CursorSandbox(p: Policy)
    requires Valid(p) && Cursor(p).Success?
    ensures var a := Cursor(p).value;
            if p.mode == "allow" then a == Artifacts(["--sandbox", "disabled"], [], Isolation(1000, 1000, false))
            else
              && a.argv == ["--sandbox", "enabled"] && a.isolation == Isolation(1000, 1000, true) && |a.files| == 1
              && a.files[0].name == "sandbox.json" && a.files[0].target == "/home/node/.cursor/sandbox.json"
              && IsSandbox(a.files[0].document, p.workspace == "read", p.destinations)
  {
    hide Missing;
    if p.mode != "allow" {
      DocumentIs(p);
    }
    hide SandboxDocument;
    hide IsSandbox;
  }

  /** A document of the given type that denies by default and denies the private ranges, and allows the
      destinations in their order. */
  predicate IsSandbox(d: Json, readonly: bool, destinations: seq<string>)
  {
    && d.Obj? && d.fields.Keys == {"type", "networkPolicy"}
    && d.fields["type"] == Str(if readonly then "workspace_readonly" else "workspace_readwrite")
    && d.fields["networkPolicy"].Obj? && d.fields["networkPolicy"].fields.Keys == {"default", "allow", "deny"}
    && d.fields["networkPolicy"].fields["default"] == Str("deny")
    && d.fields["networkPolicy"].fields["allow"] == Strings(destinations)
    && d.fields["networkPolicy"].fields["deny"] ==
         Arr([Str("127.0.0.0/8"), Str("10.0.0.0/8"), Str("172.16.0.0/12"), Str("192.168.0.0/16"), Str("169.254.0.0/16"),
              Str("::1/128"), Str("fc00::/7"), Str("fe80::/10")])
  }

  lemma DocumentIs(p: Policy)
    requires Valid(p) && p.mode != "allow"
    ensures IsSandbox(SandboxDocument(p), p.workspace == "read", p.destinations)
  {
    DeniedRanges();
    var d := SandboxDocument(p);
    assert d.fields.Keys == {"type", "networkPolicy"};
    assert d.fields["networkPolicy"].fields.Keys == {"default", "allow", "deny"};
    hide Strings;
  }

  lemma DeniedRanges()
    ensures Strings(PRIVATE_DENIES) ==
              Arr([Str("127.0.0.0/8"), Str("10.0.0.0/8"), Str("172.16.0.0/12"), Str("192.168.0.0/16"), Str("169.254.0.0/16"),
                   Str("::1/128"), Str("fc00::/7"), Str("fe80::/10")])
  {
  }

  /******* End to end *******/

  /** A baseline that gives no write access to the workspace is compiled by neither driver to settings that do. */
  lemma ReadBaselineStaysReadOnly(baseline: Policy, layers: seq<Option<Json>>)
    requires Valid(baseline) && baseline.workspace != "write" && Resolve(baseline, layers).Success?
    ensures var p := Resolve(baseline, layers).value;
            && Valid(p)
            && (Codex(p).Success? ==> |Codex(p).value.argv| >= 2 && Codex(p).value.argv[..2] == ["--sandbox", "read-only"])
            && (Cursor(p).Success? && p.mode != "allow" ==>
                  |Cursor(p).value.files| == 1 && IsSandbox(Cursor(p).value.files[0].document, true, p.destinations))
  {
    ResolvedFields(baseline, layers);
    hide Resolve;
    var p := Resolve(baseline, layers).value;
    if Codex(p).Success? {
      CodexCompilesIff(p);
      CodexSandbox(p);
      WorkspaceIsRead(p);
    }
    if Cursor(p).Success? {
      CursorCompilesIff(p);
      CursorSandbox(p);
      WorkspaceIsRead(p);
    }
    hide Codex;
    hide Cursor;
    hide IsSandbox;
    hide Valid;
  }

  lemma WorkspaceIsRead(p: Policy)
    requires Valid(p) && p.workspace != "none" && p.workspace != "write"
    ensures p.workspace == "read"
  {
  }
}
