/** Overlaying sparse restriction layers on a policy, and rejecting every layer that widens it. */
module PolicyResolver {
  import opened Wrappers
  import opened Text
  import opened Json
  import opened PolicySchema

  datatype PolicyError = NotAMapping | InvalidLayer | Escalation(leaf: Leaf)

  /******* The recursive overlay *******/

  function Child(path: string, key: string): string
  {
    if path == "" then key else path + "." + key
  }

  /** Leaving allowlist mode without giving destinations drops the inherited ones. */
  predicate Clears(layer: Json, path: string)
    requires layer.Obj?
  {
    && path == "network.task_shell"
    && "mode" in layer.fields && layer.fields["mode"] != Str("allowlist")
    && "destinations" !in layer.fields
  }

  /** One field of a layer over the field it replaces; None when it names an unknown field below. */
  function Overlay(b: Json, v: Json, path: string): Option<Json>
    decreases v, 1
  {
    if v.Obj? && b.Obj? then
      var m := Merge(b.fields, v, path);
      if m.None? then None else Some(Obj(m.value))
    else Some(v)
  }

  function Merge(base: map<string, Json>, layer: Json, path: string): Option<map<string, Json>>
    requires layer.Obj?
    decreases layer, 0
  {
    if !(layer.fields.Keys <= base.Keys) then None
    else if exists k :: k in layer.fields && Overlay(base[k], layer.fields[k], Child(path, k)).None? then None
    else
      var m := map k | k in base ::
        if k in layer.fields then Overlay(base[k], layer.fields[k], Child(path, k)).value else base[k];
      Some(if Clears(layer, path) then m["destinations" := Arr([])] else m)
  }

  /** The same overlay as the recursive loop over the fields of the layer that fills a copy of the base. */
  method MergeRestrictions(base: map<string, Json>, layer: Json, path: string) returns (r: Option<map<string, Json>>)
    requires layer.Obj?
    ensures r == Merge(base, layer, path)
    decreases layer
  {
    var result := base;
    var todo := layer.fields.Keys;
    while todo != {}
      invariant todo <= layer.fields.Keys && layer.fields.Keys - todo <= base.Keys
      invariant result.Keys == base.Keys
      invariant forall k :: k in layer.fields.Keys - todo ==>
                  Overlay(base[k], layer.fields[k], Child(path, k)) == Some(result[k])
      invariant forall k :: k in base && k !in layer.fields.Keys - todo ==> result[k] == base[k]
      decreases |todo|
    {
      var key :| key in todo;
      if key !in base {
        return None;
      }
      var value := layer.fields[key];
      if value.Obj? && base[key].Obj? {
        var nested := MergeRestrictions(base[key].fields, value, Child(path, key));
        if nested.None? {
          assert Overlay(base[key], layer.fields[key], Child(path, key)).None?;
          return None;
        }
        result := result[key := Obj(nested.value)];
      } else {
        result := result[key := value];
      }
      todo := todo - {key};
    }
    assert result == map k | k in base ::
      if k in layer.fields then Overlay(base[k], layer.fields[k], Child(path, k)).value else base[k];
    if path == "network.task_shell" && "mode" in layer.fields {
      if layer.fields["mode"] != Str("allowlist") && "destinations" !in layer.fields {
        result := result["destinations" := Arr([])];
      }
    }
    r := Some(result);
  }

  /******* The narrowing check *******/

  function Rank(order: seq<string>, s: string): nat
  {
    if order == [] || order[0] == s then 0 else 1 + Rank(order[1..], s)
  }

  const ACCESS_ORDER: seq<string> := ["none", "read", "write"]
  const REFERENCE_ORDER: seq<string> := ["none", "read"]
  const FILESYSTEM_ORDER: seq<string> := ["deny", "read", "write"]
  const NETWORK_ORDER: seq<string> := ["deny", "allowlist", "allow"]
  const VISIBILITY_ORDER: seq<string> := ["deny", "allow"]
  const SECURITY_ORDER: seq<string> := ["compatibility", "hardened"]

  /** The leaf of the first violated restriction, in the order in which they are checked. */
  function FirstWidening(upper: Policy, lower: Policy): Option<Leaf>
  {
    if lower.version != upper.version then Some(Version)
    else if Rank(ACCESS_ORDER, lower.workspace) > Rank(ACCESS_ORDER, upper.workspace) then Some(WorkspaceAccess)
    else if Rank(REFERENCE_ORDER, lower.reference) > Rank(REFERENCE_ORDER, upper.reference) then Some(ReferenceAccess)
    else if Rank(FILESYSTEM_ORDER, lower.external) > Rank(FILESYSTEM_ORDER, upper.external) then Some(External)
    else if Rank(NETWORK_ORDER, lower.mode) > Rank(NETWORK_ORDER, upper.mode) then Some(Mode)
    else if upper.mode == "allowlist" && lower.mode == "allowlist" && !(Elements(lower.destinations) <= Elements(upper.destinations))
      then Some(Destinations)
    else if Rank(VISIBILITY_ORDER, lower.auth) > Rank(VISIBILITY_ORDER, upper.auth)
      then Some(Auth)
    else if lower.gitRead && !upper.gitRead then Some(GitRead)
    else if lower.gitCommit && !upper.gitCommit then Some(GitCommit)
    else if lower.gitPush && !upper.gitPush then Some(GitPush)
    else if upper.sandboxRequired && !lower.sandboxRequired then Some(SandboxRequired)
    else if lower.cpu > upper.cpu then Some(Cpu)
    else if lower.memory > upper.memory then Some(Memory)
    else if lower.pids > upper.pids then Some(Pids)
    else if Rank(SECURITY_ORDER, lower.securityClass) < Rank(SECURITY_ORDER, upper.securityClass) then Some(SecurityClass)
    else None
  }

  /** lower grants nothing that upper does not. */
  ghost predicate NotWider(upper: Policy, lower: Policy)
  {
    FirstWidening(upper, lower).None?
  }

  lemma NotWiderReflexive(p: Policy)
    ensures NotWider(p, p)
  {
  }

  lemma NotWiderTransitive(a: Policy, b: Policy, c: Policy)
    requires Valid(a) && Valid(b) && Valid(c) && NotWider(a, b) && NotWider(b, c)
    ensures NotWider(a, c)
  {
    NetworkModes(a);
    NetworkModes(b);
    NetworkModes(c);
  }

  /** The three network modes have three different ranks. */
  lemma NetworkModes(p: Policy)
    requires Valid(p)
    ensures p.mode == "allowlist" <==> Rank(NETWORK_ORDER, p.mode) == 1
    ensures p.mode == "deny" <==> Rank(NETWORK_ORDER, p.mode) == 0
    ensures p.mode == "allow" <==> Rank(NETWORK_ORDER, p.mode) == 2
  {
  }

  lemma {:induction false} RankInjective(order: seq<string>, a: string, b: string)
    requires a in order && Rank(order, a) == Rank(order, b)
    ensures a == b
  {
    if order[0] != a {
      RankInjective(order[1..], a, b);
    }
  }

  lemma MutualNarrowing(a: Policy, b: Policy)
    requires NotWider(a, b) && NotWider(b, a)
    ensures a.version == b.version && a.gitRead == b.gitRead && a.gitCommit == b.gitCommit && a.gitPush == b.gitPush
    ensures a.sandboxRequired == b.sandboxRequired && a.cpu == b.cpu && a.memory == b.memory && a.pids == b.pids
    ensures Rank(ACCESS_ORDER, a.workspace) == Rank(ACCESS_ORDER, b.workspace)
    ensures Rank(REFERENCE_ORDER, a.reference) == Rank(REFERENCE_ORDER, b.reference)
    ensures Rank(FILESYSTEM_ORDER, a.external) == Rank(FILESYSTEM_ORDER, b.external)
    ensures Rank(NETWORK_ORDER, a.mode) == Rank(NETWORK_ORDER, b.mode)
    ensures Rank(VISIBILITY_ORDER, a.auth) == Rank(VISIBILITY_ORDER, b.auth)
    ensures Rank(SECURITY_ORDER, a.securityClass) == Rank(SECURITY_ORDER, b.securityClass)
    ensures a.mode == "allowlist" && b.mode == "allowlist" ==> Elements(a.destinations) == Elements(b.destinations)
  {
    hide Rank;
  }

  /** Two valid policies neither of which widens the other are the same policy. */
  lemma NotWiderAntisymmetric(a: Policy, b: Policy)
    requires Valid(a) && Valid(b) && NotWider(a, b) && NotWider(b, a)
    ensures a == b
  {
    MutualNarrowing(a, b);
    hide NotWider;
    hide Rank;
    RankInjective(ACCESS_ORDER, a.workspace, b.workspace);
    RankInjective(REFERENCE_ORDER, a.reference, b.reference);
    RankInjective(FILESYSTEM_ORDER, a.external, b.external);
    RankInjective(NETWORK_ORDER, a.mode, b.mode);
    RankInjective(VISIBILITY_ORDER, a.auth, b.auth);
    RankInjective(SECURITY_ORDER, a.securityClass, b.securityClass);
    if a.mode == "allowlist" {
      AscendingUnique(a.destinations, b.destinations);
    }
  }

  /******* Resolution *******/

  function Candidate(effective: Policy, layer: Json): Result<Policy, PolicyError>
    requires layer.Obj?
  {
    var m := Merge(AsDict(effective).fields, layer, "");
    if m.None? then Failure(InvalidLayer)
    else
      var p := FromDict(Obj(m.value));
      if p.None? then Failure(InvalidLayer) else Success(p.value)
  }

  /** One layer: overlay, normalise, check. */
  function ApplyLayer(effective: Policy, layer: Json): Result<Policy, PolicyError>
  {
    if !layer.Obj? then Failure(NotAMapping)
    else
      var c := Candidate(effective, layer);
      if c.Failure? then c
      else
        var widened := FirstWidening(effective, c.value);
        if widened.Some? then Failure(Escalation(widened.value)) else c
  }

  /** Layers in order; an absent layer changes nothing, and the first failure ends the resolution. */
  function Resolve(effective: Policy, layers: seq<Option<Json>>): Result<Policy, PolicyError>
    decreases |layers|
  {
    if layers == [] then Success(effective)
    else if layers[0].None? then Resolve(effective, layers[1..])
    else
      var next := ApplyLayer(effective, layers[0].value);
      if next.Failure? then next else Resolve(next.value, layers[1..])
  }

  /** The same as a loop that replaces the effective policy layer by layer. */
  method ResolveLayers(baseline: Policy, layers: seq<Option<Json>>) returns (r: Result<Policy, PolicyError>)
    ensures r == Resolve(baseline, layers)
  {
    hide FirstWidening;
    hide FromDict;
    hide TopDict;
    var effective := baseline;
    var i := 0;
    while i < |layers|
      invariant 0 <= i <= |layers|
      invariant Resolve(baseline, layers) == Resolve(effective, layers[i..])
    {
      assert layers[i..][0] == layers[i] && layers[i..][1..] == layers[i + 1..];
      if layers[i].Some? {
        var layer := layers[i].value;
        if !layer.Obj? {
          return Failure(NotAMapping);
        }
        var merged := MergeRestrictions(AsDict(effective).fields, layer, "");
        if merged.None? {
          return Failure(InvalidLayer);
        }
        var candidate := FromDict(Obj(merged.value));
        if candidate.None? {
          return Failure(InvalidLayer);
        }
        var widened := FirstWidening(effective, candidate.value);
        if widened.Some? {
          return Failure(Escalation(widened.value));
        }
        effective := candidate.value;
      }
      i := i + 1;
    }
    r := Success(effective);
  }

  lemma CandidateValid(effective: Policy, layer: Json)
    requires layer.Obj? && Candidate(effective, layer).Success?
    ensures Valid(Candidate(effective, layer).value)
  {
    var m := Merge(AsDict(effective).fields, layer, "");
    FromDictValid(Obj(m.value));
  }

  /** An accepted resolution is valid and no wider than the baseline; with any prefix of the layers
      as the first part, no wider than the policy that prefix resolves to. */
  lemma {:induction false} ResolutionNarrows(baseline: Policy, layers: seq<Option<Json>>)
    requires Valid(baseline) && Resolve(baseline, layers).Success?
    ensures Valid(Resolve(baseline, layers).value) && NotWider(baseline, Resolve(baseline, layers).value)
    decreases |layers|
  {
    if layers == [] {
      NotWiderReflexive(baseline);
    } else if layers[0].None? {
      ResolutionNarrows(baseline, layers[1..]);
    } else {
      var next := ApplyLayer(baseline, layers[0].value).value;
      CandidateValid(baseline, layers[0].value);
      ResolutionNarrows(next, layers[1..]);
      NotWiderTransitive(baseline, next, Resolve(next, layers[1..]).value);
    }
  }

  lemma {:induction false} ResolveSplits(baseline: Policy, first: seq<Option<Json>>, rest: seq<Option<Json>>)
    ensures Resolve(baseline, first + rest) ==
              if Resolve(baseline, first).Failure? then Resolve(baseline, first)
              else Resolve(Resolve(baseline, first).value, rest)
    decreases |first|
  {
    if first == [] {
      assert first + rest == rest;
    } else {
      assert (first + rest)[0] == first[0] && (first + rest)[1..] == first[1..] + rest;
      if first[0].None? {
        ResolveSplits(baseline, first[1..], rest);
      } else if ApplyLayer(baseline, first[0].value).Success? {
        ResolveSplits(ApplyLayer(baseline, first[0].value).value, first[1..], rest);
      }
    }
  }

  /** Every intermediate policy bounds the result. */
  lemma ResolutionBelowIntermediate(baseline: Policy, first: seq<Option<Json>>, rest: seq<Option<Json>>)
    requires Valid(baseline) && Resolve(baseline, first + rest).Success?
    ensures Resolve(baseline, first).Success?
    ensures NotWider(Resolve(baseline, first).value, Resolve(baseline, first + rest).value)
    ensures NotWider(baseline, Resolve(baseline, first).value)
  {
    ResolveSplits(baseline, first, rest);
    ResolutionNarrows(baseline, first);
    ResolutionNarrows(Resolve(baseline, first).value, rest);
  }
}
