/** What an accepted resolution holds, leaf by leaf, without mentioning the recursive overlay. */
module PolicyExactness {
  import opened Wrappers
  import opened Text
  import opened Json
  import opened PolicySchema
  import opened PolicyResolver

  /** The value of a policy at a leaf, in normal form. */
  function At(p: Policy, leaf: Leaf): Json
  {
    match leaf
    case Version => Int(p.version)
    case WorkspaceAccess => Str(p.workspace)
    case ReferenceAccess => Str(p.reference)
    case External => Str(p.external)
    case Mode => Str(p.mode)
    case Destinations => Strings(p.destinations)
    case Auth => Str(p.auth)
    case GitRead => Json.Bool(p.gitRead)
    case GitCommit => Json.Bool(p.gitCommit)
    case GitPush => Json.Bool(p.gitPush)
    case SandboxRequired => Json.Bool(p.sandboxRequired)
    case Cpu => CpuJson(p.cpu)
    case Memory => Int(p.memory)
    case Pids => Int(p.pids)
    case SecurityClass => Str(p.securityClass)
  }

  function ChoiceNorm(v: Json, allowed: set<string>): Option<Json>
  {
    if v.Str? && v.s in allowed then Some(v) else None
  }

  function BoolNorm(v: Json): Option<Json>
  {
    if v.Bool? then Some(v) else None
  }

  /** The normal form of a raw value at a leaf; None when the value is not allowed there. */
  function Norm(leaf: Leaf, v: Json): Option<Json>
  {
    match leaf
    case Version => if v == Int(1) then Some(v) else None
    case WorkspaceAccess => ChoiceNorm(v, WORKSPACE_ACCESS)
    case ReferenceAccess => ChoiceNorm(v, REFERENCE_ACCESS)
    case External => ChoiceNorm(v, EXTERNAL_ACCESS)
    case Mode => ChoiceNorm(v, NETWORK_MODES)
    case Destinations => if NormalizeDestinations(v).Some? then Some(Strings(NormalizeDestinations(v).value)) else None
    case Auth => ChoiceNorm(v, VISIBILITY)
    case GitRead => BoolNorm(v)
    case GitCommit => BoolNorm(v)
    case GitPush => BoolNorm(v)
    case SandboxRequired => BoolNorm(v)
    case Cpu => if NormalizeCpu(v).Some? then Some(CpuJson(NormalizeCpu(v).value)) else None
    case Memory => if NormalizeMemory(v).Some? then Some(Int(NormalizeMemory(v).value)) else None
    case Pids => if PositiveInt(v).Some? then Some(v) else None
    case SecurityClass => ChoiceNorm(v, SECURITY_CLASSES)
  }

  /******* Paths *******/

  function Lookup(v: Json, path: seq<string>): Option<Json>
    decreases |path|
  {
    if path == [] then Some(v)
    else if v.Obj? && path[0] in v.fields then Lookup(v.fields[path[0]], path[1..])
    else None
  }

  predicate HasKey(v: Json, key: string)
  {
    v.Obj? && key in v.fields
  }

  lemma Lookup1(v: Json, a: string)
    ensures Lookup(v, [a]) == if HasKey(v, a) then Some(v.fields[a]) else None
  {
    assert [a][1..] == [];
  }

  lemma Lookup2(v: Json, a: string, b: string)
    ensures Lookup(v, [a, b]) == if HasKey(v, a) && HasKey(v.fields[a], b) then Some(v.fields[a].fields[b]) else None
  {
    assert [a, b][1..] == [b];
    if HasKey(v, a) {
      Lookup1(v.fields[a], b);
    }
  }

  lemma Lookup3(v: Json, a: string, b: string, c: string)
    ensures Lookup(v, [a, b, c]) ==
              if HasKey(v, a) && HasKey(v.fields[a], b) && HasKey(v.fields[a].fields[b], c)
              then Some(v.fields[a].fields[b].fields[c]) else None
  {
    assert [a, b, c][1..] == [b, c];
    if HasKey(v, a) {
      Lookup2(v.fields[a], b, c);
    }
  }

  /** A leaf path, unfolded. */
  lemma LeafLookup(v: Json, leaf: Leaf)
    ensures Lookup(v, PathOf(leaf)) ==
              var p := PathOf(leaf);
              if |p| == 1 then (if HasKey(v, p[0]) then Some(v.fields[p[0]]) else None)
              else if |p| == 2 then
                (if HasKey(v, p[0]) && HasKey(v.fields[p[0]], p[1]) then Some(v.fields[p[0]].fields[p[1]]) else None)
              else
                (if HasKey(v, p[0]) && HasKey(v.fields[p[0]], p[1]) && HasKey(v.fields[p[0]].fields[p[1]], p[2])
                 then Some(v.fields[p[0]].fields[p[1]].fields[p[2]]) else None)
  {
    var p := PathOf(leaf);
    if |p| == 1 {
      assert p == [p[0]];
      Lookup1(v, p[0]);
    } else if |p| == 2 {
      assert p == [p[0], p[1]];
      Lookup2(v, p[0], p[1]);
    } else {
      assert p == [p[0], p[1], p[2]];
      Lookup3(v, p[0], p[1], p[2]);
    }
  }

  /******* Documents by leaves *******/

  /** The objects of a document are where they belong and have the fields they must have. */
  predicate Shape(v: Json)
  {
    && HasFields(v, TopFields(), {}) && TopKeysIn(v.fields)
    && HasFields(v.fields["workspace"], {"access"}, {})
    && HasFields(v.fields["reference"], {"access"}, {})
    && HasFields(v.fields["filesystem"], {"external"}, {})
    && HasFields(v.fields["network"], {"task_shell"}, {})
    && HasFields(v.fields["network"].fields["task_shell"], {"mode"}, {"destinations"})
    && HasFields(v.fields["credentials"], {"provider_auth"}, {})
    && HasFields(v.fields["credentials"].fields["provider_auth"], {"task_shell"}, {})
    && HasFields(v.fields["git"], {"read", "commit", "push"}, {})
    && HasFields(v.fields["sandbox"], {"required"}, {})
    && HasFields(v.fields["resources"], {"cpu", "memory", "pids"}, {})
  }

  lemma AcceptedShape(v: Json)
    requires FromDict(v).Some?
    ensures Shape(v)
  {
  }

  /** Each leaf of an accepted document is in normal form what the policy holds there. */
  lemma AcceptedLeaf(v: Json, leaf: Leaf)
    requires FromDict(v).Some? && leaf != Destinations
    ensures Lookup(v, PathOf(leaf)).Some?
    ensures Norm(leaf, Lookup(v, PathOf(leaf)).value) == Some(At(FromDict(v).value, leaf))
  {
    AcceptedSections(v);
    LeafLookup(v, leaf);
    hide FromDict;
    hide Lookup;
    hide NormalizeDestinations;
    hide TopFields;
  }

  lemma AsDictLeaf(p: Policy, leaf: Leaf)
    ensures Lookup(AsDict(p), PathOf(leaf)) == Some(At(p, leaf))
  {
    hide TopDict;
    TopLookup(Int(p.version), Obj(map["access" := Str(p.workspace)]), Obj(map["access" := Str(p.reference)]),
              Obj(map["external" := Str(p.external)]), NetworkDict(p), CredentialsDict(p), GitDict(p),
              Obj(map["required" := Json.Bool(p.sandboxRequired)]), ResourcesDict(p), Str(p.securityClass));
    hide TopFields;
    LeafLookup(AsDict(p), leaf);
  }

  /** A normal form is its own normal form. */
  lemma NormOfNormal(p: Policy, leaf: Leaf)
    requires Valid(p)
    ensures Norm(leaf, At(p, leaf)) == Some(At(p, leaf))
  {
    match leaf
    case Destinations => StringsNormalize(p.destinations);
    case Cpu => CpuRoundTrip(p.cpu);
    case _ =>
  }

  /******* The overlay by paths *******/

  /** One step into an overlaid object. */
  lemma OverlayStep(b: Json, v: Json, path: string, k: string)
    requires v.Obj? && b.Obj? && Overlay(b, v, path).Some? && k in b.fields && !(Clears(v, path) && k == "destinations")
    ensures var r := Overlay(b, v, path).value;
            && HasKey(r, k)
            && if k in v.fields
               then Overlay(b.fields[k], v.fields[k], Child(path, k)) == Some(r.fields[k])
               else r.fields[k] == b.fields[k]
  {
  }

  /** Below the overlay, a value that is not an object is the layer's if the layer reaches it, else the base's. */
  lemma {:induction false} OverlayLookup(b: Json, v: Json, path: string, l: seq<string>)
    requires Overlay(b, v, path).Some? && l != [] && l[|l| - 1] != "destinations"
    requires var r := Lookup(Overlay(b, v, path).value, l); r.Some? && !r.value.Obj?
    ensures Lookup(Overlay(b, v, path).value, l) == if Lookup(v, l).Some? then Lookup(v, l) else Lookup(b, l)
    decreases |l|
  {
    if v.Obj? && b.Obj? {
      var k, rest := l[0], l[1..];
      if k in b.fields && !(Clears(v, path) && k == "destinations") {
        OverlayStep(b, v, path, k);
        if k in v.fields && rest != [] {
          OverlayLookup(b.fields[k], v.fields[k], Child(path, k), rest);
        }
      }
    }
  }

  predicate Mentions(layer: Json, leaf: Leaf)
  {
    Lookup(layer, PathOf(leaf)).Some?
  }

  /** The layer sets a mode other than allowlist and gives no destinations. */
  predicate DropsDestinations(layer: Json)
  {
    && Mentions(layer, Mode) && Lookup(layer, PathOf(Mode)).value != Str("allowlist")
    && !Mentions(layer, Destinations)
  }

  function Merged(p: Policy, layer: Json): Json
    requires layer.Obj? && Overlay(AsDict(p), layer, "").Some?
  {
    Overlay(AsDict(p), layer, "").value
  }

  lemma ShellDestinations(b: Json, v: Json, r: Json)
    requires b.Obj? && HasKey(b, "destinations") && !b.fields["destinations"].Obj?
    requires Overlay(b, v, "network.task_shell") == Some(r) && r.Obj?
    ensures v.Obj? && HasKey(r, "destinations")
    ensures r.fields["destinations"] ==
              if HasKey(v, "destinations") then v.fields["destinations"]
              else if Clears(v, "network.task_shell") then Arr([])
              else b.fields["destinations"]
  {
    if !Clears(v, "network.task_shell") {
      OverlayStep(b, v, "network.task_shell", "destinations");
    }
  }

  lemma ShellPath()
    ensures Child("network", "task_shell") == "network.task_shell"
  {
  }

  lemma NetworkDestinations(b: Json, v: Json, r: Json)
    requires b.Obj? && HasKey(b, "task_shell") && HasKey(b.fields["task_shell"], "destinations")
    requires !b.fields["task_shell"].fields["destinations"].Obj?
    requires Overlay(b, v, "network") == Some(r) && r.Obj? && HasKey(r, "task_shell") && r.fields["task_shell"].Obj?
    ensures HasKey(r.fields["task_shell"], "destinations")
    ensures r.fields["task_shell"].fields["destinations"] ==
              if HasKey(v, "task_shell") && HasKey(v.fields["task_shell"], "destinations")
              then v.fields["task_shell"].fields["destinations"]
              else if HasKey(v, "task_shell") && v.fields["task_shell"].Obj? && Clears(v.fields["task_shell"], "network.task_shell")
              then Arr([])
              else b.fields["task_shell"].fields["destinations"]
  {
    OverlayStep(b, v, "network", "task_shell");
    hide Overlay;
    if "task_shell" in v.fields {
      assert Child("network", "task_shell") == "network.task_shell" by { ShellPath(); }
      hide Clears;
      ShellDestinations(b.fields["task_shell"], v.fields["task_shell"], r.fields["task_shell"]);
    }
  }

  /** The destinations of the overlaid document. */
  lemma MergedDestinations(p: Policy, layer: Json)
    requires layer.Obj? && Overlay(AsDict(p), layer, "").Some? && Shape(Merged(p, layer))
    ensures Lookup(Merged(p, layer), PathOf(Destinations)) ==
              if Mentions(layer, Destinations) then Lookup(layer, PathOf(Destinations))
              else if DropsDestinations(layer) then Some(Arr([]))
              else Some(Strings(p.destinations))
  {
    var b, r := AsDict(p), Merged(p, layer);
    AsDictDestinations(p);
    ShapeMode(r);
    ShellPaths(r);
    ShellPaths(layer);
    hide Shape;
    hide At;
    hide AsDict;
    hide Overlay;
    hide Lookup;
    hide ShellField;
    hide PathOf;
    hide Strings;
    TopDestinations(b, layer, r);
  }

  lemma ShapeMode(v: Json)
    requires Shape(v)
    ensures ShellField(v, "mode").Some?
  {
  }

  lemma AsDictDestinations(p: Policy)
    ensures ShellField(AsDict(p), "destinations") == Some(Strings(p.destinations)) && Strings(p.destinations).Arr?
  {
    AsDictLeaf(p, Destinations);
    ShellPaths(AsDict(p));
    hide AsDict;
    hide Lookup;
    hide ShellField;
  }

  lemma ShellPaths(v: Json)
    ensures Lookup(v, PathOf(Destinations)) == ShellField(v, "destinations")
    ensures Lookup(v, PathOf(Mode)) == ShellField(v, "mode")
  {
    LeafLookup(v, Destinations);
    LeafLookup(v, Mode);
  }

  /** A field of the task-shell section. */
  function ShellField(v: Json, key: string): Option<Json>
  {
    if HasKey(v, "network") && HasKey(v.fields["network"], "task_shell") && HasKey(v.fields["network"].fields["task_shell"], key)
    then Some(v.fields["network"].fields["task_shell"].fields[key])
    else None
  }

  lemma TopDestinations(b: Json, layer: Json, r: Json)
    requires layer.Obj? && Overlay(b, layer, "") == Some(r)
    requires ShellField(b, "destinations").Some? && !ShellField(b, "destinations").value.Obj?
    requires ShellField(r, "mode").Some?
    ensures ShellField(r, "destinations") ==
              if ShellField(layer, "destinations").Some? then ShellField(layer, "destinations")
              else if ShellField(layer, "mode").Some? && ShellField(layer, "mode").value != Str("allowlist") then Some(Arr([]))
              else ShellField(b, "destinations")
  {
    OverlayStep(b, layer, "", "network");
    assert Child("", "network") == "network";
    hide Overlay;
    if "network" in layer.fields {
      NetworkDestinations(b.fields["network"], layer.fields["network"], r.fields["network"]);
    }
  }

  /******* Exactness of one layer *******/

  lemma CandidateIsMerged(p: Policy, layer: Json)
    requires layer.Obj? && Candidate(p, layer).Success?
    ensures Overlay(AsDict(p), layer, "").Some? && FromDict(Merged(p, layer)) == Some(Candidate(p, layer).value)
  {
  }

  /** A leaf that is not a destination list is the normal form of what the layer gives, else unchanged. */
  lemma LayerLeaf(p: Policy, layer: Json, leaf: Leaf)
    requires Valid(p) && layer.Obj? && Candidate(p, layer).Success? && leaf != Destinations
    ensures var q := Candidate(p, layer).value;
            if Mentions(layer, leaf) then Norm(leaf, Lookup(layer, PathOf(leaf)).value) == Some(At(q, leaf))
            else At(q, leaf) == At(p, leaf)
  {
    hide Norm;
    hide At;
    hide Lookup;
    hide Valid;
    hide Overlay;
    hide AsDict;
    hide FromDict;
    hide Candidate;
    hide PathOf;
    hide Merge;
    hide Shape;
    CandidateIsMerged(p, layer);
    var r := Merged(p, layer);
    AcceptedLeaf(r, leaf);
    AsDictLeaf(p, leaf);
    NormOfNormal(p, leaf);
    LeafPaths(leaf);
    NormNotObject(leaf, Lookup(r, PathOf(leaf)).value);
    OverlayLookup(AsDict(p), layer, "", PathOf(leaf));
  }

  lemma LeafPaths(leaf: Leaf)
    ensures PathOf(leaf) != []
    ensures leaf != Destinations ==> PathOf(leaf)[|PathOf(leaf)| - 1] != "destinations"
  {
  }

  lemma NormNotObject(leaf: Leaf, v: Json)
    requires Norm(leaf, v).Some?
    ensures !v.Obj?
  {
  }

  /** Destinations: what the layer gives, else nothing when it leaves allowlist mode, else unchanged. */
  lemma LayerDestinations(p: Policy, layer: Json)
    requires Valid(p) && layer.Obj? && Candidate(p, layer).Success?
    ensures var q := Candidate(p, layer).value;
            if Mentions(layer, Destinations)
            then NormalizeDestinations(Lookup(layer, PathOf(Destinations)).value) == Some(q.destinations)
            else q.destinations == if DropsDestinations(layer) then [] else p.destinations
  {
    var r := Merged(p, layer);
    CandidateIsMerged(p, layer);
    AcceptedShape(r);
    MergedDestinations(p, layer);
    AcceptedList(r);
    StringsNormalize(p.destinations);
    NothingNormalizes();
    hide AsDict;
    hide FromDict;
    hide Candidate;
    hide PathOf;
    hide Lookup;
    hide Overlay;
    hide NormalizeDestinations;
    hide Shape;
    hide Valid;
    hide At;
    hide Strings;
    hide Merged;
  }

  lemma NothingNormalizes()
    ensures NormalizeDestinations(Arr([])) == Some([])
  {
    StringsNormalize([]);
    assert Strings([]) == Arr([]);
  }

  lemma AcceptedList(v: Json)
    requires FromDict(v).Some?
    ensures var d := Lookup(v, PathOf(Destinations));
            if d.Some? then NormalizeDestinations(d.value) == Some(FromDict(v).value.destinations)
            else FromDict(v).value.destinations == []
  {
    AcceptedShape(v);
    ShellPaths(v);
    AcceptedSections(v);
    hide Lookup;
    hide FromDict;
    hide NormalizeDestinations;
  }

  /******* Exactness of a stack of layers *******/

  /** What the last layer that mentions the leaf gives there. */
  function LastMention(layers: seq<Option<Json>>, leaf: Leaf): Option<Json>
  {
    if layers == [] then None
    else
      var later := LastMention(layers[1..], leaf);
      if later.Some? then later
      else if layers[0].Some? then Lookup(layers[0].value, PathOf(leaf))
      else None
  }

  lemma {:induction false} ResolutionIsExact(baseline: Policy, layers: seq<Option<Json>>, leaf: Leaf)
    requires Valid(baseline) && Resolve(baseline, layers).Success? && leaf != Destinations
    ensures var q, last := Resolve(baseline, layers).value, LastMention(layers, leaf);
            if last.Some? then Norm(leaf, last.value) == Some(At(q, leaf)) else At(q, leaf) == At(baseline, leaf)
    decreases |layers|
  {
    hide Norm;
    hide At;
    hide Lookup;
    if layers != [] {
      if layers[0].None? {
        ResolutionIsExact(baseline, layers[1..], leaf);
      } else {
        var layer := layers[0].value;
        LayerLeaf(baseline, layer, leaf);
        CandidateValid(baseline, layer);
        ResolutionIsExact(ApplyLayer(baseline, layer).value, layers[1..], leaf);
      }
    }
  }

  /** The destinations of the result: those last given if the result is an allowlist, else none. */
  lemma {:induction false} DestinationsAreExact(baseline: Policy, layers: seq<Option<Json>>)
    requires Valid(baseline) && Resolve(baseline, layers).Success?
    ensures var q, last := Resolve(baseline, layers).value, LastMention(layers, Destinations);
            if q.mode != "allowlist" then q.destinations == []
            else if last.Some? then NormalizeDestinations(last.value) == Some(q.destinations)
            else q.destinations == baseline.destinations
    decreases |layers|
  {
    hide NormalizeDestinations;
    hide Lookup;
    hide PathOf;
    ResolutionNarrows(baseline, layers);
    if layers != [] {
      if layers[0].None? {
        DestinationsAreExact(baseline, layers[1..]);
      } else {
        var layer := layers[0].value;
        LayerDestinations(baseline, layer);
        CandidateValid(baseline, layer);
        DestinationsAreExact(ApplyLayer(baseline, layer).value, layers[1..]);
      }
    }
  }

  /******* Applying an accepted layer again *******/

  /** The same objects with the same keys; other values may differ. */
  predicate Sim(a: Json, b: Json)
  {
    a.Obj? == b.Obj? &&
    (a.Obj? ==> a.fields.Keys == b.fields.Keys && forall k :: k in a.fields ==> Sim(a.fields[k], b.fields[k]))
  }

  /** The outcome of an overlay depends on the base only through its objects and keys. */
  lemma {:induction false} OverlaySim(a: Json, b: Json, v: Json, path: string)
    requires Sim(a, b) && Overlay(a, v, path).Some?
    ensures Overlay(b, v, path).Some? && Sim(Overlay(a, v, path).value, Overlay(b, v, path).value)
    decreases v
  {
    if v.Obj? && a.Obj? {
      forall k | k in v.fields
        ensures Overlay(b.fields[k], v.fields[k], Child(path, k)).Some?
        ensures Sim(Overlay(a.fields[k], v.fields[k], Child(path, k)).value, Overlay(b.fields[k], v.fields[k], Child(path, k)).value)
      {
        OverlaySim(a.fields[k], b.fields[k], v.fields[k], Child(path, k));
      }
    } else {
      SimReflexive(v);
    }
  }

  lemma {:induction false} SimReflexive(v: Json)
    ensures Sim(v, v)
  {
    if v.Obj? {
      forall k | k in v.fields
        ensures Sim(v.fields[k], v.fields[k])
      {
        SimReflexive(v.fields[k]);
      }
    }
  }

  lemma {:induction false} LookupSim(a: Json, b: Json, l: seq<string>)
    requires Sim(a, b)
    ensures Lookup(a, l).Some? == Lookup(b, l).Some?
    ensures Lookup(a, l).Some? ==> Sim(Lookup(a, l).value, Lookup(b, l).value)
    decreases |l|
  {
    if l != [] && a.Obj? && l[0] in a.fields {
      LookupSim(a.fields[l[0]], b.fields[l[0]], l[1..]);
    }
  }

  lemma SimField(a: Json, b: Json, k: string)
    requires Sim(a, b) && HasKey(a, k)
    ensures HasKey(b, k) && a.fields.Keys == b.fields.Keys && Sim(a.fields[k], b.fields[k])
  {
  }

  lemma SimHasFields(a: Json, b: Json, required: set<string>, optional: set<string>)
    requires Sim(a, b) && HasFields(a, required, optional)
    ensures HasFields(b, required, optional)
  {
  }

  lemma ShapeSim(a: Json, b: Json)
    requires Shape(a) && Sim(a, b)
    ensures Shape(b)
  {
    SameKeys(a, b);
    hide Sim;
    hide TopFields;
    var m, n := a.fields, b.fields;
    SimHasFields(a, b, TopFields(), {});
    SectionSim(a, b, "workspace", {"access"}, {});
    SectionSim(a, b, "reference", {"access"}, {});
    SectionSim(a, b, "filesystem", {"external"}, {});
    SectionSim(a, b, "network", {"task_shell"}, {});
    SectionSim(m["network"], n["network"], "task_shell", {"mode"}, {"destinations"});
    SectionSim(a, b, "credentials", {"provider_auth"}, {});
    SectionSim(m["credentials"], n["credentials"], "provider_auth", {"task_shell"}, {});
    SectionSim(a, b, "git", {"read", "commit", "push"}, {});
    SectionSim(a, b, "sandbox", {"required"}, {});
    SectionSim(a, b, "resources", {"cpu", "memory", "pids"}, {});
    hide HasFields;
  }

  lemma SectionSim(a: Json, b: Json, k: string, required: set<string>, optional: set<string>)
    requires Sim(a, b) && HasKey(a, k) && HasFields(a.fields[k], required, optional)
    ensures HasKey(b, k) && Sim(a.fields[k], b.fields[k]) && HasFields(b.fields[k], required, optional)
  {
    SimField(a, b, k);
    SimHasFields(a.fields[k], b.fields[k], required, optional);
  }

  lemma SameKeys(a: Json, b: Json)
    requires Shape(a) && Sim(a, b)
    ensures b.Obj? && a.fields.Keys == b.fields.Keys && TopKeysIn(b.fields)
  {
  }

  /** Objects of plain values are similar when their keys are the same. */
  lemma SimFlat(m: map<string, Json>, n: map<string, Json>)
    requires m.Keys == n.Keys && forall k :: k in m ==> !m[k].Obj? && !n[k].Obj?
    ensures Sim(Obj(m), Obj(n))
  {
  }

  lemma SimOne(k: string, x: Json, y: Json)
    requires !x.Obj? && !y.Obj?
    ensures Sim(Obj(map[k := x]), Obj(map[k := y]))
  {
    SimFlat(map[k := x], map[k := y]);
  }

  lemma SectionsSim(p: Policy, q: Policy)
    ensures Sim(Obj(map["access" := Str(p.workspace)]), Obj(map["access" := Str(q.workspace)]))
    ensures Sim(Obj(map["access" := Str(p.reference)]), Obj(map["access" := Str(q.reference)]))
    ensures Sim(Obj(map["external" := Str(p.external)]), Obj(map["external" := Str(q.external)]))
    ensures Sim(Obj(map["required" := Json.Bool(p.sandboxRequired)]), Obj(map["required" := Json.Bool(q.sandboxRequired)]))
  {
    hide Sim;
    SimOne("access", Str(p.workspace), Str(q.workspace));
    SimOne("access", Str(p.reference), Str(q.reference));
    SimOne("external", Str(p.external), Str(q.external));
    SimOne("required", Json.Bool(p.sandboxRequired), Json.Bool(q.sandboxRequired));
  }

  lemma FlatSectionsSim(p: Policy, q: Policy)
    ensures Sim(GitDict(p), GitDict(q)) && Sim(ResourcesDict(p), ResourcesDict(q))
  {
    hide Sim;
    SimFlat(GitDict(p).fields, GitDict(q).fields);
    SimFlat(ResourcesDict(p).fields, ResourcesDict(q).fields);
  }

  lemma NetworkSim(p: Policy, q: Policy)
    ensures Sim(NetworkDict(p), NetworkDict(q)) && Sim(CredentialsDict(p), CredentialsDict(q))
  {
    assert Sim(NetworkDict(p).fields["task_shell"], NetworkDict(q).fields["task_shell"]);
    assert Sim(CredentialsDict(p).fields["provider_auth"], CredentialsDict(q).fields["provider_auth"]);
  }

  lemma TopSim(m: map<string, Json>, n: map<string, Json>)
    requires m.Keys == n.Keys == TopFields() && TopKeysIn(m) && TopKeysIn(n)
    requires Sim(m["version"], n["version"]) && Sim(m["workspace"], n["workspace"]) && Sim(m["reference"], n["reference"])
    requires Sim(m["filesystem"], n["filesystem"]) && Sim(m["network"], n["network"]) && Sim(m["credentials"], n["credentials"])
    requires Sim(m["git"], n["git"]) && Sim(m["sandbox"], n["sandbox"]) && Sim(m["resources"], n["resources"])
    requires Sim(m["security_class"], n["security_class"])
    ensures Sim(Obj(m), Obj(n))
  {
    forall k | k in m
      ensures Sim(m[k], n[k])
    {
      assert k in TopFields();
    }
  }

  lemma AsDictSim(p: Policy, q: Policy)
    ensures Sim(AsDict(p), AsDict(q))
  {
    TopLookup(Int(p.version), Obj(map["access" := Str(p.workspace)]), Obj(map["access" := Str(p.reference)]),
              Obj(map["external" := Str(p.external)]), NetworkDict(p), CredentialsDict(p), GitDict(p),
              Obj(map["required" := Json.Bool(p.sandboxRequired)]), ResourcesDict(p), Str(p.securityClass));
    TopLookup(Int(q.version), Obj(map["access" := Str(q.workspace)]), Obj(map["access" := Str(q.reference)]),
              Obj(map["external" := Str(q.external)]), NetworkDict(q), CredentialsDict(q), GitDict(q),
              Obj(map["required" := Json.Bool(q.sandboxRequired)]), ResourcesDict(q), Str(q.securityClass));
    SectionsSim(p, q);
    FlatSectionsSim(p, q);
    NetworkSim(p, q);
    hide TopDict;
    hide TopFields;
    hide NetworkDict;
    hide CredentialsDict;
    hide GitDict;
    hide ResourcesDict;
    TopSim(AsDict(p).fields, AsDict(q).fields);
  }

  ghost predicate LeafIs(v: Json, leaf: Leaf, p: Policy)
  {
    Lookup(v, PathOf(leaf)).Some? && Norm(leaf, Lookup(v, PathOf(leaf)).value) == Some(At(p, leaf))
  }

  /** A document of the right shape whose leaves normalise to those of a valid policy is accepted as it. */
  lemma FromLeaves(v: Json, p: Policy)
    requires Shape(v) && Valid(p) && forall leaf :: LeafIs(v, leaf, p)
    ensures FromDict(v) == Some(p)
  {
    var d := v.fields;
    LeafValue(v, Version, p);
    LeafValue(v, SecurityClass, p);
    ChoicesFromLeaves(v, p);
    NetworkFromLeaves(v, p);
    GitFromLeaves(v, p);
    ResourcesFromLeaves(v, p);
    hide FromDict;
    hide LeafIs;
    FromSections(v, p);
  }

  /** A leaf by its fields rather than by its path. */
  lemma LeafValue(v: Json, leaf: Leaf, p: Policy)
    requires Shape(v) && LeafIs(v, leaf, p)
    ensures match leaf
            case Version => v.fields["version"] == Int(1) && p.version == 1
            case WorkspaceAccess => ChoiceField(v.fields["workspace"], "access", WORKSPACE_ACCESS) == Some(p.workspace)
            case ReferenceAccess => ChoiceField(v.fields["reference"], "access", REFERENCE_ACCESS) == Some(p.reference)
            case External => ChoiceField(v.fields["filesystem"], "external", EXTERNAL_ACCESS) == Some(p.external)
            case Mode => v.fields["network"].fields["task_shell"].fields["mode"] == Str(p.mode) && p.mode in NETWORK_MODES
            case Destinations =>
              var shell := v.fields["network"].fields["task_shell"];
              "destinations" in shell.fields && NormalizeDestinations(shell.fields["destinations"]).Some?
              && Strings(NormalizeDestinations(shell.fields["destinations"]).value) == Strings(p.destinations)
            case Auth => AuthField(v.fields["credentials"]) == Some(p.auth)
            case GitRead => BoolField(v.fields["git"].fields, "read") == Some(p.gitRead)
            case GitCommit => BoolField(v.fields["git"].fields, "commit") == Some(p.gitCommit)
            case GitPush => BoolField(v.fields["git"].fields, "push") == Some(p.gitPush)
            case SandboxRequired => SandboxField(v.fields["sandbox"]) == Some(p.sandboxRequired)
            case Cpu =>
              var c := NormalizeCpu(v.fields["resources"].fields["cpu"]);
              c.Some? && CpuJson(c.value) == CpuJson(p.cpu)
            case Memory => NormalizeMemory(v.fields["resources"].fields["memory"]) == Some(p.memory)
            case Pids => PositiveInt(v.fields["resources"].fields["pids"]) == Some(p.pids)
            case SecurityClass => v.fields["security_class"] == Str(p.securityClass) && p.securityClass in SECURITY_CLASSES
  {
    LeafLookup(v, leaf);
    hide Lookup;
    hide NormalizeDestinations;
    hide NormalizeMemory;
  }

  lemma ChoicesFromLeaves(v: Json, p: Policy)
    requires Shape(v) && forall leaf :: LeafIs(v, leaf, p)
    ensures ChoiceField(v.fields["workspace"], "access", WORKSPACE_ACCESS) == Some(p.workspace)
    ensures ChoiceField(v.fields["reference"], "access", REFERENCE_ACCESS) == Some(p.reference)
    ensures ChoiceField(v.fields["filesystem"], "external", EXTERNAL_ACCESS) == Some(p.external)
    ensures AuthField(v.fields["credentials"]) == Some(p.auth)
    ensures SandboxField(v.fields["sandbox"]) == Some(p.sandboxRequired)
  {
    hide LeafIs;
    LeafValue(v, WorkspaceAccess, p);
    LeafValue(v, ReferenceAccess, p);
    LeafValue(v, External, p);
    LeafValue(v, Auth, p);
    LeafValue(v, SandboxRequired, p);
    hide ChoiceField;
    hide AuthField;
    hide SandboxField;
  }

  lemma StringsInjective(s: seq<string>, t: seq<string>)
    requires Strings(s) == Strings(t)
    ensures s == t
  {
    var a, b := Strings(s), Strings(t);
    forall i | 0 <= i < |s|
      ensures s[i] == t[i]
    {
      assert a.items[i] == b.items[i];
    }
  }

  lemma NetworkFromLeaves(v: Json, p: Policy)
    requires Shape(v) && Valid(p) && forall leaf :: LeafIs(v, leaf, p)
    ensures NetworkField(v.fields["network"]) == Some((p.mode, p.destinations))
  {
    hide LeafIs;
    LeafValue(v, Mode, p);
    LeafValue(v, Destinations, p);
    hide NormalizeDestinations;
    var shell := v.fields["network"].fields["task_shell"];
    StringsInjective(NormalizeDestinations(shell.fields["destinations"]).value, p.destinations);
  }

  lemma GitFromLeaves(v: Json, p: Policy)
    requires Shape(v) && forall leaf :: LeafIs(v, leaf, p)
    ensures GitField(v.fields["git"]) == Some((p.gitRead, p.gitCommit, p.gitPush))
  {
    hide LeafIs;
    LeafValue(v, GitRead, p);
    LeafValue(v, GitCommit, p);
    LeafValue(v, GitPush, p);
    hide BoolField;
  }

  lemma ResourcesFromLeaves(v: Json, p: Policy)
    requires Shape(v) && Valid(p) && forall leaf :: LeafIs(v, leaf, p)
    ensures ResourcesField(v.fields["resources"]) == Some((p.cpu, p.memory, p.pids))
  {
    hide LeafIs;
    LeafValue(v, Cpu, p);
    LeafValue(v, Memory, p);
    LeafValue(v, Pids, p);
    CpuRoundTrip(p.cpu);
    CpuPositive(v.fields["resources"].fields["cpu"]);
    CpuRoundTrip(NormalizeCpu(v.fields["resources"].fields["cpu"]).value);
    hide NormalizeCpu;
    hide NormalizeMemory;
    hide PositiveInt;
  }

  lemma CpuPositive(v: Json)
    requires NormalizeCpu(v).Some?
    ensures NormalizeCpu(v).value > 0.0
  {
  }

  /** In the document that overlays an accepted layer on its own result, every leaf is the result's. */
  lemma AgainLeaf(p: Policy, layer: Json, leaf: Leaf)
    requires Valid(p) && layer.Obj? && Candidate(p, layer).Success? && leaf != Destinations
    requires var q := Candidate(p, layer).value;
             Overlay(AsDict(q), layer, "").Some? && Sim(Merged(p, layer), Merged(q, layer))
    ensures LeafIs(Merged(Candidate(p, layer).value, layer), leaf, Candidate(p, layer).value)
  {
    var q := Candidate(p, layer).value;
    var r, again := Merged(p, layer), Merged(q, layer);
    CandidateIsMerged(p, layer);
    CandidateValid(p, layer);
    AcceptedLeaf(r, leaf);
    LayerLeaf(p, layer, leaf);
    NormNotObject(leaf, Lookup(r, PathOf(leaf)).value);
    LookupSim(r, again, PathOf(leaf));
    LeafPaths(leaf);
    AsDictLeaf(q, leaf);
    NormOfNormal(q, leaf);
    hide Norm;
    hide At;
    hide AsDict;
    hide FromDict;
    hide Candidate;
    hide PathOf;
    hide Lookup;
    hide Valid;
    OverlayLookup(AsDict(q), layer, "", PathOf(leaf));
  }

  lemma ListIs(v: Json, p: Policy)
    requires var d := Lookup(v, PathOf(Destinations)); d.Some? && NormalizeDestinations(d.value) == Some(p.destinations)
    ensures LeafIs(v, Destinations, p)
  {
  }

  lemma AgainDestinations(p: Policy, layer: Json)
    requires Valid(p) && layer.Obj? && Candidate(p, layer).Success?
    requires var q := Candidate(p, layer).value;
             Overlay(AsDict(q), layer, "").Some? && Sim(Merged(p, layer), Merged(q, layer))
    ensures LeafIs(Merged(Candidate(p, layer).value, layer), Destinations, Candidate(p, layer).value)
  {
    var q := Candidate(p, layer).value;
    var r, again := Merged(p, layer), Merged(q, layer);
    CandidateIsMerged(p, layer);
    CandidateValid(p, layer);
    AcceptedShape(r);
    ShapeSim(r, again);
    LayerDestinations(p, layer);
    MergedDestinations(q, layer);
    StringsNormalize(q.destinations);
    NothingNormalizes();
    hide AsDict;
    hide FromDict;
    hide Candidate;
    hide PathOf;
    hide Lookup;
    hide Valid;
    hide Merged;
    hide Shape;
    hide Sim;
    hide Strings;
    hide NormalizeDestinations;
    hide LeafIs;
    hide Norm;
    hide At;
    hide Overlay;
    ListIs(again, q);
  }

  /** Applying an accepted layer a second time is accepted and changes nothing. */
  lemma ReapplyingChangesNothing(p: Policy, layer: Json)
    requires Valid(p) && ApplyLayer(p, layer).Success?
    ensures ApplyLayer(ApplyLayer(p, layer).value, layer) == ApplyLayer(p, layer)
  {
    var q := ApplyLayer(p, layer).value;
    CandidateIsMerged(p, layer);
    CandidateValid(p, layer);
    AsDictSim(p, q);
    OverlaySim(AsDict(p), AsDict(q), layer, "");
    AcceptedShape(Merged(p, layer));
    ShapeSim(Merged(p, layer), Merged(q, layer));
    AgainLeaves(p, layer);
    FromLeaves(Merged(q, layer), q);
    MergedIsCandidate(q, layer);
    NotWiderReflexive(q);
    hide FromDict;
    hide FirstWidening;
    hide Shape;
    hide LeafIs;
    hide AsDict;
    hide Overlay;
    hide Candidate;
    hide Merged;
    hide Sim;
    hide Valid;
  }

  lemma AgainLeaves(p: Policy, layer: Json)
    requires Valid(p) && layer.Obj? && Candidate(p, layer).Success?
    requires var q := Candidate(p, layer).value;
             Overlay(AsDict(q), layer, "").Some? && Sim(Merged(p, layer), Merged(q, layer))
    ensures forall leaf :: LeafIs(Merged(Candidate(p, layer).value, layer), leaf, Candidate(p, layer).value)
  {
    hide *;
    forall leaf: Leaf
      ensures LeafIs(Merged(Candidate(p, layer).value, layer), leaf, Candidate(p, layer).value)
    {
      if leaf == Destinations {
        AgainDestinations(p, layer);
      } else {
        AgainLeaf(p, layer, leaf);
      }
    }
  }

  lemma MergedIsCandidate(p: Policy, layer: Json)
    requires layer.Obj? && Overlay(AsDict(p), layer, "").Some? && FromDict(Merged(p, layer)).Some?
    ensures Candidate(p, layer) == Success(FromDict(Merged(p, layer)).value)
  {
  }

  /******* What is accepted *******/

  /** The objects of a document of the right shape have exactly these keys. */
  lemma ShapeMeans(v: Json)
    requires Shape(v)
    ensures v.fields.Keys == {"version", "workspace", "reference", "filesystem", "network", "credentials", "git", "sandbox",
                              "resources", "security_class"}
    ensures v.fields["workspace"].fields.Keys == {"access"} && v.fields["reference"].fields.Keys == {"access"}
    ensures v.fields["filesystem"].fields.Keys == {"external"} && v.fields["sandbox"].fields.Keys == {"required"}
    ensures v.fields["git"].fields.Keys == {"read", "commit", "push"}
    ensures v.fields["resources"].fields.Keys == {"cpu", "memory", "pids"}
    ensures v.fields["network"].fields.Keys == {"task_shell"} && v.fields["credentials"].fields.Keys == {"provider_auth"}
    ensures v.fields["credentials"].fields["provider_auth"].fields.Keys == {"task_shell"}
    ensures {"mode"} <= v.fields["network"].fields["task_shell"].fields.Keys <= {"mode", "destinations"}
  {
    ExactKeys(v, TopFields());
    ExactKeys(v.fields["workspace"], {"access"});
    ExactKeys(v.fields["reference"], {"access"});
    ExactKeys(v.fields["filesystem"], {"external"});
    ExactKeys(v.fields["sandbox"], {"required"});
    ExactKeys(v.fields["git"], {"read", "commit", "push"});
    ExactKeys(v.fields["resources"], {"cpu", "memory", "pids"});
    ExactKeys(v.fields["network"], {"task_shell"});
    ExactKeys(v.fields["credentials"], {"provider_auth"});
    ExactKeys(v.fields["credentials"].fields["provider_auth"], {"task_shell"});
    ShellKeys(v.fields["network"].fields["task_shell"]);
    hide HasFields;
  }

  lemma ExactKeys(v: Json, keys: set<string>)
    requires HasFields(v, keys, {})
    ensures v.Obj? && v.fields.Keys == keys
  {
  }

  lemma ShellKeys(v: Json)
    requires HasFields(v, {"mode"}, {"destinations"})
    ensures v.Obj? && {"mode"} <= v.fields.Keys <= {"mode", "destinations"}
  {
    assert {"mode"} + {"destinations"} == {"mode", "destinations"};
  }

  predicate LeafAllowed(v: Json, leaf: Leaf)
  {
    Lookup(v, PathOf(leaf)).Some? && Norm(leaf, Lookup(v, PathOf(leaf)).value).Some?
  }

  /** The destinations given are valid, and there are some exactly in allowlist mode. */
  ghost predicate DestinationsAllowed(v: Json)
  {
    var d := Lookup(v, PathOf(Destinations));
    && (d.Some? ==> NormalizeDestinations(d.value).Some?)
    && (Lookup(v, PathOf(Mode)) == Some(Str("allowlist")) <==> d.Some? && NormalizeDestinations(d.value) != Some([]))
  }

  /** A document is accepted if and only if it has the right shape, every leaf is allowed, and destinations are given
      exactly in allowlist mode. */
  lemma AcceptedIff(v: Json)
    ensures FromDict(v).Some? <==>
              Shape(v) && (forall leaf :: leaf != Destinations ==> LeafAllowed(v, leaf)) && DestinationsAllowed(v)
  {
    if FromDict(v).Some? {
      AcceptedMeans(v);
    }
    if Shape(v) && (forall leaf :: leaf != Destinations ==> LeafAllowed(v, leaf)) && DestinationsAllowed(v) {
      AllowedIsAccepted(v);
    }
    hide FromDict;
    hide Shape;
    hide LeafAllowed;
    hide DestinationsAllowed;
  }

  lemma AcceptedMeans(v: Json)
    requires FromDict(v).Some?
    ensures Shape(v) && (forall leaf :: leaf != Destinations ==> LeafAllowed(v, leaf)) && DestinationsAllowed(v)
  {
    AcceptedShape(v);
    forall leaf: Leaf | leaf != Destinations
      ensures LeafAllowed(v, leaf)
    {
      AcceptedLeaf(v, leaf);
      hide FromDict;
      hide Lookup;
      hide Norm;
    }
    AcceptedMode(v);
    hide FromDict;
    hide Shape;
    hide LeafAllowed;
  }

  lemma AcceptedMode(v: Json)
    requires FromDict(v).Some?
    ensures DestinationsAllowed(v)
  {
    AcceptedList(v);
    AcceptedLeaf(v, Mode);
    FromDictValid(v);
    ModeNorm(Lookup(v, PathOf(Mode)).value, FromDict(v).value);
    hide FromDict;
    hide Lookup;
    hide Norm;
    hide NormalizeDestinations;
  }

  lemma ModeNorm(v: Json, p: Policy)
    requires Norm(Mode, v) == Some(At(p, Mode))
    ensures v == Str(p.mode)
  {
  }

  /** An allowed leaf by its fields. */
  lemma AllowedValue(v: Json, leaf: Leaf)
    requires Shape(v) && leaf != Destinations && LeafAllowed(v, leaf)
    ensures match leaf
            case Version => v.fields["version"] == Int(1)
            case WorkspaceAccess => ChoiceField(v.fields["workspace"], "access", WORKSPACE_ACCESS).Some?
            case ReferenceAccess => ChoiceField(v.fields["reference"], "access", REFERENCE_ACCESS).Some?
            case External => ChoiceField(v.fields["filesystem"], "external", EXTERNAL_ACCESS).Some?
            case Mode =>
              var m := v.fields["network"].fields["task_shell"].fields["mode"];
              m.Str? && m.s in NETWORK_MODES && Lookup(v, PathOf(Mode)) == Some(m)
            case Auth => AuthField(v.fields["credentials"]).Some?
            case GitRead => BoolField(v.fields["git"].fields, "read").Some?
            case GitCommit => BoolField(v.fields["git"].fields, "commit").Some?
            case GitPush => BoolField(v.fields["git"].fields, "push").Some?
            case SandboxRequired => SandboxField(v.fields["sandbox"]).Some?
            case Cpu => NormalizeCpu(v.fields["resources"].fields["cpu"]).Some?
            case Memory => NormalizeMemory(v.fields["resources"].fields["memory"]).Some?
            case Pids => PositiveInt(v.fields["resources"].fields["pids"]).Some?
            case SecurityClass => v.fields["security_class"].Str? && v.fields["security_class"].s in SECURITY_CLASSES
            case Destinations => true
  {
    LeafLookup(v, leaf);
    hide Lookup;
    hide NormalizeMemory;
  }

  lemma AllowedShell(v: Json)
    requires Shape(v) && LeafAllowed(v, Mode) && DestinationsAllowed(v)
    ensures NetworkField(v.fields["network"]).Some?
  {
    AllowedValue(v, Mode);
    ShellPaths(v);
    hide Lookup;
    hide NormalizeDestinations;
    hide LeafAllowed;
  }

  lemma AllowedIsAccepted(v: Json)
    requires Shape(v) && (forall leaf :: leaf != Destinations ==> LeafAllowed(v, leaf)) && DestinationsAllowed(v)
    ensures FromDict(v).Some?
  {
    hide LeafAllowed;
    hide DestinationsAllowed;
    hide FromDict;
    AllowedShell(v);
    AllowedValue(v, Version);
    AllowedValue(v, WorkspaceAccess);
    AllowedValue(v, ReferenceAccess);
    AllowedValue(v, External);
    AllowedValue(v, Auth);
    AllowedValue(v, SandboxRequired);
    AllowedValue(v, SecurityClass);
    AllowedGit(v);
    AllowedResources(v);
    FromParts(v);
  }

  lemma FromParts(v: Json)
    requires HasFields(v, TopFields(), {}) && TopKeysIn(v.fields) && v.fields["version"] == Int(1)
    requires ChoiceField(v.fields["workspace"], "access", WORKSPACE_ACCESS).Some?
    requires ChoiceField(v.fields["reference"], "access", REFERENCE_ACCESS).Some?
    requires ChoiceField(v.fields["filesystem"], "external", EXTERNAL_ACCESS).Some?
    requires NetworkField(v.fields["network"]).Some? && AuthField(v.fields["credentials"]).Some?
    requires GitField(v.fields["git"]).Some? && SandboxField(v.fields["sandbox"]).Some?
    requires ResourcesField(v.fields["resources"]).Some?
    requires v.fields["security_class"].Str? && v.fields["security_class"].s in SECURITY_CLASSES
    ensures FromDict(v).Some?
  {
    hide ChoiceField;
    hide NetworkField;
    hide AuthField;
    hide GitField;
    hide SandboxField;
    hide ResourcesField;
    hide TopFields;
  }

  lemma AllowedGit(v: Json)
    requires Shape(v) && LeafAllowed(v, GitRead) && LeafAllowed(v, GitCommit) && LeafAllowed(v, GitPush)
    ensures GitField(v.fields["git"]).Some?
  {
    AllowedValue(v, GitRead);
    AllowedValue(v, GitCommit);
    AllowedValue(v, GitPush);
    hide LeafAllowed;
    hide BoolField;
  }

  lemma AllowedResources(v: Json)
    requires Shape(v) && LeafAllowed(v, Cpu) && LeafAllowed(v, Memory) && LeafAllowed(v, Pids)
    ensures ResourcesField(v.fields["resources"]).Some?
  {
    AllowedValue(v, Cpu);
    AllowedValue(v, Memory);
    AllowedValue(v, Pids);
    hide LeafAllowed;
    hide NormalizeCpu;
    hide NormalizeMemory;
    hide PositiveInt;
  }

  /******* Which layers yield a candidate *******/

  /** A layer names only fields the base has, at every level at which both are objects. */
  predicate Known(b: Json, layer: Json)
    decreases layer
  {
    layer.Obj? && b.Obj? ==>
      layer.fields.Keys <= b.fields.Keys && forall k :: k in layer.fields ==> Known(b.fields[k], layer.fields[k])
  }

  /** An overlay fails exactly on unknown fields. */
  lemma {:induction false} OverlaySucceedsIff(b: Json, v: Json, path: string)
    ensures Overlay(b, v, path).Some? <==> Known(b, v)
    decreases v
  {
    if v.Obj? && b.Obj? && v.fields.Keys <= b.fields.Keys {
      forall k | k in v.fields
        ensures Overlay(b.fields[k], v.fields[k], Child(path, k)).Some? <==> Known(b.fields[k], v.fields[k])
      {
        OverlaySucceedsIff(b.fields[k], v.fields[k], Child(path, k));
      }
    }
  }

  /** A layer yields a candidate if and only if it names known fields and the overlaid document is accepted. */
  lemma CandidateSucceedsIff(p: Policy, layer: Json)
    requires layer.Obj?
    ensures Candidate(p, layer).Success? <==>
              && Known(AsDict(p), layer) && Overlay(AsDict(p), layer, "").Some?
              && Shape(Merged(p, layer)) && (forall leaf :: leaf != Destinations ==> LeafAllowed(Merged(p, layer), leaf))
              && DestinationsAllowed(Merged(p, layer))
  {
    OverlaySucceedsIff(AsDict(p), layer, "");
    if Overlay(AsDict(p), layer, "").Some? {
      AcceptedIff(Merged(p, layer));
    }
    hide FromDict;
    hide AsDict;
    hide Known;
    hide Shape;
    hide LeafAllowed;
    hide DestinationsAllowed;
  }

  /** A layer that says nothing is accepted and changes nothing. */
  lemma EmptyLayerChangesNothing(p: Policy)
    requires Valid(p)
    ensures ApplyLayer(p, Obj(map[])) == Success(p)
  {
    hide FromDict;
    hide FirstWidening;
    hide TopDict;
    hide Merge;
    hide Valid;
    MergeNothing(AsDict(p).fields, "");
    DictRoundTrip(p);
    NotWiderReflexive(p);
    assert Obj(AsDict(p).fields) == AsDict(p);
  }

  lemma MergeNothing(d: map<string, Json>, path: string)
    ensures Merge(d, Obj(map[]), path) == Some(d)
  {
    var m := Merge(d, Obj(map[]), path);
    assert m.Some? && m.value.Keys == d.Keys && forall k :: k in d ==> m.value[k] == d[k];
    assert m.value == d;
  }
}
