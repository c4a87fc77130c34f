/** Keeping platform-managed JSON fields in writable provider state equal to the deployed seed. */
module Reconcile {
  import opened Wrappers
  import opened Json

  type Path = seq<string>

  /******* The two jq operations the update program uses *******/

  /** `getpath`: null below null and below an absent key; None is the error below any other value. */
  function Get(v: Json, p: Path): Option<Json>
    decreases |p|
  {
    if p == [] then Some(v)
    else match v
      case Null => Some(Null)
      case Obj(m) => if p[0] in m then Get(m[p[0]], p[1..]) else Some(Null)
      case _ => None
  }

  function ChildOf(v: Json, key: string): Json
  {
    if v.Obj? && key in v.fields then v.fields[key] else Null
  }

  function WithChild(v: Json, key: string, child: Json): Json
  {
    Obj((if v.Obj? then v.fields else map[])[key := child])
  }

  /** `setpath`: creates objects below null and absent keys; None is the error below any other value. */
  function Set(v: Json, p: Path, x: Json): Option<Json>
    decreases |p|
  {
    if p == [] then Some(x)
    else if !v.Obj? && !v.Null? then None
    else
      var child := Set(ChildOf(v, p[0]), p[1..], x);
      if child.None? then None else Some(WithChild(v, p[0], child.value))
  }

  lemma GetStep(v: Json, p: Path)
    requires p != [] && (v.Obj? || v.Null?)
    ensures Get(v, p) == Get(ChildOf(v, p[0]), p[1..])
  {
  }

  /** Reading at or below a path just set. */
  lemma {:induction false} GetBelowSet(v: Json, p: Path, x: Json, q: Path)
    requires Set(v, p, x).Some? && p <= q
    ensures Get(Set(v, p, x).value, q) == Get(x, q[|p|..])
    decreases |p|
  {
    if p == [] {
      assert q[0..] == q;
    } else {
      GetBelowSet(ChildOf(v, p[0]), p[1..], x, q[1..]);
      GetStep(Set(v, p, x).value, q);
      assert q[1..][|p| - 1..] == q[|p|..];
    }
  }

  /** Reading above a path just set. */
  lemma {:induction false} GetAboveSet(v: Json, p: Path, x: Json, q: Path)
    requires Set(v, p, x).Some? && q <= p
    ensures Get(v, q).Some? && Get(Set(v, p, x).value, q).Some?
    ensures Get(Set(v, p, x).value, q) == Set(Get(v, q).value, p[|q|..], x)
    decreases |q|
  {
    if q == [] {
      assert p[0..] == p;
    } else {
      GetAboveSet(ChildOf(v, p[0]), p[1..], x, q[1..]);
      GetStep(v, q);
      GetStep(Set(v, p, x).value, q);
      assert p[1..][|q| - 1..] == p[|q|..];
    }
  }

  predicate Apart(p: Path, q: Path)
  {
    !(p <= q) && !(q <= p)
  }

  /** Reading a path that neither contains nor is contained in the one just set. */
  lemma {:induction false} GetApartFromSet(v: Json, p: Path, x: Json, q: Path)
    requires Set(v, p, x).Some? && Apart(p, q)
    ensures Get(Set(v, p, x).value, q) == Get(v, q)
    decreases |p|
  {
    GetStep(v, q);
    GetStep(Set(v, p, x).value, q);
    if p[0] == q[0] {
      assert p == [p[0]] + p[1..] && q == [q[0]] + q[1..];
      GetApartFromSet(ChildOf(v, p[0]), p[1..], x, q[1..]);
    }
  }

  /** Setting a path to the value it has changes nothing. */
  lemma {:induction false} SetSame(v: Json, p: Path)
    requires Get(v, p).Some? && Get(v, p).value != Null
    ensures Set(v, p, Get(v, p).value) == Some(v)
    decreases |p|
  {
    if p != [] {
      GetStep(v, p);
      SetSame(ChildOf(v, p[0]), p[1..]);
      assert v.fields[p[0] := v.fields[p[0]]] == v.fields;
    }
  }

  lemma NullBelowNull(p: Path)
    ensures Get(Null, p) == Some(Null)
  {
  }

  /** A value below which keys can be set. */
  predicate Open(v: Option<Json>)
  {
    v.Some? && (v.value.Obj? || v.value.Null?)
  }

  /** Setting succeeds exactly when every value above the path is an object or null. */
  lemma {:induction false} SetSucceedsIff(v: Json, p: Path, x: Json)
    ensures Set(v, p, x).Some? <==> forall k :: 0 <= k < |p| ==> Open(Get(v, p[..k]))
    decreases |p|
  {
    if p != [] {
      assert p[..0] == [];
      if Open(Some(v)) {
        SetSucceedsIff(ChildOf(v, p[0]), p[1..], x);
        forall k | 0 <= k < |p|
          ensures k > 0 ==> Get(v, p[..k]) == Get(ChildOf(v, p[0]), p[1..][..k - 1])
        {
          if k > 0 {
            GetStep(v, p[..k]);
            assert p[..k][1..] == p[1..][..k - 1];
          }
        }
        forall j | 0 <= j < |p| - 1
          ensures Get(v, p[..j + 1]) == Get(ChildOf(v, p[0]), p[1..][..j])
        {
          GetStep(v, p[..j + 1]);
          assert p[..j + 1][1..] == p[1..][..j];
        }
      } else {
        assert !Open(Get(v, p[..0]));
      }
    }
  }

  /******* The update program *******/

  /** The program: for each path in turn, set the seed's value there. */
  function Apply(seed: Json, state: Json, paths: seq<Path>): Option<Json>
    decreases |paths|
  {
    if paths == [] then Some(state)
    else
      var x := Get(seed, paths[0]);
      if x.None? then None
      else
        var next := Set(state, paths[0], x.value);
        if next.None? then None else Apply(seed, next.value, paths[1..])
  }

  /** The seed has a value at the path. */
  predicate Given(seed: Json, p: Path)
  {
    Get(seed, p).Some? && Get(seed, p).value != Null
  }

  /** What the seed validation checks. */
  predicate SeedValid(seed: Json, field: string, managed: seq<Path>)
  {
    && Get(seed, [field]).Some? && Get(seed, [field]).value.Obj?
    && forall i :: 0 <= i < |managed| ==> Given(seed, managed[i])
  }

  predicate AllGiven(seed: Json, paths: seq<Path>)
  {
    forall i :: 0 <= i < |paths| ==> Given(seed, paths[i])
  }

  lemma {:induction false} GetSplit(v: Json, p: Path, k: nat)
    requires k <= |p| && Get(v, p[..k]).Some?
    ensures Get(v, p) == Get(Get(v, p[..k]).value, p[k..])
    decreases k
  {
    if k == 0 {
      assert p[0..] == p && p[..0] == [];
    } else {
      assert p[..k][1..] == p[1..][..k - 1] && p[..k][0] == p[0];
      if v.Obj? || v.Null? {
        GetStep(v, p);
        GetStep(v, p[..k]);
        GetSplit(ChildOf(v, p[0]), p[1..], k - 1);
        assert p[1..][k - 1..] == p[k..];
      }
    }
  }

  /** Above a given path the seed has objects. */
  lemma {:induction false} GivenAbove(v: Json, p: Path, k: nat)
    requires Given(v, p) && k < |p|
    ensures Get(v, p[..k]).Some? && Get(v, p[..k]).value.Obj?
    decreases k
  {
    if v.Null? {
      NullBelowNull(p);
    }
    if k == 0 {
      assert p[..0] == [];
    } else {
      GetStep(v, p);
      GetStep(v, p[..k]);
      assert p[..k][1..] == p[1..][..k - 1];
      GivenAbove(ChildOf(v, p[0]), p[1..], k - 1);
    }
  }

  /** Setting the seed's value somewhere leaves a place that agrees with the seed in agreement,
      whichever of the two paths contains the other. */
  lemma AgreementSurvives(seed: Json, state: Json, p: Path, q: Path)
    requires Given(seed, p) && Get(state, q) == Get(seed, q)
    requires Set(state, p, Get(seed, p).value).Some?
    ensures Get(Set(state, p, Get(seed, p).value).value, q) == Get(seed, q)
  {
    var x := Get(seed, p).value;
    if p <= q {
      GetBelowSet(state, p, x, q);
      assert q[..|p|] == p;
      GetSplit(seed, q, |p|);
    } else if q <= p {
      GetAboveSet(state, p, x, q);
      assert p[..|q|] == q;
      GetSplit(seed, p, |q|);
      SetSame(Get(seed, q).value, p[|q|..]);
    } else {
      GetApartFromSet(state, p, x, q);
    }
  }

  lemma {:induction false} ApplyKeepsAgreement(seed: Json, state: Json, paths: seq<Path>, q: Path)
    requires AllGiven(seed, paths) && Get(state, q) == Get(seed, q) && Apply(seed, state, paths).Some?
    ensures Get(Apply(seed, state, paths).value, q) == Get(seed, q)
    decreases |paths|
  {
    if paths != [] {
      AgreementSurvives(seed, state, paths[0], q);
      ApplyKeepsAgreement(seed, Set(state, paths[0], Get(seed, paths[0]).value).value, paths[1..], q);
    }
  }

  /** After the program, every path in it holds the seed's value, overlapping or nested as they may be. */
  lemma {:induction false} ApplyAgrees(seed: Json, state: Json, paths: seq<Path>, i: nat)
    requires AllGiven(seed, paths) && Apply(seed, state, paths).Some? && i < |paths|
    ensures Get(Apply(seed, state, paths).value, paths[i]) == Get(seed, paths[i])
    decreases |paths|
  {
    var x := Get(seed, paths[0]).value;
    var next := Set(state, paths[0], x).value;
    if i == 0 {
      GetBelowSet(state, paths[0], x, paths[0]);
      ApplyKeepsAgreement(seed, next, paths[1..], paths[0]);
    } else {
      ApplyAgrees(seed, next, paths[1..], i - 1);
    }
  }

  lemma {:induction false} ApplyLeavesRest(seed: Json, state: Json, paths: seq<Path>, q: Path)
    requires Apply(seed, state, paths).Some? && forall i :: 0 <= i < |paths| ==> Apart(paths[i], q)
    ensures Get(Apply(seed, state, paths).value, q) == Get(state, q)
    decreases |paths|
  {
    if paths != [] {
      var x := Get(seed, paths[0]).value;
      GetApartFromSet(state, paths[0], x, q);
      ApplyLeavesRest(seed, Set(state, paths[0], x).value, paths[1..], q);
    }
  }

  /** A state that agrees with the seed on every path is a fixed point of the program. */
  lemma {:induction false} ApplyToAgreed(seed: Json, state: Json, paths: seq<Path>)
    requires AllGiven(seed, paths) && forall i :: 0 <= i < |paths| ==> Get(state, paths[i]) == Get(seed, paths[i])
    ensures Apply(seed, state, paths) == Some(state)
    decreases |paths|
  {
    if paths != [] {
      SetSame(state, paths[0]);
      ApplyToAgreed(seed, state, paths[1..]);
    }
  }

  /** The state has no plain value where the i-th path needs an object, unless an earlier path replaces it. */
  predicate Reaches(state: Json, paths: seq<Path>, i: nat)
    requires i < |paths|
  {
    forall k :: 0 <= k < |paths[i]| ==>
      Open(Get(state, paths[i][..k])) || exists j :: 0 <= j < i && paths[j] <= paths[i][..k]
  }

  /** The value above a path, after an earlier path has been set. */
  lemma OpenAfterSet(seed: Json, state: Json, p: Path, path: Path, k: nat)
    requires Given(seed, p) && Given(seed, path) && k < |path| && Set(state, p, Get(seed, p).value).Some?
    ensures Open(Get(Set(state, p, Get(seed, p).value).value, path[..k])) <==> Open(Get(state, path[..k])) || p <= path[..k]
  {
    var x, q := Get(seed, p).value, path[..k];
    if p <= q {
      GetBelowSet(state, p, x, q);
      assert q[..|p|] == p;
      GetSplit(seed, q, |p|);
      GivenAbove(seed, path, k);
    } else if q <= p {
      GetAboveSet(state, p, x, q);
      SetSucceedsIff(state, p, x);
      assert p[..|q|] == q && p[|q|..] != [];
      assert Open(Get(state, p[..|q|]));
    } else {
      GetApartFromSet(state, p, x, q);
    }
  }

  /** The program succeeds exactly on the states that every path of it reaches. */
  lemma {:induction false} ApplySucceedsIff(seed: Json, state: Json, paths: seq<Path>)
    requires AllGiven(seed, paths)
    ensures Apply(seed, state, paths).Some? <==> forall i :: 0 <= i < |paths| ==> Reaches(state, paths, i)
    decreases |paths|
  {
    if paths != [] {
      var x := Get(seed, paths[0]).value;
      SetSucceedsIff(state, paths[0], x);
      if Set(state, paths[0], x).Some? {
        var next := Set(state, paths[0], x).value;
        ApplySucceedsIff(seed, next, paths[1..]);
        forall i | 1 <= i < |paths|
          ensures Reaches(state, paths, i) <==> Reaches(next, paths[1..], i - 1)
        {
          ReachesAfterSet(seed, state, paths, i);
        }
        assert forall i :: 0 <= i < |paths| - 1 ==> (Reaches(next, paths[1..], i) <==> Reaches(state, paths, i + 1));
      } else {
        assert !Reaches(state, paths, 0);
      }
    }
  }

  lemma ReachesAfterSet(seed: Json, state: Json, paths: seq<Path>, i: nat)
    requires AllGiven(seed, paths) && 1 <= i < |paths| && Set(state, paths[0], Get(seed, paths[0]).value).Some?
    ensures Reaches(state, paths, i) <==> Reaches(Set(state, paths[0], Get(seed, paths[0]).value).value, paths[1..], i - 1)
  {
    var next := Set(state, paths[0], Get(seed, paths[0]).value).value;
    var rest := paths[1..];
    forall k | 0 <= k < |paths[i]|
      ensures (Open(Get(state, paths[i][..k])) || exists j :: 0 <= j < i && paths[j] <= paths[i][..k])
         <==> (Open(Get(next, rest[i - 1][..k])) || exists j :: 0 <= j < i - 1 && rest[j] <= rest[i - 1][..k])
    {
      var q := paths[i][..k];
      assert rest[i - 1] == paths[i];
      OpenAfterSet(seed, state, paths[0], paths[i], k);
      if j :| 0 <= j < i && paths[j] <= q {
        if j > 0 {
          assert rest[j - 1] <= q;
        }
      }
      if j :| 0 <= j < i - 1 && rest[j] <= q {
        assert paths[j + 1] <= q;
      }
    }
  }

  /******* The whole reconciliation *******/

  /** What jq reads from a file: text that is not JSON throughout, or any number of documents, none
      included. */
  datatype File = Garbage(text: string) | Documents(docs: seq<Json>)

  /** The seed is deployed with the platform: one document, no document, or no JSON. */
  type SeedFile = f: File | f.Documents? ==> |f.docs| <= 1 witness Documents([])

  datatype Plan = Plan(field: string, managed: seq<Path>)

  /** Whether jq's exit status reports a program error on any input document, or only one on the last. */
  datatype Reporting = AnyError | LastError

  function Program(plan: Plan): seq<Path>
  {
    [[plan.field]] + plan.managed
  }

  /** The seed's document, if it passes the validation.  A seed without a document yields no output
      and does not pass. */
  function ValidSeed(seed: SeedFile, plan: Plan): Option<Json>
  {
    if seed.Documents? && |seed.docs| == 1 && SeedValid(seed.docs[0], plan.field, plan.managed)
    then Some(seed.docs[0]) else None
  }

  /** The output of the program for one document: nothing if it fails. */
  function Image(seed: Json, doc: Json, paths: seq<Path>): seq<Json>
  {
    var r := Apply(seed, doc, paths);
    if r.Some? then [r.value] else []
  }

  /** The output of the program over all documents of a file. */
  function Updated(seed: Json, docs: seq<Json>, paths: seq<Path>): seq<Json>
  {
    if docs == [] then [] else Image(seed, docs[0], paths) + Updated(seed, docs[1..], paths)
  }

  predicate Reported(seed: Json, docs: seq<Json>, paths: seq<Path>, r: Reporting)
  {
    match r
    case AnyError => exists i :: 0 <= i < |docs| && Apply(seed, docs[i], paths).None?
    case LastError => docs != [] && Apply(seed, docs[|docs| - 1], paths).None?
  }

  /** The new state file, and whether the step succeeded. */
  function Reconciled(state: Option<File>, seed: SeedFile, plan: Plan, r: Reporting): (Option<File>, bool)
  {
    if state.None? then (Some(seed), true)
    else if ValidSeed(seed, plan).None? || state.value.Garbage? then (state, false)
    else
      var s := ValidSeed(seed, plan).value;
      if Reported(s, state.value.docs, Program(plan), r) then (state, false)
      else (Some(Documents(Updated(s, state.value.docs, Program(plan)))), true)
  }

  /** One document through the update program; None is jq's error. */
  method RunProgram(seed: Json, doc: Json, updates: seq<Path>) returns (r: Option<Json>)
    ensures r == Apply(seed, doc, updates)
  {
    var copy := doc;
    for i := 0 to |updates|
      invariant Apply(seed, doc, updates) == Apply(seed, copy, updates[i..])
    {
      assert updates[i..][0] == updates[i] && updates[i..][1..] == updates[i + 1..];
      var x := Get(seed, updates[i]);
      if x.None? {
        return None;
      }
      var next := Set(copy, updates[i], x.value);
      if next.None? {
        return None;
      }
      copy := next.value;
    }
    r := Some(copy);
  }

  /** `jq -e` on one seed document: the field is an object, then each path in turn is given. */
  method Validate(seed: Json, field: string, checks: seq<Path>) returns (ok: bool)
    ensures ok == SeedValid(seed, field, checks)
  {
    if Get(seed, [field]).None? || !Get(seed, [field]).value.Obj? {
      return false;
    }
    for i := 0 to |checks|
      invariant forall j :: 0 <= j < i ==> Given(seed, checks[j])
    {
      if !Given(seed, checks[i]) {
        return false;
      }
    }
    ok := true;
  }

  /** The program over all documents: its output, and what the exit status reports. */
  method RunOverDocuments(seed: Json, docs: seq<Json>, updates: seq<Path>, r: Reporting) returns (output: seq<Json>, failed: bool)
    ensures output == Updated(seed, docs, updates) && failed == Reported(seed, docs, updates, r)
  {
    UpdatedNone(seed, updates);
    hide Apply;
    hide Updated;
    output := [];
    assert docs[..0] == [];
    var anyError, lastError := false, false;
    for i := 0 to |docs|
      invariant output == Updated(seed, docs[..i], updates)
      invariant anyError <==> exists j :: 0 <= j < i && Apply(seed, docs[j], updates).None?
      invariant lastError <==> i > 0 && Apply(seed, docs[i - 1], updates).None?
    {
      var image := RunProgram(seed, docs[i], updates);
      UpdatedAppend(seed, docs[..i], docs[i], updates);
      assert docs[..i] + [docs[i]] == docs[..i + 1];
      assert Image(seed, docs[i], updates) == if image.Some? then [image.value] else [];
      output := output + if image.Some? then [image.value] else [];
      lastError := image.None?;
      anyError := anyError || lastError;
    }
    assert docs[..|docs|] == docs;
    failed := if r.AnyError? then anyError else lastError;
  }

  /** `seed_provider_home`: build the validation and the program, then validate, run the program over the
      state's documents into a copy, and move the copy into place. */
  method SeedProviderHome(state: Option<File>, seed: SeedFile, plan: Plan, r: Reporting) returns (result: Option<File>, ok: bool)
    ensures (result, ok) == Reconciled(state, seed, plan, r)
  {
    hide SeedValid;
    hide Updated;
    hide Reported;
    var checks: seq<Path>, updates: seq<Path> := [], [[plan.field]];
    for i := 0 to |plan.managed|
      invariant checks == plan.managed[..i] && updates == [[plan.field]] + plan.managed[..i]
    {
      checks := checks + [plan.managed[i]];
      updates := updates + [plan.managed[i]];
    }
    assert checks == plan.managed && updates == Program(plan);
    if state.None? {
      return Some(seed), true;
    }
    if seed.Garbage? || seed.docs == [] {
      return state, false;
    }
    var valid := Validate(seed.docs[0], plan.field, checks);
    if !valid || state.value.Garbage? {
      return state, false;
    }
    var output, failed := RunOverDocuments(seed.docs[0], state.value.docs, updates, r);
    if failed {
      return state, false;
    }
    return Some(Documents(output)), true;
  }

  lemma UpdatedNone(seed: Json, paths: seq<Path>)
    ensures Updated(seed, [], paths) == []
  {
  }

  lemma {:induction false} UpdatedAppend(seed: Json, docs: seq<Json>, doc: Json, paths: seq<Path>)
    ensures Updated(seed, docs + [doc], paths) == Updated(seed, docs, paths) + Image(seed, doc, paths)
    decreases |docs|
  {
    hide Image;
    var all := docs + [doc];
    if docs == [] {
      assert all == [doc] && [doc][1..] == [];
    } else {
      assert all[0] == docs[0] && all[1..] == docs[1..] + [doc];
      UpdatedAppend(seed, docs[1..], doc, paths);
      var first, last := Image(seed, docs[0], paths), Image(seed, doc, paths);
      assert first + (Updated(seed, docs[1..], paths) + last) == (first + Updated(seed, docs[1..], paths)) + last;
    }
  }

  lemma ProgramGiven(seed: Json, plan: Plan)
    requires SeedValid(seed, plan.field, plan.managed)
    ensures AllGiven(seed, Program(plan))
  {
    assert Program(plan)[0] == [plan.field];
    assert forall i :: 0 < i < |Program(plan)| ==> Program(plan)[i] == plan.managed[i - 1];
  }

  /** The document holds the seed's value at the managed field and at every managed path. */
  ghost predicate Agrees(doc: Json, seed: Json, plan: Plan)
  {
    && Get(doc, [plan.field]) == Get(seed, [plan.field])
    && forall p :: p in plan.managed ==> Get(doc, p) == Get(seed, p)
  }

  /** The path neither contains nor is contained in the managed field or a managed path. */
  ghost predicate Unmanaged(q: Path, plan: Plan)
  {
    Apart([plan.field], q) && forall p :: p in plan.managed ==> Apart(p, q)
  }

  /** Agreement path by path of the program. */
  ghost predicate AgreesAlong(doc: Json, seed: Json, paths: seq<Path>)
  {
    forall i :: 0 <= i < |paths| ==> Get(doc, paths[i]) == Get(seed, paths[i])
  }

  /** The program has the managed field, then the managed paths, and nothing else. */
  lemma ProgramPaths(plan: Plan)
    ensures |Program(plan)| == 1 + |plan.managed| && Program(plan)[0] == [plan.field]
    ensures forall i :: 0 <= i < |plan.managed| ==> Program(plan)[i + 1] == plan.managed[i]
    ensures forall p :: p in Program(plan) <==> p == [plan.field] || p in plan.managed
  {
    assert forall i :: 0 <= i < |plan.managed| ==> Program(plan)[i + 1] == plan.managed[i];
  }

  lemma ProgramCovers(doc: Json, seed: Json, plan: Plan, q: Path)
    ensures AgreesAlong(doc, seed, Program(plan)) <==> Agrees(doc, seed, plan)
    ensures (forall p :: p in Program(plan) ==> Apart(p, q)) <==> Unmanaged(q, plan)
  {
    hide Get;
    hide Apart;
    ProgramPaths(plan);
    hide Program;
    if AgreesAlong(doc, seed, Program(plan)) {
      forall p | p in plan.managed
        ensures Get(doc, p) == Get(seed, p)
      {
        var i :| 0 <= i < |plan.managed| && plan.managed[i] == p;
        assert Program(plan)[i + 1] == p;
      }
    }
  }

  lemma {:induction false} UpdatedAgrees(seed: Json, docs: seq<Json>, paths: seq<Path>)
    requires AllGiven(seed, paths)
    ensures forall d :: d in Updated(seed, docs, paths) ==> AgreesAlong(d, seed, paths)
  {
    if docs != [] {
      UpdatedAgrees(seed, docs[1..], paths);
      var first := Apply(seed, docs[0], paths);
      if first.Some? {
        forall i | 0 <= i < |paths|
          ensures Get(first.value, paths[i]) == Get(seed, paths[i])
        {
          ApplyAgrees(seed, docs[0], paths, i);
        }
      }
    }
  }

  /** A document is dropped from the output for each one the program fails on. */
  lemma {:induction false} UpdatedSize(seed: Json, docs: seq<Json>, paths: seq<Path>)
    ensures |Updated(seed, docs, paths)| <= |docs|
    ensures |Updated(seed, docs, paths)| == |docs| <==> forall i :: 0 <= i < |docs| ==> Apply(seed, docs[i], paths).Some?
  {
    if docs != [] {
      UpdatedSize(seed, docs[1..], paths);
      assert forall i :: 1 <= i < |docs| ==> docs[i] == docs[1..][i - 1];
    }
  }

  /** When the program fails on no document, the output has one document for each, in order, and each
      keeps what is unrelated to the managed paths. */
  lemma {:induction false} UpdatedKeeps(seed: Json, docs: seq<Json>, paths: seq<Path>)
    requires forall i :: 0 <= i < |docs| ==> Apply(seed, docs[i], paths).Some?
    ensures |Updated(seed, docs, paths)| == |docs|
    ensures forall i, q :: 0 <= i < |docs| && (forall p :: p in paths ==> Apart(p, q)) ==>
              Get(Updated(seed, docs, paths)[i], q) == Get(docs[i], q)
  {
    if docs != [] {
      UpdatedKeeps(seed, docs[1..], paths);
      forall q | forall p :: p in paths ==> Apart(p, q)
        ensures Get(Apply(seed, docs[0], paths).value, q) == Get(docs[0], q)
      {
        ApplyLeavesRest(seed, docs[0], paths, q);
      }
    }
  }

  /** After a success on an existing file, whatever documents it has: every document holds the seed's
      values at all managed paths.  No document is dropped exactly if the program failed on none, which is
      certain when jq reports any error; then the documents are those of before with every unrelated
      value kept. */
  lemma ReconciledValues(docs: seq<Json>, seed: SeedFile, plan: Plan, r: Reporting)
    requires Reconciled(Some(Documents(docs)), seed, plan, r).1
    ensures var result := Reconciled(Some(Documents(docs)), seed, plan, r).0;
            var s := ValidSeed(seed, plan);
            var all := forall i :: 0 <= i < |docs| ==> Apply(s.value, docs[i], Program(plan)).Some?;
            && s.Some? && result.Some? && result.value.Documents?
            && (forall d :: d in result.value.docs ==> Agrees(d, s.value, plan))
            && (r.AnyError? ==> all)
            && (|result.value.docs| == |docs| <==> all)
            && (all ==>
                  forall i, q :: 0 <= i < |docs| && Unmanaged(q, plan) ==> Get(result.value.docs[i], q) == Get(docs[i], q))
  {
    var s := ValidSeed(seed, plan).value;
    ProgramGiven(s, plan);
    UpdatedAgrees(s, docs, Program(plan));
    UpdatedSize(s, docs, Program(plan));
    forall d: Json, q: Path
      ensures AgreesAlong(d, s, Program(plan)) <==> Agrees(d, s, plan)
      ensures (forall p :: p in Program(plan) ==> Apart(p, q)) <==> Unmanaged(q, plan)
    {
      ProgramCovers(d, s, plan, q);
    }
    if forall i :: 0 <= i < |docs| ==> Apply(s, docs[i], Program(plan)).Some? {
      UpdatedKeeps(s, docs, Program(plan));
    }
    hide Updated;
    hide Apply;
    hide Program;
    hide Apart;
    hide Unmanaged;
    hide Agrees;
  }

  /** The managed values are in the file: it has a document, and every document holds them. */
  ghost predicate Managed(file: Option<File>, seed: Json, plan: Plan)
  {
    && file.Some? && file.value.Documents? && file.value.docs != []
    && forall d :: d in file.value.docs ==> Agrees(d, seed, plan)
  }

  /** A success puts the managed values into an existing file exactly if the file had a document. */
  lemma ManagedIff(docs: seq<Json>, seed: SeedFile, plan: Plan, r: Reporting)
    requires Reconciled(Some(Documents(docs)), seed, plan, r).1
    ensures ValidSeed(seed, plan).Some?
    ensures Managed(Reconciled(Some(Documents(docs)), seed, plan, r).0, ValidSeed(seed, plan).value, plan) <==> docs != []
  {
    var s := ValidSeed(seed, plan).value;
    ReconciledValues(docs, seed, plan, r);
    if docs != [] {
      var last := |docs| - 1;
      assert Apply(s, docs[last], Program(plan)).Some?;
      UpdatedAppend(s, docs[..last], docs[last], Program(plan));
      assert docs[..last] + [docs[last]] == docs;
    }
  }

  /** An empty state file is replaced by an empty one, and that counts as a success. */
  lemma EmptyStateStaysEmpty(seed: SeedFile, plan: Plan, r: Reporting)
    requires ValidSeed(seed, plan).Some?
    ensures Reconciled(Some(Documents([])), seed, plan, r) == (Some(Documents([])), true)
    ensures !Managed(Reconciled(Some(Documents([])), seed, plan, r).0, ValidSeed(seed, plan).value, plan)
  {
  }

  /** Exactly when the step succeeds on an existing state file; otherwise the file is untouched. */
  lemma ReconciledIff(state: File, seed: SeedFile, plan: Plan, r: Reporting)
    ensures Reconciled(Some(state), seed, plan, r).1 <==>
              && ValidSeed(seed, plan).Some? && state.Documents?
              && forall j :: 0 <= j < |state.docs| && (r.AnyError? || j == |state.docs| - 1) ==>
                   forall i :: 0 <= i <= |plan.managed| ==> Reaches(state.docs[j], [[plan.field]] + plan.managed, i)
    ensures !Reconciled(Some(state), seed, plan, r).1 ==> Reconciled(Some(state), seed, plan, r).0 == Some(state)
  {
    if ValidSeed(seed, plan).Some? && state.Documents? {
      var s := ValidSeed(seed, plan).value;
      ProgramGiven(s, plan);
      forall j | 0 <= j < |state.docs|
        ensures Apply(s, state.docs[j], Program(plan)).Some? <==>
                  forall i :: 0 <= i < |Program(plan)| ==> Reaches(state.docs[j], Program(plan), i)
      {
        ApplySucceedsIff(s, state.docs[j], Program(plan));
      }
      hide Apply;
      hide Reaches;
      hide Program;
      assert state.docs != [] ==> 0 <= |state.docs| - 1 < |state.docs|;
    }
  }

  lemma {:induction false} UpdatingAgain(seed: Json, docs: seq<Json>, paths: seq<Path>)
    requires AllGiven(seed, paths) && forall d :: d in docs ==> AgreesAlong(d, seed, paths)
    ensures Updated(seed, docs, paths) == docs
    ensures forall i :: 0 <= i < |docs| ==> Apply(seed, docs[i], paths) == Some(docs[i])
  {
    if docs != [] {
      assert docs[0] in docs;
      ApplyToAgreed(seed, docs[0], paths);
      UpdatingAgain(seed, docs[1..], paths);
      assert docs == [docs[0]] + docs[1..];
    }
  }

  lemma AgreedIsFixed(docs: seq<Json>, seed: SeedFile, plan: Plan, r: Reporting)
    requires ValidSeed(seed, plan).Some? && forall d :: d in docs ==> Agrees(d, ValidSeed(seed, plan).value, plan)
    ensures Reconciled(Some(Documents(docs)), seed, plan, r) == (Some(Documents(docs)), true)
  {
    var s := ValidSeed(seed, plan).value;
    ProgramGiven(s, plan);
    forall d | d in docs
      ensures AgreesAlong(d, s, Program(plan))
    {
      ProgramCovers(d, s, plan, []);
    }
    UpdatingAgain(s, docs, Program(plan));
  }

  /** A second run leaves the file as the first left it, whatever state, seed and plan; after a success it
      succeeds exactly if the seed is valid. */
  lemma ReconcilingAgainChangesNothing(state: Option<File>, seed: SeedFile, plan: Plan, r: Reporting)
    ensures var first := Reconciled(state, seed, plan, r);
            var second := Reconciled(first.0, seed, plan, r);
            && second.0 == first.0
            && (first.1 ==> (second.1 <==> ValidSeed(seed, plan).Some?))
  {
    var first := Reconciled(state, seed, plan, r);
    if ValidSeed(seed, plan).Some? && first.1 {
      if state.Some? {
        ReconciledValues(state.value.docs, seed, plan, r);
      }
      AgreedIsFixed(first.0.value.docs, seed, plan, r);
    }
  }

  /** A first installation succeeds whatever the seed is; the next run then refuses an invalid one. */
  lemma FirstInstallationIsUnchecked(plan: Plan, r: Reporting)
    ensures Reconciled(None, Documents([Null]), plan, r) == (Some(Documents([Null])), true)
    ensures Reconciled(Some(Documents([Null])), Documents([Null]), plan, r) == (Some(Documents([Null])), false)
  {
    assert Get(Null, [plan.field]) == Some(Null);
  }
}
