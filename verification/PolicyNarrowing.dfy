/** The narrowing check dimension by dimension, with the values written out. */
module PolicyNarrowing {
  import opened Wrappers
  import opened Text
  import opened Json
  import opened PolicySchema
  import opened PolicyResolver

  /** In this dimension lower grants no more than upper. */
  ghost predicate Within(upper: Policy, lower: Policy, leaf: Leaf)
  {
    match leaf
    case Version => lower.version == upper.version
    case WorkspaceAccess =>
      (lower.workspace == "write" ==> upper.workspace == "write") && (upper.workspace == "none" ==> lower.workspace == "none")
    case ReferenceAccess => upper.reference == "none" ==> lower.reference == "none"
    case External =>
      (lower.external == "write" ==> upper.external == "write") && (upper.external == "deny" ==> lower.external == "deny")
    case Mode => (lower.mode == "allow" ==> upper.mode == "allow") && (upper.mode == "deny" ==> lower.mode == "deny")
    case Destinations =>
      upper.mode == "allowlist" && lower.mode == "allowlist" ==> forall d :: d in lower.destinations ==> d in upper.destinations
    case Auth => lower.auth == "allow" ==> upper.auth == "allow"
    case GitRead => lower.gitRead ==> upper.gitRead
    case GitCommit => lower.gitCommit ==> upper.gitCommit
    case GitPush => lower.gitPush ==> upper.gitPush
    case SandboxRequired => upper.sandboxRequired ==> lower.sandboxRequired
    case Cpu => lower.cpu <= upper.cpu
    case Memory => lower.memory <= upper.memory
    case Pids => lower.pids <= upper.pids
    case SecurityClass => upper.securityClass == "hardened" ==> lower.securityClass == "hardened"
  }

  /** The order in which the dimensions are checked. */
  function Turn(leaf: Leaf): nat
  {
    match leaf
    case Version => 0
    case WorkspaceAccess => 1
    case ReferenceAccess => 2
    case External => 3
    case Mode => 4
    case Destinations => 5
    case Auth => 6
    case GitRead => 7
    case GitCommit => 8
    case GitPush => 9
    case SandboxRequired => 10
    case Cpu => 11
    case Memory => 12
    case Pids => 13
    case SecurityClass => 14
  }

  /** Ranks in an order of three values, compared. */
  lemma ThreeMean(a: string, b: string, c: string, upper: string, lower: string)
    requires a != b && a != c && b != c && upper in {a, b, c} && lower in {a, b, c}
    ensures Rank([a, b, c], lower) <= Rank([a, b, c], upper) <==> (lower == c ==> upper == c) && (upper == a ==> lower == a)
  {
    ThreeRanks(a, b, c);
    hide Rank;
  }

  lemma ThreeRanks(a: string, b: string, c: string)
    requires a != b && a != c && b != c
    ensures Rank([a, b, c], a) == 0 && Rank([a, b, c], b) == 1 && Rank([a, b, c], c) == 2
  {
    assert [a, b, c][1..] == [b, c] && [b, c][1..] == [c];
    assert Rank([a, b, c], c) == 1 + Rank([b, c], c) && Rank([b, c], c) == 1 + Rank([c], c) && Rank([c], c) == 0;
  }

  /** Ranks in an order of two values, compared. */
  lemma TwoMean(a: string, b: string, upper: string, lower: string)
    requires a != b && upper in {a, b} && lower in {a, b}
    ensures Rank([a, b], lower) <= Rank([a, b], upper) <==> (upper == a ==> lower == a)
    ensures Rank([a, b], lower) >= Rank([a, b], upper) <==> (upper == b ==> lower == b)
  {
    assert [a, b][1..] == [b];
    assert Rank([a, b], a) == 0 && Rank([a, b], b) == 1;
    hide Rank;
  }

  /** The comparison the check makes in a dimension. */
  ghost predicate Compared(upper: Policy, lower: Policy, leaf: Leaf)
  {
    match leaf
    case Version => lower.version == upper.version
    case WorkspaceAccess => Rank(ACCESS_ORDER, lower.workspace) <= Rank(ACCESS_ORDER, upper.workspace)
    case ReferenceAccess => Rank(REFERENCE_ORDER, lower.reference) <= Rank(REFERENCE_ORDER, upper.reference)
    case External => Rank(FILESYSTEM_ORDER, lower.external) <= Rank(FILESYSTEM_ORDER, upper.external)
    case Mode => Rank(NETWORK_ORDER, lower.mode) <= Rank(NETWORK_ORDER, upper.mode)
    case Destinations =>
      upper.mode == "allowlist" && lower.mode == "allowlist" ==> Elements(lower.destinations) <= Elements(upper.destinations)
    case Auth => Rank(VISIBILITY_ORDER, lower.auth) <= Rank(VISIBILITY_ORDER, upper.auth)
    case GitRead => lower.gitRead ==> upper.gitRead
    case GitCommit => lower.gitCommit ==> upper.gitCommit
    case GitPush => lower.gitPush ==> upper.gitPush
    case SandboxRequired => upper.sandboxRequired ==> lower.sandboxRequired
    case Cpu => lower.cpu <= upper.cpu
    case Memory => lower.memory <= upper.memory
    case Pids => lower.pids <= upper.pids
    case SecurityClass => Rank(SECURITY_ORDER, lower.securityClass) >= Rank(SECURITY_ORDER, upper.securityClass)
  }

  /** On the values a valid policy can have, the comparisons mean what the dimension says. */
  lemma ComparedMeans(upper: Policy, lower: Policy, leaf: Leaf)
    requires Valid(upper) && Valid(lower)
    ensures Compared(upper, lower, leaf) <==> Within(upper, lower, leaf)
  {
    hide Rank;
    match leaf
    case WorkspaceAccess => ThreeMean("none", "read", "write", upper.workspace, lower.workspace);
    case ReferenceAccess => TwoMean("none", "read", upper.reference, lower.reference);
    case External => ThreeMean("deny", "read", "write", upper.external, lower.external);
    case Mode => ThreeMean("deny", "allowlist", "allow", upper.mode, lower.mode);
    case Destinations => SetsMean(upper.destinations, lower.destinations);
    case Auth => TwoMean("deny", "allow", upper.auth, lower.auth);
    case SecurityClass => TwoMean("compatibility", "hardened", upper.securityClass, lower.securityClass);
    case _ =>
  }

  /** Where a dimension stands in the chain of comparisons. */
  lemma ChainAt(upper: Policy, lower: Policy, leaf: Leaf)
    ensures var found := FirstWidening(upper, lower);
            && (found.None? ==> Compared(upper, lower, leaf))
            && (found == Some(leaf) ==> !Compared(upper, lower, leaf))
            && (found.Some? && Turn(leaf) < Turn(found.value) ==> Compared(upper, lower, leaf))
  {
    hide Rank;
    hide Elements;
  }

  /** The check finds a widening if and only if some dimension is widened, and names the first one. */
  lemma WideningIs(upper: Policy, lower: Policy)
    requires Valid(upper) && Valid(lower)
    ensures FirstWidening(upper, lower).None? <==> forall leaf :: Within(upper, lower, leaf)
    ensures FirstWidening(upper, lower).Some? ==> First(upper, lower, FirstWidening(upper, lower).value)
  {
    hide FirstWidening;
    hide Within;
    hide Compared;
    hide Turn;
    forall leaf: Leaf
      ensures Compared(upper, lower, leaf) <==> Within(upper, lower, leaf)
    {
      ComparedMeans(upper, lower, leaf);
    }
    var found := FirstWidening(upper, lower);
    forall leaf: Leaf
      ensures found.None? ==> Compared(upper, lower, leaf)
      ensures found == Some(leaf) ==> !Compared(upper, lower, leaf)
      ensures found.Some? && Turn(leaf) < Turn(found.value) ==> Compared(upper, lower, leaf)
    {
      ChainAt(upper, lower, leaf);
    }
  }

  /** This dimension is widened, and none that is checked before it. */
  ghost predicate First(upper: Policy, lower: Policy, leaf: Leaf)
  {
    !Within(upper, lower, leaf) && forall other :: Turn(other) < Turn(leaf) ==> Within(upper, lower, other)
  }

  lemma SetsMean(s: seq<string>, t: seq<string>)
    ensures Elements(t) <= Elements(s) <==> forall d :: d in t ==> d in s
  {
    if Elements(t) <= Elements(s) {
      assert forall d :: d in t ==> d in Elements(t);
    }
  }

  /** An accepted resolution grants no more than the baseline in any dimension; with a prefix of the stack
      in the place of the baseline, no more than any intermediate policy. */
  lemma ResolutionWithin(baseline: Policy, first: seq<Option<Json>>, rest: seq<Option<Json>>)
    requires Valid(baseline) && Resolve(baseline, first + rest).Success?
    ensures Resolve(baseline, first).Success?
    ensures forall leaf :: Within(baseline, Resolve(baseline, first + rest).value, leaf)
    ensures forall leaf :: Within(Resolve(baseline, first).value, Resolve(baseline, first + rest).value, leaf)
  {
    ResolutionBelowIntermediate(baseline, first, rest);
    ResolutionNarrows(baseline, first);
    ResolutionNarrows(baseline, first + rest);
    WideningIs(baseline, Resolve(baseline, first + rest).value);
    WideningIs(Resolve(baseline, first).value, Resolve(baseline, first + rest).value);
    hide Resolve;
    hide FirstWidening;
    hide Within;
    hide Valid;
  }

  /** A layer is accepted if and only if it yields a policy that grants no more in any dimension; otherwise the
      first widened dimension is reported, whatever the later ones. */
  lemma LayerAcceptedIff(p: Policy, layer: Json)
    requires Valid(p)
    ensures ApplyLayer(p, layer).Success? <==>
              layer.Obj? && Candidate(p, layer).Success? && forall leaf :: Within(p, Candidate(p, layer).value, leaf)
    ensures ApplyLayer(p, layer).Success? ==> ApplyLayer(p, layer) == Candidate(p, layer)
    ensures ApplyLayer(p, layer) == Failure(NotAMapping) <==> !layer.Obj?
    ensures ApplyLayer(p, layer) == Failure(InvalidLayer) <==> layer.Obj? && Candidate(p, layer).Failure?
    ensures forall leaf :: ApplyLayer(p, layer) == Failure(Escalation(leaf)) <==>
              layer.Obj? && Candidate(p, layer).Success? && First(p, Candidate(p, layer).value, leaf)
  {
    hide FirstWidening;
    hide Within;
    hide First;
    hide Candidate;
    hide Valid;
    if layer.Obj? && Candidate(p, layer).Success? {
      CandidateValid(p, layer);
      Verdict(p, Candidate(p, layer).value);
    } else if layer.Obj? {
      CandidateFails(p, layer);
    }
  }

  lemma Verdict(upper: Policy, lower: Policy)
    requires Valid(upper) && Valid(lower)
    ensures FirstWidening(upper, lower).None? <==> forall leaf :: Within(upper, lower, leaf)
    ensures forall leaf :: FirstWidening(upper, lower) == Some(leaf) <==> First(upper, lower, leaf)
  {
    hide FirstWidening;
    hide Within;
    hide Turn;
    WideningIs(upper, lower);
    forall a, b | First(upper, lower, a) && First(upper, lower, b)
      ensures a == b
    {
      TurnsDiffer(a, b);
    }
  }

  lemma CandidateFails(p: Policy, layer: Json)
    requires layer.Obj? && Candidate(p, layer).Failure?
    ensures Candidate(p, layer) == Failure(InvalidLayer)
  {
  }

  lemma TurnsDiffer(a: Leaf, b: Leaf)
    ensures a != b ==> Turn(a) < Turn(b) || Turn(b) < Turn(a)
  {
  }
}
