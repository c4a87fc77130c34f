/** The canonical text of a policy, the input of its fingerprint. */
module PolicySerialization {
  import opened Wrappers
  import opened Json
  import opened PolicySchema

  /** The policy's only number that need not be an integer has a text. */
  ghost predicate HasCpuText(p: Policy, ft: FloatTable)
  {
    Whole(p.cpu) || p.cpu in ft
  }

  ghost function CanonicalPolicyJson(p: Policy, ft: FloatTable): string
  {
    Print(AsDict(p), ft)
  }

  /** Reading a canonical text as a policy. */
  ghost function ReadPolicy(t: string, ft: FloatTable): Option<Policy>
  {
    var v := Parse(t, ft);
    if v.None? || v.value.1 != "" then None else FromDict(v.value.0)
  }

  lemma SectionsPrintable(p: Policy, ft: FloatTable)
    requires HasCpuText(p, ft)
    ensures Printable(Obj(map["access" := Str(p.workspace)]), ft) && Printable(Obj(map["access" := Str(p.reference)]), ft)
    ensures Printable(Obj(map["external" := Str(p.external)]), ft)
    ensures Printable(Obj(map["required" := Bool(p.sandboxRequired)]), ft)
    ensures Printable(GitDict(p), ft) && Printable(ResourcesDict(p), ft)
  {
  }

  lemma NestedPrintable(p: Policy, ft: FloatTable)
    ensures Printable(NetworkDict(p), ft) && Printable(CredentialsDict(p), ft)
  {
    assert Printable(Strings(p.destinations), ft);
    assert Printable(NetworkDict(p).fields["task_shell"], ft);
    assert Printable(CredentialsDict(p).fields["provider_auth"], ft);
  }

  lemma DictPrintable(p: Policy, ft: FloatTable)
    requires HasCpuText(p, ft)
    ensures Printable(AsDict(p), ft)
  {
    SectionsPrintable(p, ft);
    NestedPrintable(p, ft);
    hide NetworkDict;
    hide CredentialsDict;
    hide GitDict;
    hide ResourcesDict;
    TopLookup(Int(p.version), Obj(map["access" := Str(p.workspace)]), Obj(map["access" := Str(p.reference)]),
              Obj(map["external" := Str(p.external)]), NetworkDict(p), CredentialsDict(p), GitDict(p),
              Obj(map["required" := Bool(p.sandboxRequired)]), ResourcesDict(p), Str(p.securityClass));
    forall k | k in AsDict(p).fields
      ensures Printable(AsDict(p).fields[k], ft)
    {
      assert k in TopFields();
    }
  }

  /** Every valid policy is read back from its canonical text, whatever its destination strings contain. */
  lemma CanonicalRoundTrip(p: Policy, ft: FloatTable)
    requires Valid(p) && FaithfulFloats(ft) && HasCpuText(p, ft)
    ensures ReadPolicy(CanonicalPolicyJson(p, ft), ft) == Some(p)
  {
    hide FromDict;
    hide AsDict;
    hide Print;
    hide Parse;
    hide Valid;
    DictPrintable(p, ft);
    ParsePrint(AsDict(p), "", ft);
    assert Print(AsDict(p), ft) + "" == Print(AsDict(p), ft);
    DictRoundTrip(p);
  }

  /** Two policies have the same canonical text exactly when they are the same policy. */
  lemma SameTextIffSamePolicy(p: Policy, q: Policy, ft: FloatTable)
    requires Valid(p) && Valid(q) && FaithfulFloats(ft) && HasCpuText(p, ft) && HasCpuText(q, ft)
    ensures CanonicalPolicyJson(p, ft) == CanonicalPolicyJson(q, ft) <==> p == q
  {
    hide CanonicalPolicyJson;
    hide ReadPolicy;
    CanonicalRoundTrip(p, ft);
    CanonicalRoundTrip(q, ft);
  }
}
