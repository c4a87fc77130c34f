/** Creating the agent repository from the first inbound bundle. */
module GitHandoff {
  import opened Wrappers
  import opened Commits
  import opened Lifecycle

  /** A Git directory under construction: its branches, its HEAD and its configuration. */
  datatype Partial = Partial(refs: map<string, Commit>, head: Option<string>, config: set<string>)

  /** The commands of an initialisation, in order; the environment may let any one of them fail. */
  datatype Command = Mkdir | Init | Verify | Fetch | SwitchBranch | ConfigName | ConfigEmail | ConfigSign | RevParse

  predicate Fails(broken: Option<Command>, c: Command)
  {
    broken.Some? && broken.value == c
  }

  const SETTINGS: set<string> := {"user.name", "user.email", "commit.gpgSign"}

  class Handoff {
    var agent: Option<Partial>
    var inbound: map<string, Commit>

    /** The body of the `try`: each command works on the directory left by the one before. */
    method Build(bundle: string, createdFrom: Commit, broken: Option<Command>) returns (r: Result<Commit, Fault>)
      requires agent.None? && bundle in inbound
      modifies this`agent
      ensures r.Success? ==> broken.None? && r.value == createdFrom == inbound[bundle]
      ensures r.Success? ==>
                agent == Some(Partial(map[INTEGRATION_BRANCH := createdFrom], Some(INTEGRATION_BRANCH), SETTINGS))
      ensures r.Failure? ==> broken.Some? || inbound[bundle] != createdFrom
      ensures r == Failure(Rejected) <==> broken.None? && inbound[bundle] != createdFrom
    {
      if Fails(broken, Mkdir) {
        return Failure(Internal);
      }
      agent := Some(Partial(map[], None, {}));
      if Fails(broken, Init) || Fails(broken, Verify) || Fails(broken, Fetch) {
        return Failure(Internal);
      }
      agent := Some(agent.value.(refs := map[INTEGRATION_BRANCH := inbound[bundle]]));
      if Fails(broken, SwitchBranch) {
        return Failure(Internal);
      }
      agent := Some(agent.value.(head := Some(INTEGRATION_BRANCH)));
      if Fails(broken, ConfigName) {
        return Failure(Internal);
      }
      agent := Some(agent.value.(config := agent.value.config + {"user.name"}));
      if Fails(broken, ConfigEmail) {
        return Failure(Internal);
      }
      agent := Some(agent.value.(config := agent.value.config + {"user.email"}));
      if Fails(broken, ConfigSign) {
        return Failure(Internal);
      }
      agent := Some(agent.value.(config := agent.value.config + {"commit.gpgSign"}));
      if broken.Some? && broken.value.RevParse? {
        return Failure(Internal);
      }
      var head := agent.value.refs[INTEGRATION_BRANCH];
      if head != createdFrom {
        return Failure(Rejected);
      }
      assert {} + {"user.name"} + {"user.email"} + {"commit.gpgSign"} == SETTINGS;
      r := Success(head);
    }

    /** Succeeds exactly on a fresh project whose bundle carries the expected commit and whose commands all
        work; then the bundle is consumed.  Any failure removes what was built, leaves an existing
        repository alone, and keeps the bundle. */
    method InitializeAgentRepository(bundle: string, createdFrom: Commit, broken: Option<Command>) returns (r: Result<Commit, Fault>)
      modifies this
      ensures r.Success? <==>
                old(agent).None? && bundle in old(inbound) && broken.None? && old(inbound)[bundle] == createdFrom
      ensures r.Success? ==>
                && r.value == createdFrom && inbound == old(inbound) - {bundle}
                && agent == Some(Partial(map[INTEGRATION_BRANCH := createdFrom], Some(INTEGRATION_BRANCH), SETTINGS))
      ensures r.Failure? ==> agent == old(agent) && inbound == old(inbound)
    {
      if bundle !in inbound {
        return Failure(Internal);
      }
      if agent.Some? {
        return Failure(Rejected);
      }
      r := Build(bundle, createdFrom, broken);
      if r.Failure? {
        agent := None;
        return;
      }
      inbound := inbound - {bundle};
    }
  }
}
