/** What the validation of specs rules out, and what it lets through. */
module ValidationLaws {
  import opened Ids
  import opened Instances
  import opened Deployments
  import opened RolloutMath
  import opened RolloutController
  import opened Rollouts
  import opened RollingRuns
  import opened Applications

  /** Which accepted specs have slack: those of rolling updates always; every other kind that is not immediate is
      rolled just the same, but may have no slack. */
  lemma AcceptedIsLiveIff(spec: AppSpec)
    requires ValidSpec(spec) && !IsImmediate(spec) && ParamsOf(spec).Sane()
    ensures Live(ParamsOf(spec))
            <==> spec.strategy.value.kind.RollingUpdate? || spec.replicas == 0
                 || spec.strategy.value.maxSurge + spec.strategy.value.maxUnavailable > 0
  {
  }

  /** A spec that is accepted, with the defaults too, and rolled without slack: its kind is none the program
      knows. */
  function Unslack(kind: string): AppSpec {
    AppSpec(1, Some(Strategy(OtherKind(kind), 0, 0)), None, Container("image", [], [], map[]))
  }

  lemma UnslackIsAccepted(kind: string)
    ensures var spec := Unslack(kind);
            && ValidSpec(spec) && WithDefaults(spec) == spec
            && !IsImmediate(spec) && ParamsOf(spec).Sane() && !Live(ParamsOf(spec))
  {
  }

  /** One ready old instance and an accepted update of that kind. */
  function UnslackRollout(app: Id, active: Id, previous: Id, inst: Id, node: Id, exec: Id, kind: string): State {
    var s := OneToReplace(app, active, previous, inst, node, exec);
    s.(deployments := s.deployments[active := s.deployments[active].(spec := Unslack(kind))])
  }

  /** It never moves: on every run the old instance stays and no new one is created. */
  lemma UnslackNeverRolls(run: seq<State>, app: Id, active: Id, previous: Id, inst: Id, node: Id, exec: Id, kind: string, k: nat)
    requires NO_ID !in {active, previous, inst, node, exec} && active != previous
    requires RunOf(run, Rollout(app, active, Params(1, 0, 0))) && k < |run|
    requires run[0] == UnslackRollout(app, active, previous, inst, node, exec, kind)
    ensures var r := Rollout(app, active, Params(1, 0, 0));
            && CountsAt(run[k], r).activeViable == 0 && CountsAt(run[k], r).oldViable == 1
            && !StatusAt(run[k], r).RolloutCompleted?
  {
    UnslackIsStuck(app, active, previous, inst, node, exec, kind);
    StuckForever(run, Rollout(app, active, Params(1, 0, 0)), previous, k);
  }

  lemma UnslackIsStuck(app: Id, active: Id, previous: Id, inst: Id, node: Id, exec: Id, kind: string)
    requires NO_ID !in {active, previous, inst, node, exec} && active != previous
    ensures Stuck(UnslackRollout(app, active, previous, inst, node, exec, kind), Rollout(app, active, Params(1, 0, 0)), previous)
  {
    var s, r := UnslackRollout(app, active, previous, inst, node, exec, kind), Rollout(app, active, Params(1, 0, 0));
    OneToReplaceRolls(app, active, previous, inst, node, exec);
    assert s.instances == OneToReplace(app, active, previous, inst, node, exec).instances;
    assert CountsAt(s, r) == CountsAt(OneToReplace(app, active, previous, inst, node, exec), Rollout(app, active, Params(1, 0, 1)));
    assert AppDeps(s.deployments, app) == {active, previous};
  }
}
