/**
 * The cache under the request machine: the dispatches that use it are those the coordinator has
 * registered, so the limit its theorems need is the one the machine keeps.
 */
module IdempotencyDispatch {
  import opened Base
  import opened Tables
  import opened Dispatch
  import DispatchFrame
  import DispatchOrder
  import Idempotency

  datatype Joint = Joint(agent: Agent, log: Idempotency.Logged)

  datatype Move = AgentMove(action: Action) | CacheMove(call: Idempotency.Call)

  /**
   * A step of the machine, which may register or unregister dispatches but unregisters none that
   * still owns a reservation object; or a call on the cache by a registered dispatch.
   */
  ghost predicate JointStep(j: Joint, m: Move, k: Joint) {
    match m
    case AgentMove(a) =>
      && Step(j.agent, a, k.agent)
      && j.log.holds.Keys <= RegisteredKeys(k.agent)
      && k.log == j.log.(registered := RegisteredKeys(k.agent))
    case CacheMove(call) =>
      && !call.EnterCall? && !call.ExitCall? && Idempotency.Legal(j.log, call)
      && k == Joint(j.agent, Idempotency.Next(j.log, call))
  }

  ghost predicate Follows(states: seq<Joint>, moves: seq<Move>, i: nat)
    requires i < |moves| && |states| == |moves| + 1
  {
    JointStep(states[i], moves[i], states[i + 1])
  }

  ghost predicate IsJointRun(states: seq<Joint>, moves: seq<Move>) {
    && |states| == |moves| + 1 && Init(states[0].agent) && states[0].log == Idempotency.START
    && (forall i :: 0 <= i < |moves| ==> Follows(states, moves, i))
  }

  ghost predicate JointOk(j: Joint) {
    && DispatchFrame.Shape(j.agent) && Idempotency.LoggedOk(j.log)
    && j.log.registered == RegisteredKeys(j.agent)
  }

  lemma AgentMoveKeeps(j: Joint, a: Action, k: Joint)
    requires JointOk(j) && JointStep(j, AgentMove(a), k)
    ensures JointOk(k)
  {
    DispatchFrame.StepGrows(j.agent, a, k.agent);
    DispatchOrder.StepRegisters(j.agent, a, k.agent);
    DispatchOrder.OneMoreFits(RegisteredKeys(j.agent), RegisteredKeys(k.agent));
    Idempotency.ReregisterKeeps(j.log, RegisteredKeys(k.agent));
  }

  lemma CacheCallKeepsRegistered(s: Idempotency.Logged, call: Idempotency.Call)
    requires Idempotency.Legal(s, call) && !call.EnterCall? && !call.ExitCall?
    ensures Idempotency.Next(s, call).registered == s.registered
  {
  }

  lemma CacheMoveKeeps(j: Joint, call: Idempotency.Call, k: Joint)
    requires JointOk(j) && JointStep(j, CacheMove(call), k)
    ensures JointOk(k)
  {
    Idempotency.NextKeeps(j.log, call);
    CacheCallKeepsRegistered(j.log, call);
  }

  lemma InitOk(j: Joint)
    requires Init(j.agent) && j.log == Idempotency.START
    ensures JointOk(j)
  {
    DispatchOrder.InitHistory(j.agent);
    assert RegisteredKeys(j.agent) == {};
  }

  lemma NextOk(states: seq<Joint>, moves: seq<Move>, i: nat)
    requires IsJointRun(states, moves) && i < |moves| && JointOk(states[i])
    ensures JointOk(states[i + 1])
  {
    assert Follows(states, moves, i);
    match moves[i]
    case AgentMove(a) => AgentMoveKeeps(states[i], a, states[i + 1]);
    case CacheMove(call) => CacheMoveKeeps(states[i], call, states[i + 1]);
  }

  lemma {:induction false} JointRunsKeep(states: seq<Joint>, moves: seq<Move>, n: nat)
    requires IsJointRun(states, moves) && n < |states|
    ensures JointOk(states[n])
  {
    if n == 0 {
      InitOk(states[0]);
    } else {
      JointRunsKeep(states, moves, n - 1);
      NextOk(states, moves, n - 1);
    }
  }

  /**
   * In every interleaving of the machine and the cache, no reservation finds the cache full, no
   * completion meets an internal error, and no two dispatches ever own one key.
   */
  lemma JointCache(states: seq<Joint>, moves: seq<Move>, n: nat)
    requires IsJointRun(states, moves) && n < |moves|
    ensures Idempotency.Sound(states[n].log) && states[n].log.registered == RegisteredKeys(states[n].agent)
    ensures moves[n].CacheMove? ==>
              Idempotency.Legal(states[n].log, moves[n].call) && Idempotency.Smooth(states[n].log, moves[n].call)
  {
    JointRunsKeep(states, moves, n);
    Idempotency.OkIsSound(states[n].log);
    if moves[n].CacheMove? {
      assert Follows(states, moves, n);
      Idempotency.NextKeeps(states[n].log, moves[n].call);
    }
  }

  /** And every outcome with fewer than 992 newer ones since the last clearing still answers. */
  lemma JointSurvival(states: seq<Joint>, moves: seq<Move>, n: nat, i: nat, fingerprint: nat)
    requires IsJointRun(states, moves) && n < |states| && i < |states[n].log.log|
    requires |states[n].log.log| - (i + 1) < Idempotency.MAX_RESULTS - MAX_IN_FLIGHT_GLOBAL
    ensures Idempotency.Replays(states[n].log, i, fingerprint)
  {
    JointRunsKeep(states, moves, n);
    assert Idempotency.Remembers(states[n].log.cache.cached, states[n].log.log[i]);
  }
}
