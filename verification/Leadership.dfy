/** The leader map of the chain as the federation uses it. */
module Leadership {
  import opened Types
  import opened Decisions
  import opened Election
  import opened Federation
  import opened Exclusion
  import Pallet

  // ---------- reads ----------

  lemma StepKeepsSourced(f: Fed, step: Step)
    requires EventSourced(f.chain) && Enabled(f, step)
    ensures EventSourced(Next(f, step).chain)
  {
    match step
    case Outside(tx) => StepKeepsEventSourced(f.chain, Pallet.Submit(tx));
    case Land(x) => StepKeepsEventSourced(f.chain, Pallet.Submit(f.pool[x].tx));
    case NewBlocks(d) => StepKeepsEventSourced(f.chain, Pallet.Advance(d));
    case _ =>
  }

  lemma {:induction false} RunKeepsSourced(trace: seq<Fed>, steps: seq<Step>, n: nat)
    requires IsRun(trace, steps) && n <= |steps|
    ensures EventSourced(trace[n].chain)
  {
    if n > 0 {
      RunKeepsSourced(trace, steps, n - 1);
      StepKeepsSourced(trace[n - 1], steps[n - 1]);
    } else {
      ReplayGivesLeaders([]);
    }
  }

  /** Reading the leader and the led flag of a group at the latest moment reads the two storage items. */
  lemma LatestReadIsStorage(trace: seq<Fed>, steps: seq<Step>, n: nat, g: GroupId)
    requires IsRun(trace, steps) && n <= |steps|
    ensures var s := trace[n].chain;
            && LeaderRead(s.log, |s.log|, g) == Lookup(s.leaders, g).GetOr(DEFAULT_ACCOUNT)
            && (LeaderAfter(s.log[..|s.log|], g).Some? <==> Lookup(s.leadedGroup, g).GetOr(false))
  {
    RunKeepsSourced(trace, steps, n);
    var s := trace[n].chain;
    assert s.log[..|s.log|] == s.log;
    assert Sourced(s, g);
  }

  // ---------- only configured nodes lead ----------

  /** The account is the key of a node with a service that is configured for the group. */
  ghost predicate Configured(f: Fed, a: AccountId, g: GroupId) {
    exists i :: 0 <= i < |f.members| && Serves(f.members[i].node, a, g)
  }

  predicate Serves(n: Node, a: AccountId, g: GroupId) {
    n.key == a && n.group == g && n.role.Operator?
  }

  /** If the transaction takes leadership, its sender is configured for it. */
  ghost predicate MayTake(f: Fed, tx: Pallet.Tx) {
    tx.call.SetLeader? ==> Configured(f, tx.sender, tx.call.group)
  }

  ghost predicate TakersConfigured(f: Fed) {
    && (forall q :: 0 <= q < |f.chain.log| && f.chain.log[q].NewLeader? ==>
          Configured(f, f.chain.log[q].who, f.chain.log[q].group))
    && (forall i :: 0 <= i < |f.members| && f.members[i].node.role.NoService? ==> f.members[i].tasks == map[])
    && (forall x :: x in f.pool ==> MayTake(f, f.pool[x].tx))
  }

  lemma ConfiguredStays(f: Fed, step: Step, a: AccountId, g: GroupId)
    requires Enabled(f, step) && Configured(f, a, g)
    ensures Configured(Next(f, step), a, g)
  {
    var i :| 0 <= i < |f.members| && Serves(f.members[i].node, a, g);
    StepKeepsNodes(f, step, i);
    assert Serves(Next(f, step).members[i].node, a, g);
  }

  /** The transaction does not take leadership past the orchestrators. */
  predicate NoOutsideTake(step: Step) {
    step.Outside? ==> !step.tx.call.SetLeader?
  }

  lemma StepKeepsConfigured(f: Fed, step: Step)
    requires TakersConfigured(f) && Enabled(f, step) && NoOutsideTake(step)
    ensures TakersConfigured(Next(f, step))
  {
    var g := Next(f, step);
    forall q | 0 <= q < |g.chain.log| && g.chain.log[q].NewLeader?
      ensures Configured(g, g.chain.log[q].who, g.chain.log[q].group)
    {
      TakerConfigured(f, step, q);
      ConfiguredStays(f, step, g.chain.log[q].who, g.chain.log[q].group);
    }
    forall x | x in g.pool
      ensures MayTake(g, g.pool[x].tx)
    {
      PoolMayTake(f, step, x);
    }
    StepKeepsIdle(f, step);
  }

  lemma TakerConfigured(f: Fed, step: Step, q: nat)
    requires TakersConfigured(f) && Enabled(f, step) && NoOutsideTake(step)
    requires q < |Next(f, step).chain.log| && Next(f, step).chain.log[q].NewLeader?
    ensures Configured(f, Next(f, step).chain.log[q].who, Next(f, step).chain.log[q].group)
  {
    StepGrowsLog(f, step);
    if q < |f.chain.log| {
      assert Next(f, step).chain.log[q] == f.chain.log[q];
    } else {
      assert q == |f.chain.log|;
      NewTakerConfigured(f, step);
    }
  }

  lemma NewTakerConfigured(f: Fed, step: Step)
    requires TakersConfigured(f) && Enabled(f, step) && NoOutsideTake(step)
    requires |Next(f, step).chain.log| == |f.chain.log| + 1 && Next(f, step).chain.log[|f.chain.log|].NewLeader?
    ensures var e := Next(f, step).chain.log[|f.chain.log|]; Configured(f, e.who, e.group)
  {
    match step
    case Outside(tx) => StepOnLog(f.chain, Pallet.Submit(tx));
    case Land(x) =>
      StepOnLog(f.chain, Pallet.Submit(f.pool[x].tx));
      assert MayTake(f, f.pool[x].tx);
    case _ =>
  }

  /** Only nodes with a service have tasks, and tasks take leadership of the node's own group only. */
  lemma PoolMayTake(f: Fed, step: Step, x: nat)
    requires TakersConfigured(f) && Enabled(f, step) && x in Next(f, step).pool
    ensures MayTake(Next(f, step), Next(f, step).pool[x].tx)
  {
    var tx := Next(f, step).pool[x].tx;
    if tx.call.SetLeader? {
      if step.Own? && Sends(f, step.i, step.s).Some? && x == f.tickets {
        assert Serves(f.members[step.i].node, tx.sender, tx.call.group);
      } else {
        assert MayTake(f, f.pool[x].tx);
      }
      ConfiguredStays(f, step, tx.sender, tx.call.group);
    }
  }

  /** Nodes without service never have a task. */
  lemma StepKeepsIdle(f: Fed, step: Step)
    requires Enabled(f, step)
    requires forall i :: 0 <= i < |f.members| && f.members[i].node.role.NoService? ==> f.members[i].tasks == map[]
    ensures var g := Next(f, step);
            forall i :: 0 <= i < |g.members| && g.members[i].node.role.NoService? ==> g.members[i].tasks == map[]
  {
    var g := Next(f, step);
    StepOnMembers(f, step);
    forall i | 0 <= i < |g.members| && g.members[i].node.role.NoService?
      ensures g.members[i].tasks == map[]
    {
      StepKeepsNodes(f, step, i);
      assert f.members[i].tasks == map[];
    }
  }

  lemma {:induction false} RunKeepsConfigured(trace: seq<Fed>, steps: seq<Step>, n: nat)
    requires IsRun(trace, steps) && n <= |steps|
    requires forall k :: 0 <= k < |steps| ==> NoOutsideTake(steps[k])
    ensures TakersConfigured(trace[n])
  {
    if n > 0 {
      RunKeepsConfigured(trace, steps, n - 1);
      StepKeepsConfigured(trace[n - 1], steps[n - 1]);
    }
  }

  /** If leadership is only taken by the orchestrators, the leader of a group is at all times a node with a
      service that is configured for that group, also when a take lands after its sender has been told that it
      failed, or has been restarted. */
  lemma LeaderIsConfigured(trace: seq<Fed>, steps: seq<Step>, n: nat, g: GroupId)
    requires IsRun(trace, steps) && n <= |steps|
    requires forall k :: 0 <= k < |steps| ==> NoOutsideTake(steps[k])
    requires g in trace[n].chain.leaders
    ensures Configured(trace[n], trace[n].chain.leaders[g], g)
  {
    RunKeepsConfigured(trace, steps, n);
    RunKeepsSourced(trace, steps, n);
    var s := trace[n].chain;
    assert Sourced(s, g);
    LeaderIsLastTaker(s.log, g);
    assert s.log[LastTake(s.log, g)].NewLeader?;
  }
}
