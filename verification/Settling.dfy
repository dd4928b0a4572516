/** Why ten seconds are enough: if events reach everyone within the settling time and results are reported
    truthfully, the wait after a take is a guard on every activation, also on those that do not wait. */
module Settling {
  import opened Types
  import opened Decisions
  import opened Tasks
  import opened Election
  import opened Federation
  import opened Exclusion
  import Pallet

  /** What nodes, network and operators keep to. Every event reaches every subscribed node within `delay`
      seconds; and, where the flag is set,
      `truthful`: what a node is told of its take is what became of it,
      `single`: a node begins a task only when it has no other,
      `whole`: a node is not restarted while it has a task,
      `own`: only the node itself takes leadership with its key. */
  datatype Discipline = Discipline(delay: nat, truthful: bool, single: bool, whole: bool, own: bool)

  /** All of it, with the time that a node waits after a take as the delay. */
  const FULL := Discipline(SETTLE_TIME, true, true, true, true)

  predicate ObeysLocal(c: Discipline, m: Member, s: Local) {
    match s
    case Begin(_) => c.single ==> m.tasks == map[]
    case Boot(_, _, _) => c.whole ==> m.tasks == map[]
    case Reply(t, r, _) =>
      c.truthful && t in m.tasks && m.tasks[t].ForTakeResult? && r.ResultReply? ==>
        !m.tasks[t].flight.Pending? && (r.result.Accepted? <==> m.tasks[t].flight == Included(true))
    case _ => true
  }

  /** The clock does not move past the delay of an event that somebody still has to hear. */
  ghost predicate DeliveredBy(f: Fed, time: nat, delay: nat)
    requires |f.stamps| == |f.chain.log|
  {
    forall j, q :: 0 <= j < |f.members| && 0 <= q < |f.stamps| && f.members[j].subscribed &&
                   f.stamps[q] + delay <= time ==>
      q < f.members[j].delivered
  }

  ghost predicate Foreign(f: Fed, a: AccountId) {
    forall i :: 0 <= i < |f.members| ==> f.members[i].node.key != a
  }

  ghost predicate Obeys(c: Discipline, f: Fed, step: Step)
    requires Enabled(f, step)
  {
    |f.stamps| == |f.chain.log| &&
    match step
    case Own(i, s) => ObeysLocal(c, f.members[i], s)
    case Tick(d) => DeliveredBy(f, f.time + d, c.delay)
    case Outside(tx) => c.own && tx.call.SetLeader? ==> Foreign(f, tx.sender)
    case _ => true
  }

  // ---------- every own term is settled, or its task is still waiting for it ----------

  /** A task has not finished waiting after an event with this stamp. */
  predicate WaitsAfter(w: Wait, stamp: nat) {
    (w.ForTakeResult? && w.flight == Included(true)) || (w.ForSettle? && stamp <= w.since)
  }

  ghost predicate StillWaiting(m: Member, stamp: nat) {
    exists t :: t in m.tasks && WaitsAfter(m.tasks[t], stamp)
  }

  predicate IsTermOf(e: Event, n: Node) {
    e == NewLeader(n.key, n.group)
  }

  ghost predicate TermCovered(f: Fed, i: nat, q: nat)
    requires i < |f.members| && q < |f.stamps|
  {
    Settled(f, i, q) || StillWaiting(f.members[i], f.stamps[q])
  }

  ghost predicate TermsCovered(f: Fed)
    requires |f.stamps| == |f.chain.log|
  {
    forall i, q :: 0 <= i < |f.members| && 0 <= q < |f.stamps| && IsTermOf(f.chain.log[q], f.members[i].node) ==>
      TermCovered(f, i, q)
  }

  ghost predicate OneTask(m: Member) {
    forall t, u :: t in m.tasks && u in m.tasks ==> t == u
  }

  /** Whoever has sent a take that is still on its way waits for it. */
  predicate TakeAwaited(members: seq<Member>, ticket: nat, sent: Sent) {
    match sent.origin
    case Beating => sent.tx.call.AddHeartbeat?
    case Taking(t, _, _) =>
      && sent.i < |members| && Awaits(members[sent.i], t, ticket)
      && sent.tx.call.SetLeader? && sent.tx.sender == members[sent.i].node.key
      && sent.tx.call.group == members[sent.i].node.group
  }

  ghost predicate PoolAwaited(f: Fed) {
    forall x :: x in f.pool ==> x < f.tickets && TakeAwaited(f.members, x, f.pool[x])
  }

  /** Tasks wait for transactions that have been sent, and know nothing of those on their way. */
  ghost predicate WaitsKnown(f: Fed, m: Member) {
    forall t :: t in m.tasks && m.tasks[t].ForTakeResult? ==>
      m.tasks[t].ticket < f.tickets && (m.tasks[t].ticket in f.pool ==> m.tasks[t].flight.Pending?)
  }

  ghost predicate Timely(f: Fed) {
    && |f.stamps| == |f.chain.log|
    && (forall q :: 0 <= q < |f.stamps| ==> f.stamps[q] <= f.time)
    && (forall i :: 0 <= i < |f.members| ==> OneTask(f.members[i]) && WaitsKnown(f, f.members[i]))
    && PoolAwaited(f)
  }

  ghost predicate Invariant(f: Fed) {
    Timely(f) && DeliveredBy(f, f.time, SETTLE_TIME) && TermsCovered(f) && AllOk(f) && KeysDistinct(f)
  }

  // ---------- what a step does to those who wait ----------

  /** A member's own step leaves its takes on their way awaited. */
  lemma OwnKeepsAwaited(f: Fed, i: nat, s: Local, x: nat)
    requires Timely(f) && Enabled(f, Own(i, s)) && Obeys(FULL, f, Own(i, s)) && x in f.pool
    ensures TakeAwaited(Next(f, Own(i, s)).members, x, f.pool[x])
  {
    LocalMode(f, f.members[i], s);
    assert TakeAwaited(f.members, x, f.pool[x]);
    if f.pool[x].origin.Taking? && f.pool[x].i == i {
      var m := f.members[i];
      assert OneTask(m) && WaitsKnown(f, m);
    }
  }

  lemma OwnKeepsPool(f: Fed, i: nat, s: Local)
    requires Timely(f) && Enabled(f, Own(i, s)) && Obeys(FULL, f, Own(i, s))
    ensures PoolAwaited(Next(f, Own(i, s)))
  {
    var g := Next(f, Own(i, s));
    forall x | x in g.pool
      ensures x < g.tickets && TakeAwaited(g.members, x, g.pool[x])
    {
      if x in f.pool && x < f.tickets {
        OwnKeepsAwaited(f, i, s, x);
      } else {
        LocalMode(f, f.members[i], s);
      }
    }
  }

  lemma LocalKeepsOneTask(f: Fed, m: Member, s: Local)
    requires CanDo(f, m, s) && ObeysLocal(FULL, m, s) && OneTask(m)
    ensures OneTask(MemberNext(f, m, s))
  {
  }

  lemma LocalKeepsKnown(f: Fed, i: nat, s: Local)
    requires Timely(f) && Enabled(f, Own(i, s)) && ObeysLocal(FULL, f.members[i], s)
    ensures WaitsKnown(Next(f, Own(i, s)), MemberNext(f, f.members[i], s))
  {
    assert WaitsKnown(f, f.members[i]);
  }

  lemma OwnKeepsTasks(f: Fed, i: nat, s: Local, j: nat)
    requires Timely(f) && Enabled(f, Own(i, s)) && Obeys(FULL, f, Own(i, s)) && j < |f.members|
    ensures OneTask(Next(f, Own(i, s)).members[j])
    ensures WaitsKnown(Next(f, Own(i, s)), Next(f, Own(i, s)).members[j])
  {
    assert OneTask(f.members[j]) && WaitsKnown(f, f.members[j]);
    LocalKeepsOneTask(f, f.members[i], s);
    LocalKeepsKnown(f, i, s);
  }

  lemma ToldKeepsTimely(f: Fed, x: nat, flight: Flight)
    requires Timely(f) && x in f.pool
    ensures var g := f.(pool := f.pool - {x}, members := Told(f.members, x, f.pool[x], flight)); Timely(g)
  {
    var g := f.(pool := f.pool - {x}, members := Told(f.members, x, f.pool[x], flight));
    forall y | y in g.pool
      ensures y < g.tickets && TakeAwaited(g.members, y, g.pool[y])
    {
      assert TakeAwaited(f.members, y, f.pool[y]);
    }
    forall j | 0 <= j < |g.members|
      ensures OneTask(g.members[j]) && WaitsKnown(g, g.members[j])
    {
      assert OneTask(f.members[j]) && WaitsKnown(f, f.members[j]);
      assert TakeAwaited(f.members, x, f.pool[x]);
    }
  }

  lemma OnChainKeepsTimely(f: Fed, tx: Pallet.Tx)
    requires Timely(f)
    ensures Timely(OnChain(f, tx))
  {
    StepOnLog(f.chain, Pallet.Submit(tx));
    var g := OnChain(f, tx);
    forall i | 0 <= i < |g.members|
      ensures OneTask(g.members[i]) && WaitsKnown(g, g.members[i])
    {
      assert OneTask(f.members[i]) && WaitsKnown(f, f.members[i]);
    }
  }

  lemma StepKeepsTimely(f: Fed, step: Step)
    requires Timely(f) && Enabled(f, step) && Obeys(FULL, f, step)
    ensures Timely(Next(f, step))
  {
    match step
    case Own(i, s) =>
      OwnKeepsPool(f, i, s);
      forall j | 0 <= j < |f.members|
        ensures OneTask(Next(f, step).members[j]) && WaitsKnown(Next(f, step), Next(f, step).members[j])
      {
        OwnKeepsTasks(f, i, s, j);
      }
    case Land(x) =>
      var included := Included(Pallet.Exec(f.chain, f.pool[x].tx).Ok?);
      ToldKeepsTimely(f, x, included);
      OnChainKeepsTimely(f.(pool := f.pool - {x}, members := Told(f.members, x, f.pool[x], included)), f.pool[x].tx);
    case Lose(x) => ToldKeepsTimely(f, x, Dropped);
    case Outside(tx) => OnChainKeepsTimely(f, tx);
    case _ =>
      forall i | 0 <= i < |f.members|
        ensures OneTask(Next(f, step).members[i]) && WaitsKnown(Next(f, step), Next(f, step).members[i])
      {
        assert OneTask(f.members[i]) && WaitsKnown(f, f.members[i]);
      }
  }

  lemma OutsideAuthor(f: Fed, tx: Pallet.Tx)
    requires |OnChain(f, tx).chain.log| > |f.chain.log|
    ensures var e := OnChain(f, tx).chain.log[|f.chain.log|];
            e.NewLeader? <==> tx.call.SetLeader? && e == NewLeader(tx.sender, tx.call.group)
  {
    StepOnLog(f.chain, Pallet.Submit(tx));
  }

  /** A take that lands with effect is that of a member whose task now knows and has to wait. */
  lemma LandedAuthor(f: Fed, x: nat)
    requires Timely(f) && x in f.pool && |Next(f, Land(x)).chain.log| > |f.chain.log|
    ensures var g := Next(f, Land(x)); var e := g.chain.log[|f.chain.log|];
            e.NewLeader? ==> f.pool[x].i < |g.members| && e.who == f.members[f.pool[x].i].node.key &&
                             StillWaiting(g.members[f.pool[x].i], f.time)
  {
    var sent, g := f.pool[x], Next(f, Land(x));
    OutsideAuthor(f, sent.tx);
    assert TakeAwaited(f.members, x, sent);
    if g.chain.log[|f.chain.log|].NewLeader? {
      StepOnLog(f.chain, Pallet.Submit(sent.tx));
      var t := sent.origin.task;
      assert t in g.members[sent.i].tasks && WaitsAfter(g.members[sent.i].tasks[t], f.time);
    }
  }

  /** A new term of a member is one that a task of it is waiting for. */
  lemma NewTermAwaited(f: Fed, step: Step, i: nat)
    requires Timely(f) && KeysDistinct(f) && Enabled(f, step) && Obeys(FULL, f, step) && i < |f.members|
    requires |Next(f, step).chain.log| > |f.chain.log| && |Next(f, step).members| == |f.members|
    requires IsTermOf(Next(f, step).chain.log[|f.chain.log|], f.members[i].node)
    ensures StillWaiting(Next(f, step).members[i], f.time)
  {
    match step
    case Outside(tx) => OutsideAuthor(f, tx);
    case Land(x) => LandedAuthor(f, x);
    case _ =>
  }

  // ---------- the invariant over a step ----------

  lemma StepKeepsDelivered(f: Fed, step: Step)
    requires Timely(f) && AllOk(f) && DeliveredBy(f, f.time, SETTLE_TIME) && Enabled(f, step) && Obeys(FULL, f, step)
    requires Timely(Next(f, step))
    ensures DeliveredBy(Next(f, step), Next(f, step).time, SETTLE_TIME)
  {
    var g := Next(f, step);
    StepGrowsLog(f, step);
    StepOnMembers(f, step);
    forall j, q | 0 <= j < |g.members| && 0 <= q < |g.stamps| && g.members[j].subscribed &&
                  g.stamps[q] + SETTLE_TIME <= g.time
      ensures q < g.members[j].delivered
    {
      assert q < |f.stamps| && f.stamps[q] == g.stamps[q];
      if step.Own? && step.i == j {
        LocalMode(f, f.members[j], step.s);
      } else {
        assert g.members[j].(tasks := map[]).delivered == f.members[j].delivered;
        assert g.members[j].(tasks := map[]).subscribed == f.members[j].subscribed;
      }
    }
  }

  /** A member's own step gives up waiting for a term only when the term is settled. */
  lemma WaitEndsSettled(f: Fed, i: nat, s: Local, q: nat)
    requires Invariant(f) && Enabled(f, Own(i, s)) && ObeysLocal(FULL, f.members[i], s)
    requires q < |f.stamps| && StillWaiting(f.members[i], f.stamps[q])
    requires !StillWaiting(MemberNext(f, f.members[i], s), f.stamps[q])
    ensures Settled(f, i, q)
  {
    var m, next := f.members[i], MemberNext(f, f.members[i], s);
    assert OneTask(m);
    var t :| t in m.tasks && WaitsAfter(m.tasks[t], f.stamps[q]);
    assert !(t in next.tasks && WaitsAfter(next.tasks[t], f.stamps[q]));
    assert s.Reply? && s.task == t;
    assert m.tasks[t].ForSettle?;
  }

  /** Steps of others do not end the waiting for a take that has landed. */
  lemma OthersKeepWaiting(f: Fed, step: Step, i: nat, stamp: nat)
    requires Timely(f) && Enabled(f, step) && !step.Own? && i < |f.members| && StillWaiting(f.members[i], stamp)
    ensures |Next(f, step).members| == |f.members| && StillWaiting(Next(f, step).members[i], stamp)
  {
    var t :| t in f.members[i].tasks && WaitsAfter(f.members[i].tasks[t], stamp);
    assert WaitsKnown(f, f.members[i]);
    assert t in Next(f, step).members[i].tasks && WaitsAfter(Next(f, step).members[i].tasks[t], stamp);
  }

  lemma OldTermStaysCovered(f: Fed, step: Step, i: nat, q: nat)
    requires Invariant(f) && Enabled(f, step) && Obeys(FULL, f, step) && Timely(Next(f, step))
    requires i < |f.members| && q < |f.stamps| && TermCovered(f, i, q)
    ensures |Next(f, step).members| == |f.members| && q < |Next(f, step).stamps| && TermCovered(Next(f, step), i, q)
  {
    StepOnMembers(f, step);
    StepGrowsLog(f, step);
    if Settled(f, i, q) {
      StepKeepsSettled(f, step, i, q);
    } else if step.Own? && step.i == i {
      if !StillWaiting(Next(f, step).members[i], f.stamps[q]) {
        WaitEndsSettled(f, i, step.s, q);
      }
    } else if !step.Own? {
      OthersKeepWaiting(f, step, i, f.stamps[q]);
    }
  }

  lemma NewTermIsCovered(f: Fed, step: Step, i: nat, q: nat)
    requires Timely(f) && KeysDistinct(f) && Enabled(f, step) && Obeys(FULL, f, step) && i < |f.members|
    requires |Next(f, step).members| == |f.members| && |Next(f, step).stamps| == |Next(f, step).chain.log|
    requires |f.stamps| <= q < |Next(f, step).stamps|
    requires IsTermOf(Next(f, step).chain.log[q], f.members[i].node)
    ensures TermCovered(Next(f, step), i, q)
  {
    StepGrowsLog(f, step);
    assert q == |f.chain.log| && Next(f, step).stamps[q] == f.time;
    NewTermAwaited(f, step, i);
  }

  lemma StepKeepsCovered(f: Fed, step: Step)
    requires Invariant(f) && Enabled(f, step) && Obeys(FULL, f, step) && Timely(Next(f, step))
    ensures TermsCovered(Next(f, step))
  {
    var g := Next(f, step);
    StepOnMembers(f, step);
    StepGrowsLog(f, step);
    forall i, q | 0 <= i < |g.members| && 0 <= q < |g.stamps| && IsTermOf(g.chain.log[q], g.members[i].node)
      ensures TermCovered(g, i, q)
    {
      StepKeepsNodes(f, step, i);
      if q < |f.stamps| {
        assert g.chain.log[q] == f.chain.log[q];
        OldTermStaysCovered(f, step, i, q);
      } else {
        NewTermIsCovered(f, step, i, q);
      }
    }
  }

  lemma StepKeepsInvariant(f: Fed, step: Step)
    requires Invariant(f) && Enabled(f, step) && Obeys(FULL, f, step)
    ensures Invariant(Next(f, step))
  {
    StepKeepsTimely(f, step);
    StepKeepsDelivered(f, step);
    StepKeepsCovered(f, step);
    StepKeepsOk(f, step);
    StepOnMembers(f, step);
    forall i | 0 <= i < |f.members|
      ensures Next(f, step).members[i].node.key == f.members[i].node.key
    {
      StepKeepsNodes(f, step, i);
    }
  }

  /** So every activation is guarded, whether or not its task has just waited. */
  lemma DisciplineGuards(f: Fed, step: Step)
    requires Invariant(f) && Enabled(f, step) && Obeys(FULL, f, step)
    ensures Guarded(f, step)
  {
    if step.Own? && Activates(f.members[step.i], step.s) {
      var m := f.members[step.i];
      assert MemberOk(f.chain.log, m) && OneTask(m);
      ReadShowsTerm(f.chain.log, m, step.s.snapshot);
      var t := TermRead(f.chain.log, step.s.snapshot, m.node.group);
      assert IsTermOf(f.chain.log[t], m.node);
      assert TermCovered(f, step.i, t);
    }
  }

  // ---------- runs that keep to a discipline ----------

  ghost predicate KeepsTo(c: Discipline, trace: seq<Fed>, steps: seq<Step>) {
    IsRun(trace, steps) && forall k :: 0 <= k < |steps| ==> Obeys(c, trace[k], steps[k])
  }

  lemma {:induction false} FullDisciplineKeepsInvariant(trace: seq<Fed>, steps: seq<Step>, n: nat)
    requires KeepsTo(FULL, trace, steps) && n <= |steps|
    ensures Invariant(trace[n])
  {
    if n > 0 {
      FullDisciplineKeepsInvariant(trace, steps, n - 1);
      StepKeepsInvariant(trace[n - 1], steps[n - 1]);
    }
  }

  /** In every state of a run that keeps to the full discipline at most one node of each group is active. */
  lemma TenSecondsExclude(trace: seq<Fed>, steps: seq<Step>, n: nat)
    requires KeepsTo(FULL, trace, steps) && n <= |steps|
    ensures Exclusive(trace[n])
  {
    forall k | 0 <= k < |steps|
      ensures Guarded(trace[k], steps[k])
    {
      FullDisciplineKeepsInvariant(trace, steps, k);
      DisciplineGuards(trace[k], steps[k]);
    }
    GuardedRunsExclude(trace, steps, n);
  }

  /** The discipline asks for no more than the other. */
  predicate NoStricter(c: Discipline, d: Discipline) {
    && c.delay >= d.delay && (c.truthful ==> d.truthful) && (c.single ==> d.single)
    && (c.whole ==> d.whole) && (c.own ==> d.own)
  }

  lemma StricterObeys(c: Discipline, d: Discipline, f: Fed, step: Step)
    requires Enabled(f, step) && NoStricter(c, d) && Obeys(d, f, step)
    ensures Obeys(c, f, step)
  {
  }
}
