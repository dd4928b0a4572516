/** Mutual exclusion: who can be active at the same time, over every run of the federation. */
module Exclusion {
  import opened Types
  import opened Decisions
  import opened Election
  import opened Federation

  // ---------- terms ----------

  /** Someone else takes the leadership of the node's group. */
  predicate Rival(e: Event, n: Node) {
    e.NewLeader? && e.group == n.group && e.who != n.key
  }

  /** The member took the leadership with event `t` and has not heard of anyone taking it since. */
  predicate HoldsTerm(log: seq<Event>, m: Member, t: nat) {
    && t < |log| && log[t] == NewLeader(m.node.key, m.node.group)
    && forall u :: t < u < |log| && u < m.delivered ==> !Rival(log[u], m.node)
  }

  ghost predicate MemberOk(log: seq<Event>, m: Member) {
    && m.delivered <= |log| && m.node.key != DEFAULT_ACCOUNT
    && (!m.subscribed ==> m.tasks == map[] && !m.node.mode.Active?)
    && (m.node.mode.Active? ==> m.node.role.Operator? && exists t: nat :: HoldsTerm(log, m, t))
  }

  /** A read of the leader that answers the node itself shows the term that the node holds. */
  function TermRead(log: seq<Event>, k: nat, g: GroupId): int
    requires k <= |log|
  {
    LastTake(log[..k], g)
  }

  lemma ReadShowsTerm(log: seq<Event>, m: Member, k: nat)
    requires m.delivered <= k <= |log| && m.node.key != DEFAULT_ACCOUNT
    requires LeaderRead(log, k, m.node.group) == m.node.key
    ensures 0 <= TermRead(log, k, m.node.group) < k && HoldsTerm(log, m, TermRead(log, k, m.node.group))
  {
    LeaderIsLastTaker(log[..k], m.node.group);
    var t := TermRead(log, k, m.node.group);
    forall u | t < u < |log| && u < m.delivered
      ensures !Rival(log[u], m.node)
    {
      assert log[u] == log[..k][u];
    }
  }

  // ---------- the invariant ----------

  /** Identity never changes. */
  predicate SameNode(n: Node, m: Node) {
    && m.key == n.key && m.group == n.group && m.role == n.role
    && m.serviceMode == n.serviceMode && m.aliveTime == n.aliveTime
  }

  lemma LocalMode(f: Fed, m: Member, s: Local)
    requires CanDo(f, m, s)
    ensures var q, log := MemberNext(f, m, s), f.chain.log;
            && SameNode(m.node, q.node)
            && (q.node.mode.Active? && !m.node.mode.Active? ==> Activates(m, s))
            && (s.Boot? || s.Subscribe? || q.delivered == m.delivered + if s.Deliver? then 1 else 0)
            && (q.node.mode.Active? && q.node.role.Operator? && s.Deliver? ==> !Rival(log[m.delivered], m.node))
            && (q.node.mode.Active? && !m.node.mode.Active? ==> m.node.role.Operator?)
  {
  }

  lemma LocalKeepsOk(f: Fed, m: Member, s: Local)
    requires MemberOk(f.chain.log, m) && CanDo(f, m, s)
    ensures MemberOk(f.chain.log, MemberNext(f, m, s))
  {
    var q, log := MemberNext(f, m, s), f.chain.log;
    LocalMode(f, m, s);
    if q.node.mode.Active? {
      if m.node.mode.Active? {
        var t: nat :| HoldsTerm(log, m, t);
        assert HoldsTerm(log, q, t);
      } else {
        ReadShowsTerm(log, m, s.snapshot);
        assert HoldsTerm(log, q, TermRead(log, s.snapshot, m.node.group));
      }
    }
  }

  predicate Extends(log: seq<Event>, log': seq<Event>) {
    |log| <= |log'| && log'[..|log|] == log
  }

  lemma GrowthKeepsTerm(log: seq<Event>, log': seq<Event>, m: Member, t: nat)
    requires Extends(log, log') && m.delivered <= |log| && HoldsTerm(log, m, t)
    ensures HoldsTerm(log', m, t)
  {
    assert forall u :: 0 <= u < |log| ==> log'[u] == log[u];
  }

  lemma GrowthKeepsOk(log: seq<Event>, log': seq<Event>, m: Member)
    requires Extends(log, log') && MemberOk(log, m)
    ensures MemberOk(log', m)
  {
    if m.node.mode.Active? {
      var t: nat :| HoldsTerm(log, m, t);
      GrowthKeepsTerm(log, log', m, t);
    }
  }

  ghost predicate AllOk(f: Fed) {
    forall i :: 0 <= i < |f.members| ==> MemberOk(f.chain.log, f.members[i])
  }

  /** Every step but a member's own leaves the node of each member as it was. */
  lemma StepOnMembers(f: Fed, step: Step)
    requires Enabled(f, step)
    ensures |Next(f, step).members| == |f.members|
    ensures forall i :: 0 <= i < |f.members| && !(step.Own? && step.i == i) ==>
              Next(f, step).members[i].(tasks := map[]) == f.members[i].(tasks := map[])
    ensures forall i :: 0 <= i < |f.members| && !f.members[i].subscribed && !step.Own? ==>
              f.members[i].tasks == map[] ==> Next(f, step).members[i].tasks == map[]
    ensures !step.Own? || Next(f, step).chain == f.chain
  {
  }

  lemma StepKeepsOk(f: Fed, step: Step)
    requires AllOk(f) && Enabled(f, step)
    ensures AllOk(Next(f, step)) && Extends(f.chain.log, Next(f, step).chain.log)
  {
    var g := Next(f, step);
    StepGrowsLog(f, step);
    StepOnMembers(f, step);
    forall i | 0 <= i < |g.members|
      ensures MemberOk(g.chain.log, g.members[i])
    {
      var m := f.members[i];
      if step.Own? && step.i == i {
        LocalKeepsOk(f, m, step.s);
      } else {
        GrowthKeepsOk(f.chain.log, g.chain.log, m);
        var q := g.members[i];
        assert q.node == m.node && q.delivered == m.delivered && q.subscribed == m.subscribed;
        if q.node.mode.Active? {
          var t: nat :| HoldsTerm(g.chain.log, m, t);
          assert HoldsTerm(g.chain.log, q, t);
        }
      }
    }
  }

  lemma {:induction false} RunKeepsOk(trace: seq<Fed>, steps: seq<Step>, n: nat)
    requires IsRun(trace, steps) && n <= |steps|
    ensures AllOk(trace[n])
  {
    if n > 0 {
      RunKeepsOk(trace, steps, n - 1);
      var f, step := trace[n - 1], steps[n - 1];
      StepKeepsOk(f, step);
      assert trace[n] == Next(f, step);
    }
  }

  // ---------- exclusion up to the delay of the events ----------

  /** The member still has to hear that someone else took the leadership of its group. */
  ghost predicate Outdated(log: seq<Event>, m: Member) {
    exists u :: m.delivered <= u < |log| && Rival(log[u], m.node)
  }

  /** In every state of every run, an active node is the author of the latest NewLeader event of its group
      or has a NewLeader event of someone else still to hear. */
  lemma ActiveIsLatestOrOutdated(trace: seq<Fed>, steps: seq<Step>, n: nat, i: nat)
    requires IsRun(trace, steps) && n <= |steps| && i < |trace[n].members|
    requires trace[n].members[i].node.mode.Active?
    ensures var log, m := trace[n].chain.log, trace[n].members[i];
            var last := LastTake(log, m.node.group);
            last >= 0 && (log[last].who == m.node.key || Outdated(log, m))
  {
    RunKeepsOk(trace, steps, n);
    var log, m := trace[n].chain.log, trace[n].members[i];
    assert MemberOk(log, m);
    var t: nat :| HoldsTerm(log, m, t);
    assert IsTake(log[t], m.node.group);
    var last := LastTake(log, m.node.group);
    if log[last].who != m.node.key {
      assert Rival(log[last], m.node);
    }
  }

  /** So two nodes of a group are active together only while one of them has not heard everything. */
  lemma TwoActiveMeansOneOutdated(trace: seq<Fed>, steps: seq<Step>, n: nat, i: nat, j: nat)
    requires IsRun(trace, steps) && n <= |steps| && i < |trace[n].members| && j < |trace[n].members| && i != j
    requires var a, b := trace[n].members[i].node, trace[n].members[j].node;
             a.mode.Active? && b.mode.Active? && a.group == b.group
    ensures Outdated(trace[n].chain.log, trace[n].members[i]) || Outdated(trace[n].chain.log, trace[n].members[j])
  {
    ActiveIsLatestOrOutdated(trace, steps, n, i);
    ActiveIsLatestOrOutdated(trace, steps, n, j);
    KeysStayDistinct(trace, steps, n);
  }

  lemma StepKeepsNodes(f: Fed, step: Step, i: nat)
    requires Enabled(f, step) && i < |f.members|
    ensures |Next(f, step).members| == |f.members| && SameNode(f.members[i].node, Next(f, step).members[i].node)
  {
    StepOnMembers(f, step);
    if step.Own? && step.i == i {
      LocalMode(f, f.members[i], step.s);
    } else {
      assert Next(f, step).members[i].(tasks := map[]).node == f.members[i].(tasks := map[]).node;
    }
  }

  lemma {:induction false} KeysStayDistinct(trace: seq<Fed>, steps: seq<Step>, n: nat)
    requires IsRun(trace, steps) && n <= |steps|
    ensures KeysDistinct(trace[n])
  {
    if n > 0 {
      KeysStayDistinct(trace, steps, n - 1);
      forall i | 0 <= i < |trace[n - 1].members|
        ensures |trace[n].members| == |trace[n - 1].members|
        ensures trace[n].members[i].node.key == trace[n - 1].members[i].node.key
      {
        StepKeepsNodes(trace[n - 1], steps[n - 1], i);
      }
      StepOnMembers(trace[n - 1], steps[n - 1]);
    }
  }

  // ---------- exclusion when activation waits for the events ----------

  predicate SameGroup(f: Fed, i: nat, j: nat)
    requires i < |f.members| && j < |f.members|
  {
    f.members[i].node.group == f.members[j].node.group
  }

  /** Every other subscribed node of the group has heard event `t`. */
  ghost predicate Settled(f: Fed, i: nat, t: nat)
    requires i < |f.members|
  {
    forall j :: 0 <= j < |f.members| && j != i && f.members[j].subscribed && SameGroup(f, i, j) ==>
                t < f.members[j].delivered
  }

  /** If the step activates a node, everyone else has heard of the term it activates on. */
  ghost predicate Guarded(f: Fed, step: Step)
    requires Enabled(f, step)
  {
    step.Own? && Activates(f.members[step.i], step.s) ==>
      var term := TermRead(f.chain.log, step.s.snapshot, f.members[step.i].node.group);
      term >= 0 && Settled(f, step.i, term)
  }

  ghost predicate HasSettledTerm(f: Fed, i: nat)
    requires i < |f.members|
  {
    exists t: nat :: HoldsTerm(f.chain.log, f.members[i], t) && Settled(f, i, t)
  }

  ghost predicate ActiveIsSettled(f: Fed) {
    forall i :: 0 <= i < |f.members| && f.members[i].node.mode.Active? ==> HasSettledTerm(f, i)
  }

  /** At most one node of each group is active. */
  ghost predicate Exclusive(f: Fed) {
    forall i, j :: 0 <= i < |f.members| && 0 <= j < |f.members| && i != j &&
                   f.members[i].node.mode.Active? && f.members[j].node.mode.Active? ==>
                   !SameGroup(f, i, j)
  }

  /** A term settled with a member is not later than the term that this member holds. */
  lemma SettledTermsInOrder(f: Fed, i: nat, j: nat, t: nat, u: nat)
    requires i < |f.members| && j < |f.members| && i != j && SameGroup(f, i, j) && KeysDistinct(f)
    requires f.members[j].subscribed && HoldsTerm(f.chain.log, f.members[i], t) && Settled(f, i, t)
    requires HoldsTerm(f.chain.log, f.members[j], u)
    ensures t <= u
  {
    assert Rival(f.chain.log[t], f.members[j].node);
  }

  lemma SettledIsExclusive(f: Fed)
    requires AllOk(f) && KeysDistinct(f) && ActiveIsSettled(f)
    ensures Exclusive(f)
  {
    forall i, j | 0 <= i < |f.members| && 0 <= j < |f.members| && i != j &&
                  f.members[i].node.mode.Active? && f.members[j].node.mode.Active?
      ensures !SameGroup(f, i, j)
    {
      assert HasSettledTerm(f, i) && HasSettledTerm(f, j);
      assert MemberOk(f.chain.log, f.members[i]) && MemberOk(f.chain.log, f.members[j]);
      var t: nat :| HoldsTerm(f.chain.log, f.members[i], t) && Settled(f, i, t);
      var u: nat :| HoldsTerm(f.chain.log, f.members[j], u) && Settled(f, j, u);
      assert f.members[i].subscribed && f.members[j].subscribed;
      if SameGroup(f, i, j) {
        SettledTermsInOrder(f, i, j, t, u);
        SettledTermsInOrder(f, j, i, u, t);
        assert false;
      }
    }
  }

  lemma StepKeepsSettled(f: Fed, step: Step, i: nat, t: nat)
    requires AllOk(f) && Enabled(f, step) && i < |f.members| && t < |f.chain.log| && Settled(f, i, t)
    ensures |Next(f, step).members| == |f.members| && Settled(Next(f, step), i, t)
  {
    var g := Next(f, step);
    StepOnMembers(f, step);
    forall j | 0 <= j < |g.members| && j != i && g.members[j].subscribed && SameGroup(g, i, j)
      ensures t < g.members[j].delivered
    {
      StepKeepsNodes(f, step, i);
      StepKeepsNodes(f, step, j);
      if step.Own? && step.i == j {
        LocalMode(f, f.members[j], step.s);
      } else {
        assert g.members[j].(tasks := map[]).delivered == f.members[j].delivered;
        assert g.members[j].(tasks := map[]).subscribed == f.members[j].subscribed;
      }
    }
  }

  /** A member that stays active keeps the term it holds. */
  lemma StepKeepsTerm(f: Fed, step: Step, i: nat, t: nat)
    requires AllOk(f) && Enabled(f, step) && i < |f.members|
    requires f.members[i].node.mode.Active? && HoldsTerm(f.chain.log, f.members[i], t)
    ensures |Next(f, step).members| == |f.members|
    ensures Next(f, step).members[i].node.mode.Active? ==>
              HoldsTerm(Next(f, step).chain.log, Next(f, step).members[i], t)
  {
    var g := Next(f, step);
    StepGrowsLog(f, step);
    StepOnMembers(f, step);
    var m, q := f.members[i], g.members[i];
    assert MemberOk(f.chain.log, m);
    GrowthKeepsTerm(f.chain.log, g.chain.log, m, t);
    if step.Own? && step.i == i {
      LocalMode(f, m, step.s);
    } else {
      assert q.node == m.node && q.delivered == m.delivered;
    }
  }

  lemma GuardedKeepsSettled(f: Fed, step: Step)
    requires AllOk(f) && ActiveIsSettled(f) && Enabled(f, step) && Guarded(f, step)
    ensures ActiveIsSettled(Next(f, step))
  {
    var g := Next(f, step);
    StepOnMembers(f, step);
    forall i | 0 <= i < |g.members| && g.members[i].node.mode.Active?
      ensures HasSettledTerm(g, i)
    {
      var m := f.members[i];
      if m.node.mode.Active? {
        assert HasSettledTerm(f, i);
        var t: nat :| HoldsTerm(f.chain.log, m, t) && Settled(f, i, t);
        StepKeepsTerm(f, step, i, t);
        StepKeepsSettled(f, step, i, t);
      } else {
        assert step.Own? && step.i == i;
        LocalMode(f, m, step.s);
        assert MemberOk(f.chain.log, m);
        ReadShowsTerm(f.chain.log, m, step.s.snapshot);
        var t: nat := TermRead(f.chain.log, step.s.snapshot, m.node.group);
        StepKeepsSettled(f, step, i, t);
        assert HoldsTerm(g.chain.log, g.members[i], t);
      }
    }
  }

  ghost predicate GuardedRun(trace: seq<Fed>, steps: seq<Step>) {
    IsRun(trace, steps) && forall k :: 0 <= k < |steps| ==> Guarded(trace[k], steps[k])
  }

  lemma {:induction false} GuardedRunKeepsSettled(trace: seq<Fed>, steps: seq<Step>, n: nat)
    requires GuardedRun(trace, steps) && n <= |steps|
    ensures ActiveIsSettled(trace[n])
  {
    if n > 0 {
      GuardedRunKeepsSettled(trace, steps, n - 1);
      RunKeepsOk(trace, steps, n - 1);
      GuardedKeepsSettled(trace[n - 1], steps[n - 1]);
    }
  }

  /** If every activation waits until all other nodes of the group have heard of the term it is based on, then
      in every state of the run at most one node of each group is active, whatever else happens. */
  lemma GuardedRunsExclude(trace: seq<Fed>, steps: seq<Step>, n: nat)
    requires GuardedRun(trace, steps) && n <= |steps|
    ensures Exclusive(trace[n])
  {
    GuardedRunKeepsSettled(trace, steps, n);
    RunKeepsOk(trace, steps, n);
    KeysStayDistinct(trace, steps, n);
    SettledIsExclusive(trace[n]);
  }
}
