/** What keeps a member of the federation in its place: a leader that the chain goes on naming stays active, a member
    that cannot reach the chain sends nothing, and one configured as passive takes no leadership. */
module Standing {
  import opened Types
  import opened Chain
  import opened Decisions
  import opened Takeover
  import opened Tasks
  import opened Election
  import opened Federation
  import opened Exclusion
  import opened Leadership
  import opened Runs
  import opened Safeguards
  import opened Steady
  import opened Members
  import Pallet

  // ---------- a leader stays active ----------

  /** Whatever moment a read of the leader may answer from now on, it names member `i`. */
  ghost predicate AlwaysNamed(f: Fed, i: nat)
    requires i < |f.members|
  {
    var m, log := f.members[i], f.chain.log;
    && m.delivered <= |log|
    && forall k :: m.delivered <= k <= |log| ==> LeaderAfter(log[..k], m.node.group) == Some(m.node.key)
  }

  /** The chain names member `i` as the leader of its group. */
  predicate Named(f: Fed, i: nat) {
    i < |f.members| && Lookup(f.chain.leaders, f.members[i].node.group) == Some(f.members[i].node.key)
  }

  /** Member `i` is not restarted, not told to be passive and not switched off; what its tasks learn is that the chain
      is fit and that it and someone else are alive; its reads of leader and led flag are answered; and its service
      is ready or in its grace period. */
  predicate Unhindered(m: Member, s: Local) {
    match s
    case Boot(_, _, _) => false
    case RequestPassive => false
    case SwitchHeartbeats(on) => on
    case Reply(t, r, _) =>
      (t in m.tasks && Fits(m.tasks[t], r) ==>
         match m.tasks[t]
         case ForSendGate => Fit(m.node.link, r.v)
         case ForBest => Recent(m.node, m.node.key, r.best) &&
                         exists k :: k in m.node.cache && k != m.node.key && Recent(m.node, k, r.best)
         case ForReady => r.ready || m.node.noReady < NO_READY_THRESHOLD
         case ForLeader(_) => r.leader.Some?
         case ForLed(_, _) => r.led
         case _ => true)
    case _ => true
  }

  ghost predicate LeadsOn(f: Fed, i: nat) {
    i < |f.members| && Leading(ProcessOf(f, i)) && f.members[i].subscribed && AlwaysNamed(f, i)
  }

  lemma UnhinderedIsUndisputed(f: Fed, i: nat, s: Local)
    requires LeadsOn(f, i) && CanDo(f, f.members[i], s) && Unhindered(f.members[i], s)
    ensures Undisputed(ProcessOf(f, i), LocalMove(f, f.members[i], s))
    ensures InGrace(ProcessOf(f, i), LocalMove(f, f.members[i], s))
  {
    var m, log := f.members[i], f.chain.log;
    if s.Deliver? {
      assert log[..m.delivered + 1] == log[..m.delivered] + [log[m.delivered]];
      LeaderAfterAppend(log[..m.delivered], log[m.delivered], m.node.group);
    }
  }

  lemma OwnStepLeadsOn(f: Fed, i: nat, s: Local)
    requires LeadsOn(f, i) && CanDo(f, f.members[i], s) && Unhindered(f.members[i], s)
    ensures LeadsOn(Next(f, Own(i, s)), i)
  {
    UnhinderedIsUndisputed(f, i, s);
    LocalIsMove(f, f.members[i], s);
    LocalMode(f, f.members[i], s);
    MoveKeepsLeading(ProcessOf(f, i), LocalMove(f, f.members[i], s));
  }

  lemma OthersStepLeadsOn(f: Fed, step: Step, i: nat)
    requires LeadsOn(f, i) && Enabled(f, step) && !(step.Own? && step.i == i)
    requires EventSourced(Next(f, step).chain) && Named(Next(f, step), i)
    ensures LeadsOn(Next(f, step), i)
  {
    var g := Next(f, step);
    StepIsMove(f, step, i);
    StepOnMembers(f, step);
    StepGrowsLog(f, step);
    assert g.members[i].(tasks := map[]) == f.members[i].(tasks := map[]);
    MoveKeepsLeading(ProcessOf(f, i), MoveOf(f, step, i));
    NamedStays(f, g, i);
  }

  lemma NamedStays(f: Fed, g: Fed, i: nat)
    requires i < |f.members| && i < |g.members| && AlwaysNamed(f, i)
    requires g.members[i].node == f.members[i].node && g.members[i].delivered == f.members[i].delivered
    requires |f.chain.log| <= |g.chain.log| <= |f.chain.log| + 1 && g.chain.log[..|f.chain.log|] == f.chain.log
    requires EventSourced(g.chain) && Named(g, i)
    ensures AlwaysNamed(g, i)
  {
    var m, log, log' := f.members[i], f.chain.log, g.chain.log;
    forall k | m.delivered <= k <= |log'|
      ensures LeaderAfter(log'[..k], m.node.group) == Some(m.node.key)
    {
      if k <= |log| {
        assert log'[..|log|][..k] == log'[..k];
      } else {
        assert log'[..k] == log';
        assert Sourced(g.chain, m.node.group);
      }
    }
  }

  /** A member that is the active leader stays active in every later state, whatever the others do, for as long as the
      chain goes on naming it and nothing hinders it. */
  lemma {:induction false} NamedLeaderStaysActive(trace: seq<Fed>, steps: seq<Step>, from: nat, n: nat, i: nat)
    requires IsRun(trace, steps) && from <= n <= |steps| && LeadsOn(trace[from], i)
    requires forall k :: from <= k <= n ==> Named(trace[k], i)
    requires forall k :: from <= k < n && steps[k].Own? && steps[k].i == i ==>
               Unhindered(trace[k].members[i], steps[k].s)
    ensures LeadsOn(trace[n], i) && trace[n].members[i].node.mode.Active?
  {
    if n > from {
      NamedLeaderStaysActive(trace, steps, from, n - 1, i);
      LeadsOnNext(trace, steps, n - 1, i);
    }
  }

  lemma LeadsOnNext(trace: seq<Fed>, steps: seq<Step>, n: nat, i: nat)
    requires IsRun(trace, steps) && n < |steps| && LeadsOn(trace[n], i) && Named(trace[n + 1], i)
    requires steps[n].Own? && steps[n].i == i ==> Unhindered(trace[n].members[i], steps[n].s)
    ensures LeadsOn(trace[n + 1], i)
  {
    StepOfRun(trace, steps, n);
    if steps[n].Own? && steps[n].i == i {
      OwnStepLeadsOn(trace[n], i, steps[n].s);
    } else {
      RunKeepsSourced(trace, steps, n + 1);
      OthersStepLeadsOn(trace[n], steps[n], i);
    }
  }

  // ---------- members that cannot reach the chain ----------

  /** What a step's check of the link reads. */
  function ViewOf(s: Local): Option<View> {
    if s.Reply? && s.reply.GateReply? then Some(s.reply.v)
    else if s.BeatReply? then Some(s.v)
    else None
  }

  /** Whatever a member sends, it sends with a check that finds the chain fit. */
  lemma SendsThroughFitLink(f: Fed, i: nat, s: Local)
    requires i < |f.members| && CanDo(f, f.members[i], s)
    ensures Sends(f, i, s).Some? ==> ViewOf(s).Some? && Fit(f.members[i].node.link, ViewOf(s).value)
  {
    if ViewOf(s).Some? {
      GateOpensExactly(f.members[i].node.link, ViewOf(s).value);
    }
  }

  /** If the step makes a check of the link of member `i`, the member cannot reach the chain. */
  predicate CutOff(step: Step, i: nat) {
    step.Own? && step.i == i && ViewOf(step.s).Some? ==> !Reachable(ViewOf(step.s).value)
  }

  /** What is in the pool of member `i` has been there before. */
  ghost predicate NothingNew(f: Fed, g: Fed, i: nat) {
    forall x :: x in g.pool && g.pool[x].i == i ==> x in f.pool && g.pool[x] == f.pool[x]
  }

  lemma CutOffSendsNothing(f: Fed, step: Step, i: nat)
    requires Enabled(f, step) && CutOff(step, i)
    ensures step.Own? && step.i == i ==> Sends(f, i, step.s).None?
    ensures NothingNew(f, Next(f, step), i)
  {
    if step.Own? {
      SendsThroughFitLink(f, step.i, step.s);
    }
  }

  /** While all checks of member `i` find no peers or a node still synchronizing, at both attempts, it sends neither a
      heartbeat nor a take, whatever its mode and its tasks. */
  lemma {:induction false} CutOffMemberSendsNothing(trace: seq<Fed>, steps: seq<Step>, from: nat, n: nat, i: nat)
    requires IsRun(trace, steps) && from <= n <= |steps|
    requires forall k :: from <= k < n ==> CutOff(steps[k], i)
    ensures NothingNew(trace[from], trace[n], i)
  {
    if n > from {
      CutOffMemberSendsNothing(trace, steps, from, n - 1, i);
      StepOfRun(trace, steps, n - 1);
      CutOffSendsNothing(trace[n - 1], steps[n - 1], i);
    }
  }

  // ---------- members configured as passive ----------

  /** In every state of a run without requested activations of it, a member configured as passive is not active, has
      no task and sends no take. */
  lemma PassiveMemberTakesNothing(trace: seq<Fed>, steps: seq<Step>, n: nat, i: nat)
    requires IsRun(trace, steps) && n <= |steps| && i < |trace[0].members|
    requires trace[0].members[i].node.serviceMode.ForcedPassive?
    requires forall k :: 0 <= k < |steps| ==> Unforced(steps[k], i)
    ensures |trace[n].members| == |trace[0].members|
    ensures !trace[n].members[i].node.mode.Active? && trace[n].members[i].tasks == map[]
    ensures n < |steps| && steps[n].Own? && steps[n].i == i ==>
              Enabled(trace[n], steps[n]) &&
              (Sends(trace[n], i, steps[n].s).Some? ==> Sends(trace[n], i, steps[n].s).value.origin.Beating?)
  {
    var moves := Moves(trace, steps, i, 0);
    assert NoForce(moves);
    ForcedPassiveNeverLeads(ProcessOf(trace[0], i), moves, n);
    MemberIsProcess(trace, steps, i, 0, n);
    if n < |steps| {
      StepOfRun(trace, steps, n);
    }
  }
}
