/** Depositions over whole runs of the federation: what a take that deposes a leader was based on, however the
    reads, the decision, the sending and the effect were separated by other steps. */
module Justice {
  import opened Types
  import opened Decisions
  import opened Tasks
  import opened Federation
  import opened Exclusion
  import opened CacheSync
  import opened Takeover
  import Pallet

  // ---------- moments of a run ----------

  /** The step tells cycle `t` of member `i` that `leader`, someone else, leads its group. */
  predicate LearnsOf(f: Fed, step: Step, i: nat, t: nat, leader: AccountId) {
    && i < |f.members| && t in f.members[i].tasks && f.members[i].tasks[t] == ForLed(false, Some(leader))
    && leader != f.members[i].node.key
    && step.Own? && step.i == i && step.s.Reply? && step.s.task == t && step.s.reply == LedReply(true)
  }

  /** The step sends the transaction, which gets this ticket. */
  predicate SendsAs(f: Fed, step: Step, ticket: nat, sent: Sent) {
    Enabled(f, step) && step.Own? && Sends(f, step.i, step.s) == Some(sent) && f.tickets == ticket
  }

  /** It is the same task all the time after step `k` and up to state `n`. */
  ghost predicate KeepsTask(trace: seq<Fed>, i: nat, t: nat, k: nat, n: nat)
    requires n < |trace|
  {
    forall j :: k < j <= n ==> i < |trace[j].members| && t in trace[j].members[i].tasks
  }

  /** At step `k` the task, which is there since, has learned of this leader. */
  ghost predicate Learned(trace: seq<Fed>, steps: seq<Step>, n: nat, i: nat, t: nat, leader: AccountId, k: nat)
    requires |trace| == |steps| + 1 && n <= |steps|
  {
    k < n && LearnsOf(trace[k], steps[k], i, t, leader) && KeepsTask(trace, i, t, k, n)
  }

  /** What the node knew at that moment is a reason to depose the leader at block `now`. */
  predicate GroundsAt(f: Fed, i: nat, leader: AccountId, now: nat) {
    i < |f.members| && Grounds(f.members[i].node, leader, now)
  }

  ghost predicate HasGrounds(trace: seq<Fed>, steps: seq<Step>, n: nat, i: nat, t: nat, leader: AccountId)
    requires |trace| == |steps| + 1 && n <= |steps|
  {
    exists k: nat :: Learned(trace, steps, n, i, t, leader, k) && GroundsAt(trace[k], i, leader, trace[n].chain.now)
  }

  ghost predicate HasRecord(trace: seq<Fed>, steps: seq<Step>, n: nat, i: nat, t: nat, leader: AccountId, block: nat)
    requires |trace| == |steps| + 1 && n <= |steps|
  {
    exists k: nat :: Learned(trace, steps, n, i, t, leader, k) &&
                !NoLivenessData(trace[k].members[i].node, Some(leader)) &&
                trace[k].members[i].node.cache[leader].block == block
  }

  // ---------- what waiting tasks and sent takes are based on ----------

  ghost predicate AskFounded(trace: seq<Fed>, steps: seq<Step>, n: nat, i: nat, t: nat, key: AccountId, ask: Ask)
    requires |trace| == |steps| + 1 && n <= |steps|
  {
    ask.oldLeader.Some? && ask.oldLeader.value != key ==> HasGrounds(trace, steps, n, i, t, ask.oldLeader.value)
  }

  ghost predicate WaitFounded(trace: seq<Fed>, steps: seq<Step>, n: nat, i: nat, t: nat, key: AccountId, w: Wait)
    requires |trace| == |steps| + 1 && n <= |steps|
  {
    match w
    case ForLeaderBest(leader, block) => HasRecord(trace, steps, n, i, t, leader, block)
    case ForTakeGate(forced, ask) => forced || AskFounded(trace, steps, n, i, t, key, ask)
    case _ => true
  }

  ghost predicate TasksFounded(trace: seq<Fed>, steps: seq<Step>, n: nat)
    requires |trace| == |steps| + 1 && n <= |steps|
  {
    forall i, t :: 0 <= i < |trace[n].members| && t in trace[n].members[i].tasks ==>
      WaitFounded(trace, steps, n, i, t, trace[n].members[i].node.key, trace[n].members[i].tasks[t])
  }

  /** The transaction with this ticket was sent at step `l` by a task that had grounds against `leader`. */
  ghost predicate SentOnGrounds(trace: seq<Fed>, steps: seq<Step>, l: nat, x: nat, sent: Sent, leader: AccountId)
    requires |trace| == |steps| + 1 && l < |steps| && sent.origin.Taking?
  {
    SendsAs(trace[l], steps[l], x, sent) && HasGrounds(trace, steps, l, sent.i, sent.origin.task, leader)
  }

  ghost predicate SentFounded(trace: seq<Fed>, steps: seq<Step>, n: nat, x: nat, sent: Sent)
    requires |trace| == |steps| + 1 && n <= |steps|
  {
    sent.origin.Taking? ==>
      && sent.tx.call.SetLeader?
      && (!sent.origin.forced && sent.tx.call.oldLeader != sent.tx.sender ==>
            exists l :: 0 <= l < n && SentOnGrounds(trace, steps, l, x, sent, sent.tx.call.oldLeader))
  }

  ghost predicate PoolFounded(trace: seq<Fed>, steps: seq<Step>, n: nat)
    requires |trace| == |steps| + 1 && n <= |steps|
  {
    forall x :: x in trace[n].pool ==> SentFounded(trace, steps, n, x, trace[n].pool[x])
  }

  // ---------- one step further ----------

  lemma LearnedStays(trace: seq<Fed>, steps: seq<Step>, n: nat, i: nat, t: nat, leader: AccountId, k: nat)
    requires IsRun(trace, steps) && n < |steps| && Learned(trace, steps, n, i, t, leader, k)
    requires i < |trace[n + 1].members| && t in trace[n + 1].members[i].tasks
    ensures Learned(trace, steps, n + 1, i, t, leader, k)
  {
  }

  /** Block numbers grow, so grounds by age stay grounds. */
  lemma GroundsStay(trace: seq<Fed>, steps: seq<Step>, n: nat, i: nat, t: nat, leader: AccountId)
    requires IsRun(trace, steps) && n < |steps| && HasGrounds(trace, steps, n, i, t, leader)
    requires i < |trace[n + 1].members| && t in trace[n + 1].members[i].tasks
    ensures HasGrounds(trace, steps, n + 1, i, t, leader)
  {
    var k: nat :| Learned(trace, steps, n, i, t, leader, k) && GroundsAt(trace[k], i, leader, trace[n].chain.now);
    LearnedStays(trace, steps, n, i, t, leader, k);
    assert trace[n + 1] == Next(trace[n], steps[n]);
    BlocksGrow(trace[n], steps[n]);
  }

  lemma BlocksGrow(f: Fed, step: Step)
    requires Enabled(f, step)
    ensures f.chain.now <= Next(f, step).chain.now
  {
    match step
    case Own(_, _) => StepOnMembers(f, step);
    case Outside(tx) => HeartbeatOnMap(f.chain, tx);
    case Land(x) => HeartbeatOnMap(f.chain, f.pool[x].tx);
    case _ =>
  }

  lemma ComparedRecordStays(trace: seq<Fed>, steps: seq<Step>, n: nat, i: nat, t: nat, leader: AccountId, block: nat)
    requires IsRun(trace, steps) && n < |steps| && HasRecord(trace, steps, n, i, t, leader, block)
    requires i < |trace[n + 1].members| && t in trace[n + 1].members[i].tasks
    ensures HasRecord(trace, steps, n + 1, i, t, leader, block)
  {
    var k: nat :| Learned(trace, steps, n, i, t, leader, k) &&
             !NoLivenessData(trace[k].members[i].node, Some(leader)) &&
             trace[k].members[i].node.cache[leader].block == block;
    LearnedStays(trace, steps, n, i, t, leader, k);
  }

  lemma WaitStaysFounded(trace: seq<Fed>, steps: seq<Step>, n: nat, i: nat, t: nat, key: AccountId, w: Wait)
    requires IsRun(trace, steps) && n < |steps| && WaitFounded(trace, steps, n, i, t, key, w)
    requires i < |trace[n + 1].members| && t in trace[n + 1].members[i].tasks
    ensures WaitFounded(trace, steps, n + 1, i, t, key, w)
  {
    match w
    case ForLeaderBest(leader, block) => ComparedRecordStays(trace, steps, n, i, t, leader, block);
    case ForTakeGate(forced, ask) =>
      if !forced && ask.oldLeader.Some? && ask.oldLeader.value != key {
        GroundsStay(trace, steps, n, i, t, ask.oldLeader.value);
      }
    case _ =>
  }

  /** The task's wait after the step is the one before it, or claims nothing, or comes from a reply to it. */
  lemma WaitChanges(f: Fed, step: Step, i: nat, t: nat)
    requires Enabled(f, step) && i < |f.members|
    requires |Next(f, step).members| == |f.members| && t in Next(f, step).members[i].tasks
    ensures var m, w := f.members[i], Next(f, step).members[i].tasks[t];
            || (t in m.tasks && w == m.tasks[t])
            || (!w.ForLeaderBest? && !w.ForTakeGate?)
            || (step.Own? && step.i == i && step.s.Reply? && step.s.task == t && t in m.tasks &&
                w == Resume(m.node, m.tasks[t], step.s.reply, f.time, f.tickets).wait)
  {
  }

  /** A reply after which the task claims something: it learns of a leader, or compares with its record. */
  lemma ReplyIsFounded(trace: seq<Fed>, steps: seq<Step>, n: nat, i: nat, s: Local)
    requires IsRun(trace, steps) && n < |steps| && TasksFounded(trace, steps, n)
    requires steps[n] == Own(i, s) && s.Reply? && i < |trace[n].members| == |trace[n + 1].members|
    requires CanDo(trace[n], trace[n].members[i], s)
    requires s.task in trace[n + 1].members[i].tasks
    ensures var m := trace[n].members[i];
            WaitFounded(trace, steps, n + 1, i, s.task, m.node.key,
                        Resume(m.node, m.tasks[s.task], s.reply, trace[n].time, trace[n].tickets).wait)
  {
    var m, t := trace[n].members[i], s.task;
    var w := m.tasks[t];
    assert WaitFounded(trace, steps, n, i, t, m.node.key, w);
    if w.ForLed? && !w.forced && s.reply.led && w.leader.Some? && w.leader.value != m.node.key {
      assert LearnsOf(trace[n], steps[n], i, t, w.leader.value);
      assert Learned(trace, steps, n + 1, i, t, w.leader.value, n);
    } else if w.ForLeaderBest? {
      ComparisonIsFounded(trace, steps, n, i, t, w.other, w.block, s.reply.best);
    }
  }

  /** No block is seen before it is there, so a heartbeat too old for the number read is too old. */
  lemma ComparisonIsFounded(trace: seq<Fed>, steps: seq<Step>, n: nat, i: nat, t: nat, leader: AccountId,
                            block: BlockNumber, best: nat)
    requires IsRun(trace, steps) && n < |steps| && HasRecord(trace, steps, n, i, t, leader, block)
    requires i < |trace[n].members| && |trace[n + 1].members| == |trace[n].members|
    requires t in trace[n + 1].members[i].tasks && best <= trace[n].chain.now
    ensures best - block > trace[n].members[i].node.aliveTime ==> HasGrounds(trace, steps, n + 1, i, t, leader)
  {
    var k: nat :| Learned(trace, steps, n, i, t, leader, k) &&
             !NoLivenessData(trace[k].members[i].node, Some(leader)) &&
             trace[k].members[i].node.cache[leader].block == block;
    LearnedStays(trace, steps, n, i, t, leader, k);
    assert trace[n + 1] == Next(trace[n], steps[n]);
    BlocksGrow(trace[n], steps[n]);
    SameMember(trace, steps, k, n, i);
  }

  lemma {:induction false} SameMember(trace: seq<Fed>, steps: seq<Step>, k: nat, n: nat, i: nat)
    requires IsRun(trace, steps) && k <= n <= |steps| && i < |trace[k].members|
    ensures |trace[n].members| == |trace[k].members| && SameNode(trace[k].members[i].node, trace[n].members[i].node)
    decreases n
  {
    if k < n {
      SameMember(trace, steps, k, n - 1, i);
      StepKeepsNodes(trace[n - 1], steps[n - 1], i);
    }
  }

  lemma StepFoundsTasks(trace: seq<Fed>, steps: seq<Step>, n: nat)
    requires IsRun(trace, steps) && n < |steps| && TasksFounded(trace, steps, n)
    ensures TasksFounded(trace, steps, n + 1)
  {
    var f, step, g := trace[n], steps[n], trace[n + 1];
    assert g == Next(f, step);
    StepOnMembers(f, step);
    forall i, t | 0 <= i < |g.members| && t in g.members[i].tasks
      ensures WaitFounded(trace, steps, n + 1, i, t, g.members[i].node.key, g.members[i].tasks[t])
    {
      StepKeepsNodes(f, step, i);
      WaitChanges(f, step, i, t);
      if t in f.members[i].tasks && g.members[i].tasks[t] == f.members[i].tasks[t] {
        WaitStaysFounded(trace, steps, n, i, t, g.members[i].node.key, g.members[i].tasks[t]);
      } else if g.members[i].tasks[t].ForLeaderBest? || g.members[i].tasks[t].ForTakeGate? {
        ReplyIsFounded(trace, steps, n, i, step.s);
      }
    }
  }

  lemma SentStaysFounded(trace: seq<Fed>, steps: seq<Step>, n: nat, x: nat, sent: Sent)
    requires IsRun(trace, steps) && n < |steps| && SentFounded(trace, steps, n, x, sent)
    ensures SentFounded(trace, steps, n + 1, x, sent)
  {
  }

  lemma StepFoundsPool(trace: seq<Fed>, steps: seq<Step>, n: nat)
    requires IsRun(trace, steps) && n < |steps| && TasksFounded(trace, steps, n) && PoolFounded(trace, steps, n)
    ensures PoolFounded(trace, steps, n + 1)
  {
    var f, step, g := trace[n], steps[n], trace[n + 1];
    assert g == Next(f, step);
    forall x | x in g.pool
      ensures SentFounded(trace, steps, n + 1, x, g.pool[x])
    {
      if step.Own? && Sends(f, step.i, step.s).Some? && x == f.tickets {
        NewSentIsFounded(trace, steps, n, g.pool[x]);
      } else {
        SentStaysFounded(trace, steps, n, x, f.pool[x]);
      }
    }
  }

  lemma NewSentIsFounded(trace: seq<Fed>, steps: seq<Step>, n: nat, sent: Sent)
    requires IsRun(trace, steps) && n < |steps| && TasksFounded(trace, steps, n)
    requires SendsAs(trace[n], steps[n], trace[n].tickets, sent)
    ensures SentFounded(trace, steps, n + 1, trace[n].tickets, sent)
  {
    var f, step := trace[n], steps[n];
    if sent.origin.Taking? && !sent.origin.forced && sent.tx.call.oldLeader != sent.tx.sender {
      var m := f.members[step.i];
      assert WaitFounded(trace, steps, n, step.i, step.s.task, m.node.key, m.tasks[step.s.task]);
      assert SentOnGrounds(trace, steps, n, f.tickets, sent, sent.tx.call.oldLeader);
    }
  }

  lemma {:induction false} RunIsFounded(trace: seq<Fed>, steps: seq<Step>, n: nat)
    requires IsRun(trace, steps) && n <= |steps|
    ensures TasksFounded(trace, steps, n) && PoolFounded(trace, steps, n)
  {
    if n > 0 {
      RunIsFounded(trace, steps, n - 1);
      StepFoundsTasks(trace, steps, n - 1);
      StepFoundsPool(trace, steps, n - 1);
    }
  }

  // ---------- every deposition ----------

  /** The node has grounds against the leader at block `now`: no heartbeat of it after enough checks, or a recorded
      one that is too old by then. What it has recorded is a heartbeat that the leader has really sent, and if it has
      heard any of the leader since it subscribed, the latest one that it has heard. */
  ghost predicate JustCause(f: Fed, i: nat, leader: AccountId, now: nat) {
    && GroundsAt(f, i, leader, now)
    && var m, log := f.members[i], f.chain.log;
       && (!NoLivenessData(m.node, Some(leader)) ==> BeatSent(log, leader, m.node.cache[leader].block))
       && m.delivered <= |log|
       && (HeardOf(log, m, leader) ==>
             leader in m.node.cache && m.node.cache[leader].block == BeatAt(log, m.delivered, leader))
  }

  /** When the take of an orchestration cycle lands in a led group and succeeds, whatever its sender has been told
      or has become by then, it names the leader, who is someone else. It was sent at an earlier step `l`, and the task
      that sent it had at a still earlier step `k` read that leader and the led flag, and had just cause: none of the
      leader's heartbeats known after enough checks, or a heartbeat really sent which was too old when the take was
      sent. */
  lemma EveryDepositionHadGrounds(trace: seq<Fed>, steps: seq<Step>, n: nat, x: nat)
    requires IsRun(trace, steps) && n < |steps| && steps[n] == Land(x) && x in trace[n].pool
    requires var sent := trace[n].pool[x];
             && sent.origin.Taking? && !sent.origin.forced
             && sent.tx.call.group in trace[n].chain.leaders
             && Pallet.Exec(trace[n].chain, sent.tx).Ok?
    ensures var sent := trace[n].pool[x];
            var leader, i, t := trace[n].chain.leaders[sent.tx.call.group], sent.i, sent.origin.task;
            && sent.tx.call.SetLeader? && sent.tx.call.oldLeader == leader && leader != sent.tx.sender
            && exists k, l :: 0 <= k < l < n && SendsAs(trace[l], steps[l], x, sent) && KeepsTask(trace, i, t, k, l) &&
                              LearnsOf(trace[k], steps[k], i, t, leader) &&
                              JustCause(trace[k], i, leader, trace[l].chain.now)
  {
    RunIsFounded(trace, steps, n);
    var sent := trace[n].pool[x];
    assert SentFounded(trace, steps, n, x, sent);
    var l :| 0 <= l < n && SentOnGrounds(trace, steps, l, x, sent, sent.tx.call.oldLeader);
    var k := GroundsWereJust(trace, steps, l, sent.i, sent.origin.task, sent.tx.call.oldLeader);
  }

  lemma GroundsWereJust(trace: seq<Fed>, steps: seq<Step>, l: nat, i: nat, t: nat, leader: AccountId)
    returns (k: nat)
    requires IsRun(trace, steps) && l <= |steps| && HasGrounds(trace, steps, l, i, t, leader)
    ensures Learned(trace, steps, l, i, t, leader, k) && JustCause(trace[k], i, leader, trace[l].chain.now)
  {
    k :| Learned(trace, steps, l, i, t, leader, k) && GroundsAt(trace[k], i, leader, trace[l].chain.now);
    RecordsAreSent(trace, steps, k);
    RunKeepsInSync(trace, steps, k);
    RunKeepsOk(trace, steps, k);
    RecordIsLatestHeard(trace[k], i, t, leader);
  }

  /** A node with a task has subscribed, and then records what it hears. */
  lemma RecordIsLatestHeard(f: Fed, i: nat, t: nat, leader: AccountId)
    requires i < |f.members| && t in f.members[i].tasks && AllOk(f) && InSync(f) && AllSent(f)
    ensures var m, log := f.members[i], f.chain.log;
            && RecordsSent(log, m.node) && m.delivered <= |log|
            && (HeardOf(log, m, leader) ==>
                  leader in m.node.cache && m.node.cache[leader].block == BeatAt(log, m.delivered, leader))
  {
    assert MemberOk(f.chain.log, f.members[i]);
    assert CacheOk(f.chain.log, f.members[i]);
  }
}
