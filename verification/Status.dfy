/** What a heartbeat tells about its sender: the mode of its service, on chain and in the caches of the others. */
module Status {
  import opened Types
  import opened Heartbeats
  import opened Chain
  import opened Decisions
  import opened Tasks
  import opened Election
  import opened Federation
  import opened Exclusion
  import opened CacheSync
  import opened Members
  import Pallet

  // ---------- one heartbeat ----------

  /** Status 1 is shown exactly for active, 2 exactly for passive, and 0 otherwise. */
  predicate Shows(status: u32, mode: Mode) {
    (status == 1 <==> mode.Active?) && (status == 2 <==> mode.Passive?) && (status == 0 <==> mode.Idle?)
  }

  /** The three per-account entries of the chain. */
  predicate ShownOnChain(s: Pallet.State, w: AccountId, group: GroupId, status: u32, block: BlockNumber) {
    && Lookup(s.groups, w) == Some(group) && Lookup(s.nodesStatus, w) == Some(status)
    && Lookup(s.heartbeats, w) == Some(block)
  }

  lemma HeartbeatStored(s: Pallet.State, w: AccountId, group: GroupId, status: u32)
    ensures var t := Pallet.After(s, Pallet.Tx(w, Pallet.AddHeartbeat(group, status)));
            ShownOnChain(t, w, group, status, s.now) && t.now == s.now
  {
  }

  /** A heartbeat is sent exactly if both switches are on and the chain is fit; once it is executed, the chain shows
      the node's group, the mode that the node had, and the block. */
  lemma HeartbeatShowsMode(n: Node, v: View, s: Pallet.State)
    ensures var tx := SendHeartbeat(n, v).1;
            && (tx.Some? <==> n.heartbeatSendEnabled && n.heartbeatSendEnabledAdmin && Fit(n.link, v))
            && (tx.Some? ==> exists status: u32 ::
                  Shows(status, n.mode) && ShownOnChain(Pallet.After(s, tx.value), n.key, n.group, status, s.now))
  {
    GateOpensExactly(n.link, v);
    var tx := SendHeartbeat(n, v).1;
    if tx.Some? {
      var status := tx.value.call.status;
      HeartbeatStored(s, n.key, n.group, status);
      assert Shows(status, n.mode) && ShownOnChain(Pallet.After(s, tx.value), n.key, n.group, status, s.now);
    }
  }

  // ---------- every heartbeat of a run ----------

  /** The step begins a heartbeat of member `i`: both switches are on, and the status shows the mode. */
  predicate BeginsBeat(f: Fed, step: Step, i: nat, status: u32) {
    && i < |f.members| && step == Own(i, BeginBeat)
    && f.members[i].node.heartbeatSendEnabled && f.members[i].node.heartbeatSendEnabledAdmin
    && Shows(status, f.members[i].node.mode)
  }

  ghost predicate BeatBegun(trace: seq<Fed>, steps: seq<Step>, n: nat, i: nat, status: u32)
    requires |trace| == |steps| + 1 && n <= |steps|
  {
    exists k :: 0 <= k < n && BeginsBeat(trace[k], steps[k], i, status)
  }

  ghost predicate WaitingBegun(trace: seq<Fed>, steps: seq<Step>, n: nat)
    requires |trace| == |steps| + 1 && n <= |steps|
  {
    forall i :: 0 <= i < |trace[n].members| && trace[n].members[i].beat.Some? ==>
      BeatBegun(trace, steps, n, i, trace[n].members[i].beat.value)
  }

  ghost predicate SentBegun(trace: seq<Fed>, steps: seq<Step>, n: nat, sent: Sent)
    requires |trace| == |steps| + 1 && n <= |steps|
  {
    sent.origin.Beating? ==>
      && sent.i < |trace[n].members| && sent.tx.call.AddHeartbeat?
      && sent.tx == Pallet.Tx(trace[n].members[sent.i].node.key,
                              Pallet.AddHeartbeat(trace[n].members[sent.i].node.group, sent.tx.call.status))
      && BeatBegun(trace, steps, n, sent.i, sent.tx.call.status)
  }

  ghost predicate PoolBegun(trace: seq<Fed>, steps: seq<Step>, n: nat)
    requires |trace| == |steps| + 1 && n <= |steps|
  {
    forall x :: x in trace[n].pool ==> SentBegun(trace, steps, n, trace[n].pool[x])
  }

  /** A waiting heartbeat has been waiting before, or begins with this step. */
  lemma BeatChanges(f: Fed, step: Step, i: nat)
    requires Enabled(f, step) && i < |f.members| && |Next(f, step).members| == |f.members|
    requires Next(f, step).members[i].beat.Some?
    ensures Next(f, step).members[i].beat == f.members[i].beat ||
            BeginsBeat(f, step, i, Next(f, step).members[i].beat.value)
  {
  }

  lemma StepKeepsWaitingBegun(trace: seq<Fed>, steps: seq<Step>, n: nat)
    requires IsRun(trace, steps) && n < |steps| && WaitingBegun(trace, steps, n)
    ensures WaitingBegun(trace, steps, n + 1)
  {
    StepOfRun(trace, steps, n);
    StepOnMembers(trace[n], steps[n]);
    var g := trace[n + 1];
    forall i | 0 <= i < |g.members| && g.members[i].beat.Some?
      ensures BeatBegun(trace, steps, n + 1, i, g.members[i].beat.value)
    {
      BeatChanges(trace[n], steps[n], i);
      if g.members[i].beat == trace[n].members[i].beat {
        assert BeatBegun(trace, steps, n, i, trace[n].members[i].beat.value);
      }
    }
  }

  /** What is in the pool has been there before, or is sent with this step. */
  lemma PoolChanges(f: Fed, step: Step, x: nat)
    requires Enabled(f, step) && x in Next(f, step).pool
    ensures (x in f.pool && Next(f, step).pool[x] == f.pool[x]) ||
            (step.Own? && Sends(f, step.i, step.s) == Some(Next(f, step).pool[x]))
  {
  }

  lemma SentStaysBegun(trace: seq<Fed>, steps: seq<Step>, n: nat, sent: Sent)
    requires IsRun(trace, steps) && n < |steps| && SentBegun(trace, steps, n, sent)
    ensures SentBegun(trace, steps, n + 1, sent)
  {
    StepOfRun(trace, steps, n);
    if sent.origin.Beating? {
      StepKeepsNodes(trace[n], steps[n], sent.i);
    }
  }

  lemma NewSentBegun(trace: seq<Fed>, steps: seq<Step>, n: nat, sent: Sent)
    requires IsRun(trace, steps) && n < |steps| && WaitingBegun(trace, steps, n)
    requires Enabled(trace[n], steps[n]) && steps[n].Own? && Sends(trace[n], steps[n].i, steps[n].s) == Some(sent)
    ensures SentBegun(trace, steps, n, sent)
  {
    if sent.origin.Beating? {
      assert trace[n].members[sent.i].beat == Some(sent.tx.call.status);
    }
  }

  lemma StepKeepsPoolBegun(trace: seq<Fed>, steps: seq<Step>, n: nat)
    requires IsRun(trace, steps) && n < |steps| && WaitingBegun(trace, steps, n) && PoolBegun(trace, steps, n)
    ensures PoolBegun(trace, steps, n + 1)
  {
    StepOfRun(trace, steps, n);
    var g := trace[n + 1];
    forall x | x in g.pool
      ensures SentBegun(trace, steps, n + 1, g.pool[x])
    {
      var sent := g.pool[x];
      PoolChanges(trace[n], steps[n], x);
      if !(x in trace[n].pool && sent == trace[n].pool[x]) {
        NewSentBegun(trace, steps, n, sent);
      }
      SentStaysBegun(trace, steps, n, sent);
    }
  }

  lemma {:induction false} BeatsBegun(trace: seq<Fed>, steps: seq<Step>, n: nat)
    requires IsRun(trace, steps) && n <= |steps|
    ensures WaitingBegun(trace, steps, n) && PoolBegun(trace, steps, n)
  {
    if n > 0 {
      BeatsBegun(trace, steps, n - 1);
      StepKeepsWaitingBegun(trace, steps, n - 1);
      StepKeepsPoolBegun(trace, steps, n - 1);
    }
  }

  /** Whenever a heartbeat of a member lands, the chain shows under its key its group, the current block, and the mode
      that its service had at an earlier step, at which both of its switches were on. */
  lemma LandedHeartbeatShowsMode(trace: seq<Fed>, steps: seq<Step>, n: nat, x: nat)
    requires IsRun(trace, steps) && n < |steps| && steps[n] == Land(x) && x in trace[n].pool
    requires trace[n].pool[x].origin.Beating?
    ensures var i, s := trace[n].pool[x].i, trace[n + 1].chain;
            && i < |trace[n].members|
            && exists k, status: u32 ::
                 0 <= k < n && BeginsBeat(trace[k], steps[k], i, status) &&
                 ShownOnChain(s, trace[n].members[i].node.key, trace[n].members[i].node.group, status, s.now)
  {
    BeatsBegun(trace, steps, n);
    StepOfRun(trace, steps, n);
    var sent := trace[n].pool[x];
    assert SentBegun(trace, steps, n, sent);
    var status, node := sent.tx.call.status, trace[n].members[sent.i].node;
    var k :| 0 <= k < n && BeginsBeat(trace[k], steps[k], sent.i, status);
    HeartbeatStored(trace[n].chain, node.key, node.group, status);
    assert ShownOnChain(trace[n + 1].chain, node.key, node.group, status, trace[n + 1].chain.now);
  }

  // ---------- what the caches show ----------

  function LastEntry(log: seq<Event>, w: AccountId): Option<Heartbeat> {
    if log == [] then None
    else
      var e := log[|log| - 1];
      if IsBeat(e, w) then Some(Heartbeat(e.group, e.status, e.block)) else LastEntry(log[..|log| - 1], w)
  }

  lemma LastEntryAppend(log: seq<Event>, e: Event, w: AccountId)
    ensures LastEntry(log + [e], w) ==
            if IsBeat(e, w) then Some(Heartbeat(e.group, e.status, e.block)) else LastEntry(log, w)
  {
    assert (log + [e])[..|log|] == log;
  }

  /** The chain shows of every account what its latest heartbeat has said. */
  ghost predicate EntriesStored(s: Pallet.State) {
    forall w :: EntryStored(s, w)
  }

  predicate SameEntries(s: Pallet.State, t: Pallet.State, w: AccountId) {
    && Lookup(t.groups, w) == Lookup(s.groups, w) && Lookup(t.nodesStatus, w) == Lookup(s.nodesStatus, w)
    && Lookup(t.heartbeats, w) == Lookup(s.heartbeats, w)
  }

  lemma OthersHeartbeatKeepsEntries(s: Pallet.State, sender: AccountId, group: GroupId, status: u32, w: AccountId)
    requires sender != w
    ensures SameEntries(s, Pallet.ExecAddHeartbeat(s, sender, group, status), w)
  {
    var t := Pallet.WithAccount(s, sender);
    assert SameEntries(s, t, w);
  }

  lemma OtherEntriesStay(s: Pallet.State, tx: Pallet.Tx, w: AccountId)
    requires !(tx.call.AddHeartbeat? && tx.sender == w)
    ensures SameEntries(s, Pallet.After(s, tx), w)
  {
    if tx.call.AddHeartbeat? {
      OthersHeartbeatKeepsEntries(s, tx.sender, tx.call.group, tx.call.status, w);
    }
  }

  ghost predicate EntryStored(s: Pallet.State, w: AccountId) {
    match LastEntry(s.log, w)
    case None => w !in s.heartbeats
    case Some(h) => ShownOnChain(s, w, h.group, h.status, h.block)
  }

  lemma TxKeepsEntryStored(s: Pallet.State, tx: Pallet.Tx, w: AccountId)
    requires EntryStored(s, w)
    ensures EntryStored(Pallet.After(s, tx), w)
  {
    var added := Deposits(s, Pallet.Submit(tx));
    StepOnLog(s, Pallet.Submit(tx));
    if added != [] {
      LastEntryAppend(s.log, added[0], w);
    }
    if tx.call.AddHeartbeat? && tx.sender == w {
      HeartbeatStored(s, w, tx.call.group, tx.call.status);
    } else {
      OtherEntriesStay(s, tx, w);
    }
  }

  lemma TxKeepsEntriesStored(s: Pallet.State, tx: Pallet.Tx)
    requires EntriesStored(s)
    ensures EntriesStored(Pallet.After(s, tx))
  {
    forall w
      ensures EntryStored(Pallet.After(s, tx), w)
    {
      assert EntryStored(s, w);
      TxKeepsEntryStored(s, tx, w);
    }
  }

  /** What was heard since subscription is recorded as it was said last. */
  ghost predicate EntriesRecorded(log: seq<Event>, m: Member) {
    m.subscribed && m.joined <= m.delivered <= |log| ==>
      forall w :: HeardOf(log, m, w) ==>
        w in m.node.cache && LastEntry(log[..m.delivered], w) == Some(m.node.cache[w])
  }

  lemma DeliverKeepsRecorded(f: Fed, m: Member)
    requires EntriesRecorded(f.chain.log, m) && CanDo(f, m, Deliver) && m.joined <= m.delivered
    ensures EntriesRecorded(f.chain.log, MemberNext(f, m, Deliver))
  {
    var q, log := MemberNext(f, m, Deliver), f.chain.log;
    var e := log[m.delivered];
    assert log[..q.delivered] == log[..m.delivered] + [e];
    forall w | HeardOf(log, q, w)
      ensures w in q.node.cache && LastEntry(log[..q.delivered], w) == Some(q.node.cache[w])
    {
      LastEntryAppend(log[..m.delivered], e, w);
      if !IsBeat(e, w) {
        var p :| q.joined <= p < q.delivered && p < |log| && IsBeat(log[p], w);
        assert HeardOf(log, m, w);
      }
    }
  }

  lemma GrowthKeepsRecorded(log: seq<Event>, log': seq<Event>, m: Member, q: Member)
    requires Extends(log, log') && m.delivered <= |log| && EntriesRecorded(log, m)
    requires q.node.cache == m.node.cache && q.subscribed == m.subscribed
    requires q.joined == m.joined && q.delivered == m.delivered
    ensures EntriesRecorded(log', q)
  {
    assert log'[..|log|][..m.delivered] == log'[..m.delivered];
    forall w | HeardOf(log', q, w)
      ensures HeardOf(log, m, w)
    {
      var p :| q.joined <= p < q.delivered && p < |log'| && IsBeat(log'[p], w);
      assert IsBeat(log'[..|log|][p], w);
    }
  }

  lemma LocalKeepsRecorded(f: Fed, m: Member, s: Local)
    requires EntriesRecorded(f.chain.log, m) && CanDo(f, m, s) && m.joined <= m.delivered <= |f.chain.log|
    ensures EntriesRecorded(f.chain.log, MemberNext(f, m, s))
  {
    match s
    case Deliver => DeliverKeepsRecorded(f, m);
    case Boot(_, _, _) =>
    case FillOne(_, _) =>
    case Subscribe =>
    case _ => GrowthKeepsRecorded(f.chain.log, f.chain.log, m, MemberNext(f, m, s));
  }

  ghost predicate Shown(f: Fed) {
    && EntriesStored(f.chain)
    && forall i :: 0 <= i < |f.members| ==> EntriesRecorded(f.chain.log, f.members[i])
  }

  lemma StepKeepsStored(f: Fed, step: Step)
    requires EntriesStored(f.chain) && Enabled(f, step)
    ensures EntriesStored(Next(f, step).chain)
  {
    match step
    case Outside(tx) => TxKeepsEntriesStored(f.chain, tx);
    case Land(x) => TxKeepsEntriesStored(f.chain, f.pool[x].tx);
    case NewBlocks(_) => assert forall w :: EntryStored(f.chain, w) ==> EntryStored(Next(f, step).chain, w);
    case _ =>
  }

  lemma StepKeepsShown(f: Fed, step: Step)
    requires Shown(f) && InSync(f) && Enabled(f, step)
    ensures Shown(Next(f, step))
  {
    var g := Next(f, step);
    StepKeepsStored(f, step);
    StepGrowsLog(f, step);
    StepOnMembers(f, step);
    forall i | 0 <= i < |g.members|
      ensures EntriesRecorded(g.chain.log, g.members[i])
    {
      assert CacheOk(f.chain.log, f.members[i]);
      if step.Own? && step.i == i {
        LocalKeepsRecorded(f, f.members[i], step.s);
      } else {
        assert g.members[i].(tasks := map[]) == f.members[i].(tasks := map[]);
        GrowthKeepsRecorded(f.chain.log, g.chain.log, f.members[i].(tasks := map[]), g.members[i]);
      }
    }
  }

  lemma {:induction false} RunKeepsShown(trace: seq<Fed>, steps: seq<Step>, n: nat)
    requires IsRun(trace, steps) && n <= |steps|
    ensures Shown(trace[n])
  {
    if n > 0 {
      RunKeepsShown(trace, steps, n - 1);
      RunKeepsInSync(trace, steps, n - 1);
      StepOfRun(trace, steps, n - 1);
      StepKeepsShown(trace[n - 1], steps[n - 1]);
    }
  }

  /** In every state of every run, a node that has heard all events records of every account heard of since it
      subscribed exactly the group, the status and the block that the chain shows. */
  lemma CacheShowsChain(trace: seq<Fed>, steps: seq<Step>, n: nat, i: nat, w: AccountId)
    requires IsRun(trace, steps) && n <= |steps| && i < |trace[n].members|
    ensures var s, m := trace[n].chain, trace[n].members[i];
            m.subscribed && m.delivered == |s.log| && HeardOf(s.log, m, w) ==>
              && w in m.node.cache
              && ShownOnChain(s, w, m.node.cache[w].group, m.node.cache[w].status, m.node.cache[w].block)
  {
    RunKeepsShown(trace, steps, n);
    RunKeepsInSync(trace, steps, n);
    var s, m := trace[n].chain, trace[n].members[i];
    assert EntriesRecorded(s.log, m) && CacheOk(s.log, m) && EntryStored(s, w);
    assert s.log[..|s.log|] == s.log;
  }
}
