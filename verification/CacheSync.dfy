/** Every node's heartbeat cache against the heartbeats on chain, over every run of the federation. */
module CacheSync {
  import opened Types
  import opened Heartbeats
  import opened Decisions
  import opened Election
  import opened Federation
  import opened Exclusion
  import Pallet

  predicate IsBeat(e: Event, w: AccountId) {
    e.NewHeartbeat? && e.who == w
  }

  /** The heartbeat of `w` on chain after the first `k` events, 0 if there is none. */
  function BeatAt(log: seq<Event>, k: nat, w: AccountId): BlockNumber
    requires k <= |log|
  {
    LastBeat(log[..k], w).GetOr(0)
  }

  /** Heartbeats are deposited in the order of their blocks. */
  ghost predicate BeatsInOrder(log: seq<Event>, now: BlockNumber) {
    && (forall q :: 0 <= q < |log| && log[q].NewHeartbeat? ==> log[q].block <= now)
    && (forall p, q :: 0 <= p <= q < |log| && log[p].NewHeartbeat? && log[q].NewHeartbeat? ==>
          log[p].block <= log[q].block)
  }

  ghost predicate BeatsStored(s: Pallet.State) {
    forall w :: Lookup(s.heartbeats, w) == LastBeat(s.log, w)
  }

  // ---------- the chain's side ----------

  lemma LastBeatAppend(log: seq<Event>, e: Event, w: AccountId)
    ensures LastBeat(log + [e], w) == if IsBeat(e, w) then Some(e.block) else LastBeat(log, w)
  {
    assert (log + [e])[..|log|] == log;
  }

  lemma BeatAtNext(log: seq<Event>, k: nat, w: AccountId)
    requires k < |log|
    ensures BeatAt(log, k + 1, w) == if IsBeat(log[k], w) then log[k].block else BeatAt(log, k, w)
  {
    assert log[..k + 1] == log[..k] + [log[k]];
    LastBeatAppend(log[..k], log[k], w);
  }

  /** A heartbeat on chain is bounded by every later one. */
  lemma {:induction false} BeatAtBound(log: seq<Event>, now: BlockNumber, k: nat, w: AccountId, q: nat)
    requires BeatsInOrder(log, now) && k <= q < |log| && log[q].NewHeartbeat?
    ensures BeatAt(log, k, w) <= log[q].block
  {
    if k > 0 {
      BeatAtNext(log, k - 1, w);
      if !IsBeat(log[k - 1], w) {
        BeatAtBound(log, now, k - 1, w, q);
      }
    }
  }

  lemma {:induction false} BeatAtGrows(log: seq<Event>, now: BlockNumber, k: nat, l: nat, w: AccountId)
    requires BeatsInOrder(log, now) && k <= l <= |log|
    ensures BeatAt(log, k, w) <= BeatAt(log, l, w)
    decreases l
  {
    if k < l {
      BeatAtGrows(log, now, k, l - 1, w);
      BeatAtNext(log, l - 1, w);
      if IsBeat(log[l - 1], w) {
        BeatAtBound(log, now, l - 1, w, l - 1);
      }
    }
  }

  ghost predicate ChainOk(s: Pallet.State) {
    BeatsInOrder(s.log, s.now) && BeatsStored(s)
  }

  lemma HeartbeatOnMap(s: Pallet.State, tx: Pallet.Tx)
    ensures var t := Pallet.After(s, tx);
            && t.now == s.now
            && t.heartbeats == if tx.call.AddHeartbeat? then s.heartbeats[tx.sender := s.now] else s.heartbeats
  {
  }

  lemma TxKeepsChainOk(s: Pallet.State, tx: Pallet.Tx)
    requires ChainOk(s)
    ensures ChainOk(Pallet.After(s, tx))
  {
    var t := Pallet.After(s, tx);
    StepOnLog(s, Pallet.Submit(tx));
    HeartbeatOnMap(s, tx);
    var added := Deposits(s, Pallet.Submit(tx));
    forall w
      ensures Lookup(t.heartbeats, w) == LastBeat(t.log, w)
    {
      if added != [] {
        LastBeatAppend(s.log, added[0], w);
      }
    }
  }

  // ---------- the node's side ----------

  /** How much of the log bears on the cache: all that was heard, or anything while it is being filled. */
  function Horizon(log: seq<Event>, m: Member): nat {
    if m.subscribed then m.delivered else |log|
  }

  /** A heartbeat of `w` arrived between subscription and now. */
  ghost predicate HeardOf(log: seq<Event>, m: Member, w: AccountId) {
    exists q :: m.joined <= q < m.delivered && q < |log| && IsBeat(log[q], w)
  }

  ghost predicate CacheOk(log: seq<Event>, m: Member) {
    && m.joined <= m.delivered <= |log|
    && (forall w :: w in m.node.cache ==> m.node.cache[w].block <= BeatAt(log, Horizon(log, m), w))
    && (m.subscribed ==> forall w :: HeardOf(log, m, w) ==>
          w in m.node.cache && m.node.cache[w].block == BeatAt(log, m.delivered, w))
  }

  lemma DeliverKeepsCache(log: seq<Event>, now: BlockNumber, m: Member, q: Member)
    requires CacheOk(log, m) && m.subscribed && m.delivered < |log|
    requires q == m.(node := Hear(m.node, log[m.delivered]), delivered := m.delivered + 1)
    ensures CacheOk(log, q)
  {
    var e := log[m.delivered];
    forall w
      ensures w in q.node.cache ==> q.node.cache[w].block <= BeatAt(log, q.delivered, w)
      ensures HeardOf(log, q, w) ==> w in q.node.cache && q.node.cache[w].block == BeatAt(log, q.delivered, w)
    {
      BeatAtNext(log, m.delivered, w);
      if HeardOf(log, q, w) && !IsBeat(e, w) {
        var p :| q.joined <= p < q.delivered && IsBeat(log[p], w);
        assert HeardOf(log, m, w);
      }
    }
  }

  lemma FillSingle(cache: Cache, w: AccountId, block: BlockNumber)
    ensures Decisions.Fill(cache, [w], [block]) == cache[w := Heartbeat(0, 0, block)]
  {
    assert [w][..|[w]| - 1] == [] && [block][..|[w]| - 1] == [];
    assert Decisions.Fill(cache, [], []) == cache;
  }

  lemma FillKeepsCache(f: Fed, m: Member, w: AccountId, k: Option<nat>)
    requires CacheOk(f.chain.log, m) && BeatsInOrder(f.chain.log, f.chain.now) && CanDo(f, m, FillOne(w, k))
    ensures CacheOk(f.chain.log, MemberNext(f, m, FillOne(w, k)))
  {
    var q, log := MemberNext(f, m, FillOne(w, k)), f.chain.log;
    if k.Some? {
      BeatAtGrows(log, f.chain.now, k.value, |log|, w);
    }
    var block := if k.Some? then BeatAt(log, k.value, w) else 0;
    FillSingle(m.node.cache, w, block);
    assert q.node.cache == m.node.cache[w := Heartbeat(0, 0, block)];
  }

  lemma LocalKeepsCache(f: Fed, m: Member, s: Local)
    requires CacheOk(f.chain.log, m) && BeatsInOrder(f.chain.log, f.chain.now) && CanDo(f, m, s)
    ensures CacheOk(f.chain.log, MemberNext(f, m, s))
  {
    var q, log, now := MemberNext(f, m, s), f.chain.log, f.chain.now;
    match s
    case Deliver => DeliverKeepsCache(log, now, m, q);
    case FillOne(w, k) => FillKeepsCache(f, m, w, k);
    case Boot(_, _, _) =>
    case Subscribe =>
    case _ => SameCacheIsOk(log, log, now, m, q);
  }

  /** Neither tasks, settings nor a longer log disturb the cache. */
  lemma SameCacheIsOk(log: seq<Event>, log': seq<Event>, now: BlockNumber, m: Member, q: Member)
    requires CacheOk(log, m) && Extends(log, log') && BeatsInOrder(log', now)
    requires q.node.cache == m.node.cache && q.subscribed == m.subscribed
    requires q.joined == m.joined && q.delivered == m.delivered
    ensures CacheOk(log', q)
  {
    forall w
      ensures BeatAt(log, Horizon(log, m), w) <= BeatAt(log', Horizon(log', q), w)
      ensures BeatAt(log, m.delivered, w) == BeatAt(log', m.delivered, w)
      ensures HeardOf(log', q, w) ==> HeardOf(log, m, w)
    {
      assert log'[..|log|][..m.delivered] == log'[..m.delivered];
      assert log'[..|log|][..Horizon(log, m)] == log'[..Horizon(log, m)];
      BeatAtGrows(log', now, Horizon(log, m), Horizon(log', q), w);
      if HeardOf(log', q, w) {
        var p :| q.joined <= p < q.delivered && p < |log'| && IsBeat(log'[p], w);
        assert IsBeat(log'[..|log|][p], w);
      }
    }
  }

  ghost predicate InSync(f: Fed) {
    && ChainOk(f.chain)
    && forall i :: 0 <= i < |f.members| ==> CacheOk(f.chain.log, f.members[i])
  }

  lemma StepKeepsChainOk(f: Fed, step: Step)
    requires ChainOk(f.chain) && Enabled(f, step)
    ensures ChainOk(Next(f, step).chain)
  {
    match step
    case Outside(tx) => TxKeepsChainOk(f.chain, tx);
    case Land(x) => TxKeepsChainOk(f.chain, f.pool[x].tx);
    case _ =>
  }

  lemma StepKeepsInSync(f: Fed, step: Step)
    requires InSync(f) && Enabled(f, step)
    ensures InSync(Next(f, step))
  {
    var g := Next(f, step);
    StepKeepsChainOk(f, step);
    StepGrowsLog(f, step);
    StepOnMembers(f, step);
    forall i | 0 <= i < |g.members|
      ensures CacheOk(g.chain.log, g.members[i])
    {
      if step.Own? && step.i == i {
        LocalKeepsCache(f, f.members[i], step.s);
      } else {
        assert g.members[i].(tasks := map[]) == f.members[i].(tasks := map[]);
        SameCacheIsOk(f.chain.log, g.chain.log, g.chain.now, f.members[i].(tasks := map[]), g.members[i]);
      }
    }
  }

  lemma {:induction false} RunKeepsInSync(trace: seq<Fed>, steps: seq<Step>, n: nat)
    requires IsRun(trace, steps) && n <= |steps|
    ensures InSync(trace[n])
  {
    if n > 0 {
      RunKeepsInSync(trace, steps, n - 1);
      StepKeepsInSync(trace[n - 1], steps[n - 1]);
    }
  }

  /** The chain's heartbeat of an account, 0 if it has none. */
  function ChainBeat(s: Pallet.State, w: AccountId): BlockNumber {
    Lookup(s.heartbeats, w).GetOr(0)
  }

  lemma CacheBelowChain(f: Fed, i: nat, w: AccountId)
    requires InSync(f) && i < |f.members|
    ensures w in f.members[i].node.cache ==> f.members[i].node.cache[w].block <= ChainBeat(f.chain, w)
  {
    var s, m := f.chain, f.members[i];
    assert CacheOk(s.log, m);
    assert s.log[..|s.log|] == s.log;
    BeatAtGrows(s.log, s.now, Horizon(s.log, m), |s.log|, w);
  }

  /** In every state of every run a cache shows no heartbeat newer than the chain's, and a node that has heard
      all events shows exactly the chain's heartbeat of every account heard of since it subscribed. */
  lemma CacheFollowsChain(trace: seq<Fed>, steps: seq<Step>, n: nat, i: nat, w: AccountId)
    requires IsRun(trace, steps) && n <= |steps| && i < |trace[n].members|
    ensures var s, m := trace[n].chain, trace[n].members[i];
            && (w in m.node.cache ==> m.node.cache[w].block <= ChainBeat(s, w))
            && (m.subscribed && m.delivered == |s.log| && HeardOf(s.log, m, w) ==>
                  w in m.node.cache && w in s.heartbeats && m.node.cache[w].block == s.heartbeats[w])
  {
    RunKeepsInSync(trace, steps, n);
    CacheBelowChain(trace[n], i, w);
    var s, m := trace[n].chain, trace[n].members[i];
    assert CacheOk(s.log, m);
    assert s.log[..|s.log|] == s.log;
    if m.subscribed && m.delivered == |s.log| && HeardOf(s.log, m, w) {
      var q :| m.joined <= q < m.delivered && q < |s.log| && IsBeat(s.log[q], w);
      HeardHasBeat(s.log, q, w);
    }
  }

  lemma {:induction false} HeardHasBeat(log: seq<Event>, q: nat, w: AccountId)
    requires q < |log| && IsBeat(log[q], w)
    ensures LastBeat(log, w).Some?
  {
    if q < |log| - 1 {
      HeardHasBeat(log[..|log| - 1], q, w);
    }
  }

  /** The block recorded of an account, 0 if there is none. */
  function RecordedBlock(n: Node, w: AccountId): BlockNumber {
    if w in n.cache then n.cache[w].block else 0
  }

  predicate Restarts(step: Step, i: nat) {
    step.Own? && step.i == i && step.s.Boot?
  }

  predicate Fills(step: Step, i: nat, w: AccountId) {
    step.Own? && step.i == i && step.s.FillOne? && step.s.wallet == w
  }

  lemma DeliverNeverGoesBack(f: Fed, i: nat, w: AccountId)
    requires InSync(f) && Enabled(f, Own(i, Deliver))
    ensures RecordedBlock(f.members[i].node, w) <= RecordedBlock(MemberNext(f, f.members[i], Deliver).node, w)
  {
    var m := f.members[i];
    assert CacheOk(f.chain.log, m);
    if w in m.node.cache && IsBeat(f.chain.log[m.delivered], w) {
      BeatAtBound(f.chain.log, f.chain.now, m.delivered, w, m.delivered);
    }
  }

  /** Although a new entry overwrites the old one whatever it says, a node's recorded block of an account goes back in
      no step of any run but a restart, or a read of the fill for an account that is recorded already. */
  lemma CacheNeverGoesBack(trace: seq<Fed>, steps: seq<Step>, n: nat, i: nat, w: AccountId)
    requires IsRun(trace, steps) && n < |steps| && i < |trace[n].members|
    requires !Restarts(steps[n], i) && !(Fills(steps[n], i, w) && w in trace[n].members[i].node.cache)
    ensures |trace[n + 1].members| == |trace[n].members|
    ensures RecordedBlock(trace[n].members[i].node, w) <= RecordedBlock(trace[n + 1].members[i].node, w)
  {
    RunKeepsInSync(trace, steps, n);
    var f, step := trace[n], steps[n];
    StepOnMembers(f, step);
    var m := f.members[i];
    if step.Own? && step.i == i {
      if step.s.FillOne? {
        var block := if step.s.filledAt.Some? then BeatAt(f.chain.log, step.s.filledAt.value, step.s.wallet) else 0;
        FillSingle(m.node.cache, step.s.wallet, block);
      } else if step.s.Deliver? {
        DeliverNeverGoesBack(f, i, w);
      }
    } else {
      assert Next(f, step).members[i].(tasks := map[]).node == m.(tasks := map[]).node;
    }
  }

  // ---------- where the records come from ----------

  /** The chain has deposited a heartbeat of `w` at this block. */
  ghost predicate BeatSent(log: seq<Event>, w: AccountId, block: BlockNumber) {
    exists q :: 0 <= q < |log| && IsBeat(log[q], w) && log[q].block == block
  }

  /** Every recorded block, unless it is 0, is that of a heartbeat really sent. */
  ghost predicate RecordsSent(log: seq<Event>, n: Node) {
    forall w :: w in n.cache && n.cache[w].block != 0 ==> BeatSent(log, w, n.cache[w].block)
  }

  lemma {:induction false} LastBeatWasSent(log: seq<Event>, w: AccountId)
    requires LastBeat(log, w).Some?
    ensures BeatSent(log, w, LastBeat(log, w).value)
  {
    var init := log[..|log| - 1];
    if !IsBeat(log[|log| - 1], w) {
      LastBeatWasSent(init, w);
      var q :| 0 <= q < |init| && IsBeat(init[q], w) && init[q].block == LastBeat(log, w).value;
      assert IsBeat(log[q], w);
    }
  }

  lemma BeatStaysSent(log: seq<Event>, log': seq<Event>, w: AccountId, block: BlockNumber)
    requires Extends(log, log') && BeatSent(log, w, block)
    ensures BeatSent(log', w, block)
  {
    var q :| 0 <= q < |log| && IsBeat(log[q], w) && log[q].block == block;
    assert log'[..|log|][q] == log'[q];
  }

  lemma LocalKeepsSent(f: Fed, m: Member, s: Local)
    requires RecordsSent(f.chain.log, m.node) && CanDo(f, m, s)
    ensures RecordsSent(f.chain.log, MemberNext(f, m, s).node)
  {
    var log, q := f.chain.log, MemberNext(f, m, s);
    match s
    case Deliver => assert IsBeat(log[m.delivered], log[m.delivered].who) || !log[m.delivered].NewHeartbeat?;
    case FillOne(w, k) =>
      var block := if k.Some? then BeatAt(log, k.value, w) else 0;
      FillSingle(m.node.cache, w, block);
      if block != 0 {
        LastBeatWasSent(log[..k.value], w);
        BeatStaysSent(log[..k.value], log, w, block);
      }
    case _ => assert q.node.cache == map[] || q.node.cache == m.node.cache;
  }

  ghost predicate AllSent(f: Fed) {
    forall i :: 0 <= i < |f.members| ==> RecordsSent(f.chain.log, f.members[i].node)
  }

  lemma StepKeepsSent(f: Fed, step: Step)
    requires AllSent(f) && Enabled(f, step)
    ensures AllSent(Next(f, step))
  {
    var g := Next(f, step);
    StepGrowsLog(f, step);
    StepOnMembers(f, step);
    forall i | 0 <= i < |g.members|
      ensures RecordsSent(g.chain.log, g.members[i].node)
    {
      if step.Own? && step.i == i {
        LocalKeepsSent(f, f.members[i], step.s);
      } else {
        assert g.members[i].(tasks := map[]).node == f.members[i].(tasks := map[]).node;
        var cache := f.members[i].node.cache;
        forall w | w in cache && cache[w].block != 0
          ensures BeatSent(g.chain.log, w, cache[w].block)
        {
          assert RecordsSent(f.chain.log, f.members[i].node);
          BeatStaysSent(f.chain.log, g.chain.log, w, cache[w].block);
        }
      }
    }
  }

  /** In every state of every run, whatever block a node has recorded of an account, unless 0, is that of a
      heartbeat that the account has really sent. */
  lemma {:induction false} RecordsAreSent(trace: seq<Fed>, steps: seq<Step>, n: nat)
    requires IsRun(trace, steps) && n <= |steps|
    ensures AllSent(trace[n])
  {
    if n > 0 {
      RecordsAreSent(trace, steps, n - 1);
      StepKeepsSent(trace[n - 1], steps[n - 1]);
    }
  }
}
