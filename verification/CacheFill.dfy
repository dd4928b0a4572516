/** The fill of the heartbeat cache at start-up: one read of the chain for each configured wallet. */
module CacheFill {
  import opened Types
  import opened Heartbeats
  import opened Decisions
  import opened Federation
  import opened Exclusion
  import opened CacheSync

  /** The fill records for every wallet the number read at its last occurrence in the list. */
  lemma {:induction false} FillRecordsEveryWallet(cache: Cache, wallets: seq<AccountId>, blocks: seq<BlockNumber>,
                                                 i: nat)
    requires |wallets| == |blocks| && i < |wallets|
    requires forall j :: i < j < |wallets| ==> wallets[j] != wallets[i]
    ensures wallets[i] in Decisions.Fill(cache, wallets, blocks)
    ensures Decisions.Fill(cache, wallets, blocks)[wallets[i]] == Heartbeat(0, 0, blocks[i])
  {
    if i < |wallets| - 1 {
      FillRecordsEveryWallet(cache, wallets[..|wallets| - 1], blocks[..|wallets| - 1], i);
    }
  }

  // ---------- which fills go back ----------

  /** The cache after the first `i` reads of a fill that starts from nothing. */
  function Filled(wallets: seq<AccountId>, blocks: seq<BlockNumber>, i: nat): Cache
    requires i <= |wallets| == |blocks|
  {
    Decisions.Fill(map[], wallets[..i], blocks[..i])
  }

  lemma FilledNext(wallets: seq<AccountId>, blocks: seq<BlockNumber>, i: nat)
    requires i < |wallets| == |blocks|
    ensures Filled(wallets, blocks, i + 1) == Filled(wallets, blocks, i)[wallets[i] := Heartbeat(0, 0, blocks[i])]
  {
    assert wallets[..i + 1][..i] == wallets[..i] && blocks[..i + 1][..i] == blocks[..i];
  }

  /** The cache has an entry for exactly the wallets read so far; if all reads answer one number, it is that one. */
  lemma {:induction false} FilledHolds(wallets: seq<AccountId>, blocks: seq<BlockNumber>, i: nat, number: BlockNumber)
    requires i <= |wallets| == |blocks|
    ensures forall w :: w in Filled(wallets, blocks, i) <==> w in wallets[..i]
    ensures (forall k :: 0 <= k < i ==> blocks[k] == number) ==>
              forall w :: w in Filled(wallets, blocks, i) ==> Filled(wallets, blocks, i)[w].block == number
  {
    if i > 0 {
      FilledHolds(wallets, blocks, i - 1, number);
      FilledNext(wallets, blocks, i - 1);
      assert wallets[..i] == wallets[..i - 1] + [wallets[i - 1]];
    }
  }

  /** Some entry shows a lower block after than before. */
  ghost predicate GoesBack(before: Cache, after: Cache) {
    exists w :: w in before && (w !in after || after[w].block < before[w].block)
  }

  /** Read number `i` of the fill lowers a record. */
  ghost predicate ReadGoesBack(wallets: seq<AccountId>, blocks: seq<BlockNumber>, i: nat)
    requires i < |wallets| == |blocks|
  {
    GoesBack(Filled(wallets, blocks, i), Filled(wallets, blocks, i + 1))
  }

  /** Whatever the chain answers, no read of a fill of these wallets lowers a record. */
  ghost predicate NeverGoesBack(wallets: seq<AccountId>) {
    forall blocks: seq<BlockNumber>, i: nat :: i < |wallets| == |blocks| ==> !ReadGoesBack(wallets, blocks, i)
  }

  predicate NoneTwice(wallets: seq<AccountId>) {
    forall i, j :: 0 <= i < j < |wallets| ==> wallets[i] != wallets[j]
  }

  lemma FirstReadIsNew(wallets: seq<AccountId>, blocks: seq<BlockNumber>, i: nat)
    requires i < |wallets| == |blocks| && NoneTwice(wallets)
    ensures !ReadGoesBack(wallets, blocks, i)
  {
    FilledNext(wallets, blocks, i);
    FilledHolds(wallets, blocks, i, 0);
  }

  /** The witness: every read answers 1, but the second one for the wallet fails and answers 0. */
  lemma SecondReadGoesBack(wallets: seq<AccountId>, i: nat, j: nat)
    requires i < j < |wallets| && wallets[i] == wallets[j]
    ensures !NeverGoesBack(wallets)
  {
    var blocks: seq<BlockNumber> := seq(|wallets|, k => if k == j then 0 else 1);
    FilledNext(wallets, blocks, j);
    FilledHolds(wallets, blocks, j, 1);
    assert wallets[..j][i] == wallets[j];
    assert wallets[j] in Filled(wallets, blocks, j);
    assert GoesBack(Filled(wallets, blocks, j), Filled(wallets, blocks, j + 1));
    assert ReadGoesBack(wallets, blocks, j);
  }

  /** A fill never lowers a record, whatever is read, if and only if no wallet is listed twice. */
  lemma FillGoesBackExactly(wallets: seq<AccountId>)
    ensures NeverGoesBack(wallets) <==> NoneTwice(wallets)
  {
    if NoneTwice(wallets) {
      forall blocks: seq<BlockNumber>, i: nat | i < |wallets| == |blocks|
        ensures !ReadGoesBack(wallets, blocks, i)
      {
        FirstReadIsNew(wallets, blocks, i);
      }
    } else {
      var i, j :| 0 <= i < j < |wallets| && wallets[i] == wallets[j];
      SecondReadGoesBack(wallets, i, j);
    }
  }

  // ---------- within the federation ----------

  /** Step `k` fills the entry of `w`, and up to state `n` there is no restart. */
  ghost predicate FilledAt(steps: seq<Step>, i: nat, w: AccountId, k: nat, n: nat)
    requires n <= |steps|
  {
    k < n && Fills(steps[k], i, w) && forall b :: k < b < n ==> !Restarts(steps[b], i)
  }

  /** Between two restarts member `i` fills no entry twice. */
  ghost predicate FillsNoneTwice(steps: seq<Step>, i: nat) {
    forall w, k: nat, n: nat :: n < |steps| && FilledAt(steps, i, w, k, n) ==> !Fills(steps[n], i, w)
  }

  ghost predicate FilledSinceRestart(steps: seq<Step>, i: nat, w: AccountId, n: nat)
    requires n <= |steps|
  {
    exists k: nat :: FilledAt(steps, i, w, k, n)
  }

  /** While a node fills its cache, every entry is one that it has filled since its restart. */
  ghost predicate EntriesFilled(f: Fed, steps: seq<Step>, i: nat, n: nat)
    requires n <= |steps|
  {
    i < |f.members| && !f.members[i].subscribed ==>
      forall w :: w in f.members[i].node.cache ==> FilledSinceRestart(steps, i, w, n)
  }

  lemma StepKeepsEntriesFilled(f: Fed, steps: seq<Step>, i: nat, n: nat)
    requires n < |steps| && Enabled(f, steps[n]) && i < |f.members| && EntriesFilled(f, steps, i, n)
    ensures EntriesFilled(Next(f, steps[n]), steps, i, n + 1)
  {
    var step, g := steps[n], Next(f, steps[n]);
    StepOnMembers(f, step);
    if !g.members[i].subscribed {
      forall w | w in g.members[i].node.cache
        ensures FilledSinceRestart(steps, i, w, n + 1)
      {
        EntryFilled(f, steps, i, n, w);
      }
    }
  }

  /** A node that is filling its cache gets new entries from the fill only, and forgets all at a restart. */
  lemma FillingAddsEntries(f: Fed, m: Member, s: Local, w: AccountId)
    requires CanDo(f, m, s) && !MemberNext(f, m, s).subscribed && w in MemberNext(f, m, s).node.cache
    ensures !s.Boot? && ((s.FillOne? && s.wallet == w) || w in m.node.cache)
  {
    if s.FillOne? {
      var block := if s.filledAt.Some? then BeatAt(f.chain.log, s.filledAt.value, s.wallet) else 0;
      FillSingle(m.node.cache, s.wallet, block);
    }
  }

  lemma EntryFilled(f: Fed, steps: seq<Step>, i: nat, n: nat, w: AccountId)
    requires n < |steps| && Enabled(f, steps[n]) && i < |f.members| && EntriesFilled(f, steps, i, n)
    requires |Next(f, steps[n]).members| == |f.members| && !Next(f, steps[n]).members[i].subscribed
    requires w in Next(f, steps[n]).members[i].node.cache
    ensures FilledSinceRestart(steps, i, w, n + 1)
  {
    var step, m := steps[n], f.members[i];
    if step.Own? && step.i == i {
      FillingAddsEntries(f, m, step.s, w);
    } else {
      StepOnMembers(f, step);
      assert Next(f, step).members[i].(tasks := map[]) == m.(tasks := map[]);
    }
    if Fills(step, i, w) {
      assert FilledAt(steps, i, w, n, n + 1);
    } else {
      assert FilledSinceRestart(steps, i, w, n);
      var k: nat :| FilledAt(steps, i, w, k, n);
      assert FilledAt(steps, i, w, k, n + 1);
    }
  }

  lemma {:induction false} RunKeepsEntriesFilled(trace: seq<Fed>, steps: seq<Step>, i: nat, n: nat)
    requires IsRun(trace, steps) && n <= |steps| && i < |trace[0].members|
    ensures |trace[n].members| == |trace[0].members| && EntriesFilled(trace[n], steps, i, n)
  {
    if n > 0 {
      RunKeepsEntriesFilled(trace, steps, i, n - 1);
      StepOnMembers(trace[n - 1], steps[n - 1]);
      StepKeepsEntriesFilled(trace[n - 1], steps, i, n - 1);
    }
  }

  /** If a node fills no entry twice between two restarts, its recorded block of an account goes back in no step of
      the run but a restart. */
  lemma DistinctFillsNeverGoBack(trace: seq<Fed>, steps: seq<Step>, n: nat, i: nat, w: AccountId)
    requires IsRun(trace, steps) && n < |steps| && i < |trace[0].members| && FillsNoneTwice(steps, i)
    requires !Restarts(steps[n], i)
    ensures |trace[n + 1].members| == |trace[n].members| == |trace[0].members|
    ensures RecordedBlock(trace[n].members[i].node, w) <= RecordedBlock(trace[n + 1].members[i].node, w)
  {
    RunKeepsEntriesFilled(trace, steps, i, n);
    assert Fills(steps[n], i, w) ==> !FilledSinceRestart(steps, i, w, n);
    CacheNeverGoesBack(trace, steps, n, i, w);
  }
}
