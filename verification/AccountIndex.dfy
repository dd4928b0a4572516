/** The account index: a numbering of the accounts in the order of their first heartbeat, kept under
    a counter that saturates. */
module AccountIndex {
  import opened Types
  import opened Pallet

  predicate IsHeartbeat(op: Op) {
    op.Submit? && op.tx.call.AddHeartbeat?
  }

  /** The senders of heartbeats in a run, each once, in the order of their first heartbeat. */
  function FirstSenders(ops: seq<Op>): (r: seq<AccountId>)
    ensures forall a :: a in r <==> exists n :: 0 <= n < |ops| && IsHeartbeat(ops[n]) && ops[n].tx.sender == a
    ensures forall i, j :: 0 <= i < j < |r| ==> r[i] != r[j]
  {
    if ops == [] then []
    else
      var init, last := ops[..|ops| - 1], ops[|ops| - 1];
      var rest := FirstSenders(init);
      assert forall n :: 0 <= n < |init| ==> init[n] == ops[n];
      if IsHeartbeat(last) && last.tx.sender !in rest then rest + [last.tx.sender] else rest
  }

  function Min(a: nat, b: nat): nat {
    if a < b then a else b
  }

  /** The index that the saturating counter gives to the sender at position `k`. */
  function SlotFor(k: nat): u32 {
    Min(k, U32_MAX)
  }

  /** Storage numbers exactly these senders. */
  ghost predicate Numbers(s: State, senders: seq<AccountId>) {
    && s.accountsCount.GetOr(0) == SlotFor(|senders|)
    && (forall a :: a in s.accountsIndex <==> a in senders)
    && (forall k :: 0 <= k < |senders| ==> s.accountsIndex[senders[k]] == SlotFor(k))
    && (forall c: u32 :: c in s.accounts <==> c < |senders|)
    && (forall c: u32 :: c in s.accounts && c < U32_MAX ==> s.accounts[c] == senders[c])
    && (U32_MAX in s.accounts ==> s.accounts[U32_MAX] == senders[|senders| - 1])
  }

  ghost predicate OneDomain(s: State) {
    s.heartbeats.Keys == s.groups.Keys == s.nodesStatus.Keys == s.accountsIndex.Keys
  }

  lemma WithAccountNumbers(s: State, senders: seq<AccountId>, a: AccountId)
    requires Numbers(s, senders)
    requires forall i, j :: 0 <= i < j < |senders| ==> senders[i] != senders[j]
    ensures Numbers(WithAccount(s, a), if a in senders then senders else senders + [a])
  {
  }

  /** The part of the storage that the index lives in. */
  predicate SameIndex(s: State, t: State) {
    s.accounts == t.accounts && s.accountsCount == t.accountsCount && s.accountsIndex == t.accountsIndex
  }

  lemma HeartbeatKeepsDomain(s: State, a: AccountId, group: GroupId, status: u32)
    requires OneDomain(s)
    ensures OneDomain(ExecAddHeartbeat(s, a, group, status))
  {
    var u := ExecAddHeartbeat(s, a, group, status);
    var keys := s.accountsIndex.Keys + {a};
    assert u.heartbeats.Keys == keys by {
      assert u.heartbeats == s.heartbeats[a := s.now];
    }
    assert u.groups.Keys == keys by {
      assert u.groups == s.groups[a := group];
    }
    assert u.nodesStatus.Keys == keys by {
      assert u.nodesStatus == s.nodesStatus[a := status];
    }
    assert u.accountsIndex.Keys == keys;
  }

  lemma OtherStepsKeepIndex(s: State, op: Op)
    requires !IsHeartbeat(op)
    ensures var t := Step(s, op);
            SameIndex(s, t) && t.heartbeats == s.heartbeats && t.groups == s.groups && t.nodesStatus == s.nodesStatus
  {
  }

  lemma StepKeepsDomain(s: State, op: Op)
    requires OneDomain(s)
    ensures OneDomain(Step(s, op))
  {
    if IsHeartbeat(op) {
      HeartbeatKeepsDomain(s, op.tx.sender, op.tx.call.group, op.tx.call.status);
    } else {
      OtherStepsKeepIndex(s, op);
    }
  }

  lemma NumbersReadsIndex(s: State, t: State, senders: seq<AccountId>)
    requires Numbers(s, senders) && SameIndex(s, t)
    ensures Numbers(t, senders)
  {
  }

  lemma StepNumbers(s: State, senders: seq<AccountId>, op: Op)
    requires Numbers(s, senders)
    requires forall i, j :: 0 <= i < j < |senders| ==> senders[i] != senders[j]
    ensures var added := if IsHeartbeat(op) && op.tx.sender !in senders then [op.tx.sender] else [];
            Numbers(Step(s, op), senders + added)
  {
    if IsHeartbeat(op) {
      var t := WithAccount(s, op.tx.sender);
      WithAccountNumbers(s, senders, op.tx.sender);
      assert SameIndex(t, Step(s, op));
      NumbersReadsIndex(t, Step(s, op), if op.tx.sender in senders then senders else senders + [op.tx.sender]);
    } else {
      OtherStepsKeepIndex(s, op);
      NumbersReadsIndex(s, Step(s, op), senders);
    }
  }

  /** In every run the storage numbers the heartbeat senders in first-heartbeat order, and the four
      per-account maps share one domain. */
  lemma {:induction false} RunNumbers(ops: seq<Op>)
    ensures Numbers(Run(GENESIS, ops), FirstSenders(ops))
    ensures OneDomain(Run(GENESIS, ops))
  {
    if ops != [] {
      RunNumbers(ops[..|ops| - 1]);
      StepKeepsDomain(Run(GENESIS, ops[..|ops| - 1]), ops[|ops| - 1]);
      StepNumbers(Run(GENESIS, ops[..|ops| - 1]), FirstSenders(ops[..|ops| - 1]), ops[|ops| - 1]);
    }
  }

  ghost predicate MutualInverses(s: State) {
    && (forall c: u32 :: c in s.accounts ==> s.accounts[c] in s.accountsIndex && s.accountsIndex[s.accounts[c]] == c)
    && (forall a :: a in s.accountsIndex ==> s.accountsIndex[a] in s.accounts && s.accounts[s.accountsIndex[a]] == a)
  }

  lemma SmallIndexIsInverse(s: State, senders: seq<AccountId>)
    requires Numbers(s, senders) && |senders| <= U32_MAX + 1
    ensures MutualInverses(s)
  {
    forall c: u32 | c in s.accounts
      ensures s.accounts[c] in s.accountsIndex && s.accountsIndex[s.accounts[c]] == c
    {
      assert s.accounts[c] == senders[c];
    }
    forall a | a in s.accountsIndex
      ensures s.accountsIndex[a] in s.accounts && s.accounts[s.accountsIndex[a]] == a
    {
      var k :| 0 <= k < |senders| && senders[k] == a;
    }
  }

  lemma LargeIndexIsNotInverse(s: State, senders: seq<AccountId>)
    requires Numbers(s, senders) && |senders| > U32_MAX + 1
    requires forall i, j :: 0 <= i < j < |senders| ==> senders[i] != senders[j]
    ensures !MutualInverses(s)
  {
    var a, b := senders[U32_MAX], senders[U32_MAX + 1];
    assert a != b && s.accountsIndex[a] == s.accountsIndex[b];
  }

  /** `Accounts` and `AccountsIndex` are mutually inverse exactly while at most 2^32 accounts have sent a
      heartbeat; `AccountsCount` counts them exactly while there are at most 2^32 - 1. */
  lemma IndexIsBijectionUntilSaturation(ops: seq<Op>)
    ensures MutualInverses(Run(GENESIS, ops)) <==> |FirstSenders(ops)| <= U32_MAX + 1
    ensures Run(GENESIS, ops).accountsCount.GetOr(0) == |FirstSenders(ops)| <==> |FirstSenders(ops)| <= U32_MAX
  {
    RunNumbers(ops);
    var s, senders := Run(GENESIS, ops), FirstSenders(ops);
    if |senders| <= U32_MAX + 1 {
      SmallIndexIsInverse(s, senders);
    } else {
      LargeIndexIsNotInverse(s, senders);
    }
  }

  // ---------- what is stored of an account ----------

  /** The position of the latest heartbeat of the account, or -1. */
  function LatestBeat(ops: seq<Op>, a: AccountId): (n: int)
    ensures -1 <= n < |ops|
    ensures n >= 0 ==> IsHeartbeat(ops[n]) && ops[n].tx.sender == a
    ensures forall m :: n < m < |ops| ==> !(IsHeartbeat(ops[m]) && ops[m].tx.sender == a)
  {
    if ops == [] then -1
    else if IsHeartbeat(ops[|ops| - 1]) && ops[|ops| - 1].tx.sender == a then |ops| - 1
    else LatestBeat(ops[..|ops| - 1], a)
  }

  datatype Stored = Stored(block: BlockNumber, group: GroupId, status: u32)

  function StoredOf(s: State, a: AccountId): Option<Stored> {
    if a in s.heartbeats && a in s.groups && a in s.nodesStatus
    then Some(Stored(s.heartbeats[a], s.groups[a], s.nodesStatus[a])) else None
  }

  lemma StepStores(s: State, op: Op, a: AccountId)
    ensures StoredOf(Step(s, op), a) ==
            if IsHeartbeat(op) && op.tx.sender == a then Some(Stored(s.now, op.tx.call.group, op.tx.call.status))
            else StoredOf(s, a)
  {
    if IsHeartbeat(op) {
      var t := WithAccount(s, op.tx.sender);
      assert t.heartbeats == s.heartbeats && t.groups == s.groups && t.nodesStatus == s.nodesStatus && t.now == s.now;
    } else {
      OtherStepsKeepIndex(s, op);
    }
  }

  /** After any run, the block, group and status of an account are those of its latest heartbeat, the block being
      the current one when that was sent; an account without heartbeat has none. */
  lemma {:induction false} LatestHeartbeatIsStored(ops: seq<Op>, a: AccountId)
    ensures var n := LatestBeat(ops, a);
            StoredOf(Run(GENESIS, ops), a) ==
            if n < 0 then None
            else Some(Stored(Run(GENESIS, ops[..n]).now, ops[n].tx.call.group, ops[n].tx.call.status))
  {
    if ops != [] {
      var init, last := ops[..|ops| - 1], ops[|ops| - 1];
      LatestHeartbeatIsStored(init, a);
      StepStores(Run(GENESIS, init), last, a);
      var n := LatestBeat(init, a);
      if n >= 0 {
        assert init[..n] == ops[..n] && init[n] == ops[n];
      }
    }
  }
}
