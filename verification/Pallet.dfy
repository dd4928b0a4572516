/** The leader election pallet: a compare-and-swap register per group, a heartbeat store and
    an account index, with an append-only event log. */
module Pallet {
  import opened Types

  /** All storage items, with the log of deposited events and the current block number. */
  datatype State = State(
    now: BlockNumber,
    leaders: map<GroupId, AccountId>,
    leadedGroup: map<GroupId, bool>,
    heartbeats: map<AccountId, BlockNumber>,
    groups: map<AccountId, GroupId>,
    nodesStatus: map<AccountId, u32>,
    accounts: map<u32, AccountId>,
    accountsCount: Option<u32>,
    accountsIndex: map<AccountId, u32>,
    log: seq<Event>)

  const GENESIS := State(0, map[], map[], map[], map[], map[], map[], None, map[], [])

  datatype Error = AlreadyLeader | IncorrectOldLeader | NoLeaderInGroup | NotCurrentLeader

  datatype Call =
    | SetLeader(oldLeader: AccountId, group: GroupId)
    | GiveUpLeadership(group: GroupId)
    | AddHeartbeat(group: GroupId, status: u32)

  datatype Tx = Tx(sender: AccountId, call: Call)

  datatype Result = Ok(state: State) | Err(error: Error)

  // ---------- what each dispatchable does ----------

  function SaturatingSucc(n: u32): u32 {
    if n == U32_MAX then U32_MAX else n + 1
  }

  /** The index is all that an added account changes. */
  function WithAccount(s: State, account: AccountId): (t: State)
    ensures t == s.(accounts := t.accounts, accountsCount := t.accountsCount, accountsIndex := t.accountsIndex)
  {
    if account in s.accountsIndex then s
    else
      var count := s.accountsCount.GetOr(0);
      s.(accounts := s.accounts[count := account],
         accountsCount := Some(SaturatingSucc(count)),
         accountsIndex := s.accountsIndex[account := count])
  }

  predicate OnlyLeadership(s: State, t: State) {
    t == s.(leaders := t.leaders, leadedGroup := t.leadedGroup, log := t.log)
  }

  function ExecSetLeader(s: State, sender: AccountId, oldLeader: AccountId, group: GroupId): (r: Result)
    ensures r.Ok? ==> OnlyLeadership(s, r.state)
  {
    if group in s.leaders && sender == oldLeader then Err(AlreadyLeader)
    else if group in s.leaders && oldLeader != s.leaders[group] then Err(IncorrectOldLeader)
    else Ok(s.(leaders := s.leaders[group := sender],
               leadedGroup := s.leadedGroup[group := true],
               log := s.log + [NewLeader(sender, group)]))
  }

  function ExecGiveUp(s: State, sender: AccountId, group: GroupId): (r: Result)
    ensures r.Ok? ==> OnlyLeadership(s, r.state)
  {
    if !Lookup(s.leadedGroup, group).GetOr(false) then Err(NoLeaderInGroup)
    else if Lookup(s.leaders, group).GetOr(DEFAULT_ACCOUNT) != sender then Err(NotCurrentLeader)
    else Ok(s.(leaders := s.leaders - {group},
               leadedGroup := s.leadedGroup[group := false],
               log := s.log + [GiveUpLeader(sender, group)]))
  }

  function ExecAddHeartbeat(s: State, sender: AccountId, group: GroupId, status: u32): (t: State)
    ensures t.leaders == s.leaders && t.leadedGroup == s.leadedGroup && t.now == s.now
  {
    var t := WithAccount(s, sender);
    t.(groups := t.groups[sender := group],
       heartbeats := t.heartbeats[sender := t.now],
       nodesStatus := t.nodesStatus[sender := status],
       log := t.log + [NewHeartbeat(sender, group, status, t.now)])
  }

  function Exec(s: State, tx: Tx): Result {
    match tx.call
    case SetLeader(oldLeader, g) => ExecSetLeader(s, tx.sender, oldLeader, g)
    case GiveUpLeadership(g) => ExecGiveUp(s, tx.sender, g)
    case AddHeartbeat(g, status) => Ok(ExecAddHeartbeat(s, tx.sender, g, status))
  }

  /** A failed dispatch leaves the storage as it was. */
  function After(s: State, tx: Tx): State {
    match Exec(s, tx)
    case Ok(t) => t
    case Err(_) => s
  }

  // ---------- the pallet with its storage updated in place ----------

  datatype DispatchResult = Done | Failed(error: Error)

  class Storage {
    var now: BlockNumber
    var leaders: map<GroupId, AccountId>
    var leadedGroup: map<GroupId, bool>
    var heartbeats: map<AccountId, BlockNumber>
    var groups: map<AccountId, GroupId>
    var nodesStatus: map<AccountId, u32>
    var accounts: map<u32, AccountId>
    var accountsCount: Option<u32>
    var accountsIndex: map<AccountId, u32>
    var log: seq<Event>

    constructor ()
      ensures Value() == GENESIS
    {
      now := 0;
      leaders, leadedGroup := map[], map[];
      heartbeats, groups, nodesStatus := map[], map[], map[];
      accounts, accountsCount, accountsIndex := map[], None, map[];
      log := [];
    }

    ghost function Value(): State
      reads this
    {
      State(now, leaders, leadedGroup, heartbeats, groups, nodesStatus, accounts, accountsCount, accountsIndex, log)
    }

    method AddAccount(account: AccountId)
      modifies this
      ensures Value() == WithAccount(old(Value()), account)
    {
      if account !in accountsIndex {
        var count := accountsCount.GetOr(0);
        var newCount := SaturatingSucc(count);
        accounts := accounts[count := account];
        accountsCount := Some(newCount);
        accountsIndex := accountsIndex[account := count];
      }
    }

    method SetLeader(sender: AccountId, oldLeader: AccountId, group: GroupId) returns (r: DispatchResult)
      modifies this
      ensures Value() == After(old(Value()), Tx(sender, Call.SetLeader(oldLeader, group)))
      ensures r.Done? <==> Exec(old(Value()), Tx(sender, Call.SetLeader(oldLeader, group))).Ok?
      ensures r.Failed? ==> Exec(old(Value()), Tx(sender, Call.SetLeader(oldLeader, group))) == Err(r.error)
      ensures r == if group !in old(leaders) then Done
                   else if oldLeader == sender then Failed(AlreadyLeader)
                   else if oldLeader == old(leaders)[group] then Done else Failed(IncorrectOldLeader)
    {
      if group in leaders {
        var leader := leaders[group];
        if sender == oldLeader {
          return Failed(AlreadyLeader);
        }
        if oldLeader != leader {
          return Failed(IncorrectOldLeader);
        }
      }
      leaders := leaders[group := sender];
      leadedGroup := leadedGroup[group := true];
      log := log + [NewLeader(sender, group)];
      return Done;
    }

    method GiveUpLeadership(sender: AccountId, group: GroupId) returns (r: DispatchResult)
      modifies this
      ensures Value() == After(old(Value()), Tx(sender, Call.GiveUpLeadership(group)))
      ensures r.Done? <==> Exec(old(Value()), Tx(sender, Call.GiveUpLeadership(group))).Ok?
      ensures r.Failed? ==> Exec(old(Value()), Tx(sender, Call.GiveUpLeadership(group))) == Err(r.error)
      ensures r == Failed(NoLeaderInGroup) <==> Lookup(old(leadedGroup), group) != Some(true)
    {
      var led := Lookup(leadedGroup, group).GetOr(false);
      if !led {
        return Failed(NoLeaderInGroup);
      }
      var leader := Lookup(leaders, group).GetOr(DEFAULT_ACCOUNT);
      if leader != sender {
        return Failed(NotCurrentLeader);
      }
      leadedGroup := leadedGroup[group := false];
      leaders := leaders - {group};
      log := log + [GiveUpLeader(sender, group)];
      return Done;
    }

    method AddHeartbeat(sender: AccountId, group: GroupId, status: u32)
      modifies this
      ensures Value() == After(old(Value()), Tx(sender, Call.AddHeartbeat(group, status)))
    {
      AddAccount(sender);
      groups := groups[sender := group];
      heartbeats := heartbeats[sender := now];
      nodesStatus := nodesStatus[sender := status];
      log := log + [NewHeartbeat(sender, group, status, now)];
    }
  }

  // ---------- runs ----------

  /** A chain run is a list of block advances and transactions. */
  datatype Op = Advance(blocks: nat) | Submit(tx: Tx)

  function Step(s: State, op: Op): State {
    match op
    case Advance(d) => s.(now := s.now + d)
    case Submit(tx) => After(s, tx)
  }

  function Run(s: State, ops: seq<Op>): State {
    if ops == [] then s else Step(Run(s, ops[..|ops| - 1]), ops[|ops| - 1])
  }

  lemma RunSnoc(s: State, ops: seq<Op>, n: nat)
    requires n < |ops|
    ensures Run(s, ops[..n + 1]) == Step(Run(s, ops[..n]), ops[n])
  {
    assert ops[..n + 1][..n] == ops[..n];
  }

  /** Does transaction number `n` of the run succeed? */
  predicate Succeeds(s: State, ops: seq<Op>, n: nat)
    requires n < |ops|
  {
    ops[n].Submit? && Exec(Run(s, ops[..n]), ops[n].tx).Ok?
  }
}
