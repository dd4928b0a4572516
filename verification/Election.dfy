/** The leader register over whole chain runs: the event log tells it, races have one winner,
    and groups do not disturb each other. */
module Election {
  import opened Types
  import opened Pallet

  // ---------- the register of one group ----------

  /** Leader slot of one group: its entries in the two leader maps. */
  datatype Slot = Slot(leader: Option<AccountId>, led: Option<bool>)

  function SlotOf(s: State, g: GroupId): Slot {
    Slot(Lookup(s.leaders, g), Lookup(s.leadedGroup, g))
  }

  /** Does a transaction on the group of the slot pass its checks? */
  predicate Accepts(slot: Slot, tx: Tx) {
    match tx.call
    case SetLeader(oldLeader, _) =>
      slot.leader.Some? ==> tx.sender != oldLeader && oldLeader == slot.leader.value
    case GiveUpLeadership(_) =>
      slot.led.GetOr(false) && slot.leader.GetOr(DEFAULT_ACCOUNT) == tx.sender
    case AddHeartbeat(_, _) => true
  }

  predicate TakesGroup(op: Op, g: GroupId) {
    op.Submit? && op.tx.call.SetLeader? && op.tx.call.group == g
  }

  predicate GivesUpGroup(op: Op, g: GroupId) {
    op.Submit? && op.tx.call.GiveUpLeadership? && op.tx.call.group == g
  }

  /** The operation reads or writes the leader slot of the group. */
  predicate TouchesGroup(op: Op, g: GroupId) {
    TakesGroup(op, g) || GivesUpGroup(op, g)
  }

  function SlotAfter(slot: Slot, op: Op, g: GroupId): Slot {
    if !TouchesGroup(op, g) || !Accepts(slot, op.tx) then slot
    else if op.tx.call.SetLeader? then Slot(Some(op.tx.sender), Some(true))
    else Slot(None, Some(false))
  }

  lemma HeartbeatLeavesSlots(s: State, sender: AccountId, group: GroupId, status: u32)
    ensures var t := ExecAddHeartbeat(s, sender, group, status);
            t.leaders == s.leaders && t.leadedGroup == s.leadedGroup
  {
    var t := WithAccount(s, sender);
    assert t.leaders == s.leaders && t.leadedGroup == s.leadedGroup;
  }

  lemma TakeOnSlot(s: State, sender: AccountId, oldLeader: AccountId, group: GroupId, g: GroupId)
    ensures var op := Submit(Tx(sender, SetLeader(oldLeader, group)));
            SlotOf(Step(s, op), g) == SlotAfter(SlotOf(s, g), op, g) &&
            (group == g ==> (Exec(s, op.tx).Ok? <==> Accepts(SlotOf(s, g), op.tx)))
  {
  }

  lemma GiveUpOnSlot(s: State, sender: AccountId, group: GroupId, g: GroupId)
    ensures var op := Submit(Tx(sender, GiveUpLeadership(group)));
            SlotOf(Step(s, op), g) == SlotAfter(SlotOf(s, g), op, g) &&
            (group == g ==> (Exec(s, op.tx).Ok? <==> Accepts(SlotOf(s, g), op.tx)))
  {
  }

  /** Seen from one group, the pallet is a compare-and-swap register: what a step does to the slot
      of the group, and whether a transaction on it succeeds, depends on that slot only. */
  lemma StepOnSlot(s: State, op: Op, g: GroupId)
    ensures SlotOf(Step(s, op), g) == SlotAfter(SlotOf(s, g), op, g)
    ensures TouchesGroup(op, g) ==> (Exec(s, op.tx).Ok? <==> Accepts(SlotOf(s, g), op.tx))
  {
    if op.Submit? {
      match op.tx.call
      case AddHeartbeat(group, status) => HeartbeatLeavesSlots(s, op.tx.sender, group, status);
      case SetLeader(oldLeader, group) => TakeOnSlot(s, op.tx.sender, oldLeader, group, g);
      case GiveUpLeadership(group) => GiveUpOnSlot(s, op.tx.sender, group, g);
    }
  }

  // ---------- the log alone determines the leader ----------

  /** The leader of a group as told by the events alone. */
  function LeaderAfter(log: seq<Event>, g: GroupId): Option<AccountId> {
    if log == [] then None
    else
      match log[|log| - 1]
      case NewLeader(a, g') => if g' == g then Some(a) else LeaderAfter(log[..|log| - 1], g)
      case GiveUpLeader(_, g') => if g' == g then None else LeaderAfter(log[..|log| - 1], g)
      case NewHeartbeat(_, _, _, _) => LeaderAfter(log[..|log| - 1], g)
  }

  predicate IsTake(e: Event, g: GroupId) {
    e.NewLeader? && e.group == g
  }

  /** Position of the latest NewLeader event of the group, or -1. */
  function LastTake(log: seq<Event>, g: GroupId): (t: int)
    ensures -1 <= t < |log|
    ensures t >= 0 ==> IsTake(log[t], g)
    ensures forall u :: t < u < |log| ==> !IsTake(log[u], g)
  {
    if log == [] then -1
    else if IsTake(log[|log| - 1], g) then |log| - 1
    else LastTake(log[..|log| - 1], g)
  }

  /** If the log names a leader, that leader is the author of the latest NewLeader event. */
  lemma {:induction false} LeaderIsLastTaker(log: seq<Event>, g: GroupId)
    ensures LeaderAfter(log, g).Some? ==>
              LastTake(log, g) >= 0 && log[LastTake(log, g)].who == LeaderAfter(log, g).value
  {
    if log != [] && !IsTake(log[|log| - 1], g) {
      LeaderIsLastTaker(log[..|log| - 1], g);
    }
  }

  /** Events that leave the leader of `g` alone. */
  lemma LeaderAfterAppend(log: seq<Event>, e: Event, g: GroupId)
    ensures LeaderAfter(log + [e], g) ==
            match e
            case NewLeader(a, g') => if g' == g then Some(a) else LeaderAfter(log, g)
            case GiveUpLeader(_, g') => if g' == g then None else LeaderAfter(log, g)
            case NewHeartbeat(_, _, _, _) => LeaderAfter(log, g)
  {
    assert (log + [e])[..|log|] == log;
  }

  /** What ties the leader maps to the log. */
  predicate Sourced(s: State, g: GroupId) {
    && SlotOf(s, g).leader == LeaderAfter(s.log, g)
    && (SlotOf(s, g).leader.Some? <==> SlotOf(s, g).led == Some(true))
  }

  ghost predicate EventSourced(s: State) {
    forall g: GroupId :: Sourced(s, g)
  }

  /** What one step appends to the log. */
  function Deposits(s: State, op: Op): seq<Event> {
    if op.Advance? || Exec(s, op.tx).Err? then []
    else
      match op.tx.call
      case SetLeader(_, g) => [NewLeader(op.tx.sender, g)]
      case GiveUpLeadership(g) => [GiveUpLeader(op.tx.sender, g)]
      case AddHeartbeat(g, status) => [NewHeartbeat(op.tx.sender, g, status, s.now)]
  }

  lemma StepOnLog(s: State, op: Op)
    ensures Step(s, op).log == s.log + Deposits(s, op)
  {
    if op.Submit? && op.tx.call.AddHeartbeat? {
      var t := WithAccount(s, op.tx.sender);
      assert t.log == s.log && t.now == s.now;
    }
  }

  lemma StepKeepsEventSourced(s: State, op: Op)
    requires EventSourced(s)
    ensures EventSourced(Step(s, op))
  {
    var t := Step(s, op);
    StepOnLog(s, op);
    forall g: GroupId
      ensures Sourced(t, g)
    {
      assert Sourced(s, g);
      StepOnSlot(s, op, g);
      if Deposits(s, op) != [] {
        LeaderAfterAppend(s.log, Deposits(s, op)[0], g);
      }
    }
  }

  /** Replaying the events of any run reproduces the leader map, and a group has a leader entry
      exactly when it is flagged as led. */
  lemma {:induction false} ReplayGivesLeaders(ops: seq<Op>)
    ensures EventSourced(Run(GENESIS, ops))
  {
    if ops != [] {
      ReplayGivesLeaders(ops[..|ops| - 1]);
      StepKeepsEventSourced(Run(GENESIS, ops[..|ops| - 1]), ops[|ops| - 1]);
    }
  }

  /** On every chain that has run from the start, leadership is given up exactly by the one who has it. */
  lemma OnlyTheLeaderGivesUp(ops: seq<Op>, sender: AccountId, g: GroupId)
    ensures var s := Run(GENESIS, ops);
            Exec(s, Tx(sender, GiveUpLeadership(g))).Ok? <==> Lookup(s.leaders, g) == Some(sender)
  {
    ReplayGivesLeaders(ops);
    assert Sourced(Run(GENESIS, ops), g);
  }

  /** Why leadership is refused: giving up fails because nobody leads the group or because someone else does. */
  lemma GiveUpRefusals(ops: seq<Op>, sender: AccountId, g: GroupId)
    ensures var s := Run(GENESIS, ops);
            && (Exec(s, Tx(sender, GiveUpLeadership(g))) == Err(NoLeaderInGroup) <==> g !in s.leaders)
            && (Exec(s, Tx(sender, GiveUpLeadership(g))) == Err(NotCurrentLeader) <==>
                  g in s.leaders && s.leaders[g] != sender)
  {
    ReplayGivesLeaders(ops);
    assert Sourced(Run(GENESIS, ops), g);
  }

  /** Taking fails in a led group only: for naming oneself, whoever leads, or otherwise for naming someone who does
      not lead. */
  lemma TakeRefusals(s: State, sender: AccountId, named: AccountId, g: GroupId)
    ensures var r := Exec(s, Tx(sender, SetLeader(named, g)));
            && (r.Ok? <==> g in s.leaders ==> named == s.leaders[g] && named != sender)
            && (r == Err(AlreadyLeader) <==> g in s.leaders && named == sender)
            && (r == Err(IncorrectOldLeader) <==> g in s.leaders && named != sender && named != s.leaders[g])
  {
  }

  // ---------- takes name their predecessor ----------

  /** Only successful operations on the group change its slot. */
  lemma {:induction false} SlotUnchanged(s: State, ops: seq<Op>, lo: nat, hi: nat, g: GroupId)
    requires lo <= hi <= |ops|
    requires forall n :: lo <= n < hi ==> !(TouchesGroup(ops[n], g) && Succeeds(s, ops, n))
    ensures SlotOf(Run(s, ops[..hi]), g) == SlotOf(Run(s, ops[..lo]), g)
    decreases hi
  {
    if lo < hi {
      SlotUnchanged(s, ops, lo, hi - 1, g);
      RunSnoc(s, ops, hi - 1);
      StepOnSlot(Run(s, ops[..hi - 1]), ops[hi - 1], g);
    }
  }

  /** Two successful takes of a group with nothing successful on the group between them:
      the later one named the author of the earlier one, and is by someone else. */
  lemma TakesFormAChain(s: State, ops: seq<Op>, i: nat, j: nat, g: GroupId)
    requires i < j < |ops| && TakesGroup(ops[i], g) && TakesGroup(ops[j], g)
    requires Succeeds(s, ops, i) && Succeeds(s, ops, j)
    requires forall n :: i < n < j ==> !(TouchesGroup(ops[n], g) && Succeeds(s, ops, n))
    ensures ops[j].tx.call.oldLeader == ops[i].tx.sender
    ensures ops[j].tx.sender != ops[i].tx.sender
  {
    RunSnoc(s, ops, i);
    StepOnSlot(Run(s, ops[..i]), ops[i], g);
    StepOnSlot(Run(s, ops[..j]), ops[j], g);
    SlotUnchanged(s, ops, i + 1, j, g);
    assert Lookup(Run(s, ops[..j]).leaders, g) == Some(ops[i].tx.sender);
  }

  // ---------- races ----------

  /** A take as an orchestrator builds it from the leader it sees in `s`: naming that other leader,
      or naming itself when it sees none. */
  predicate BuiltFrom(s: State, tx: Tx, g: GroupId)
    requires tx.call.SetLeader?
  {
    if g in s.leaders
    then tx.call.oldLeader == s.leaders[g] && tx.sender != s.leaders[g]
    else tx.call.oldLeader == tx.sender
  }

  /** The operations on group `g` are all takes built from the snapshot `s`. */
  ghost predicate RaceFrom(s: State, ops: seq<Op>, g: GroupId) {
    forall n :: 0 <= n < |ops| && TouchesGroup(ops[n], g) ==>
      TakesGroup(ops[n], g) && BuiltFrom(s, ops[n].tx, g)
  }

  /** `n` is the first take of the group. */
  ghost predicate FirstTake(ops: seq<Op>, n: nat, g: GroupId) {
    n < |ops| && TakesGroup(ops[n], g) && forall m :: 0 <= m < n ==> !TouchesGroup(ops[m], g)
  }

  /** Before its first take the slot is the snapshot's; afterwards the first taker leads. */
  lemma {:induction false} RaceState(s: State, ops: seq<Op>, first: nat, g: GroupId, n: nat)
    requires RaceFrom(s, ops, g) && FirstTake(ops, first, g) && n <= |ops|
    ensures n <= first ==> Lookup(Run(s, ops[..n]).leaders, g) == Lookup(s.leaders, g)
    ensures first < n ==> Lookup(Run(s, ops[..n]).leaders, g) == Some(ops[first].tx.sender)
    decreases n
  {
    if n > 0 {
      RaceState(s, ops, first, g, n - 1);
      RunSnoc(s, ops, n - 1);
      StepOnSlot(Run(s, ops[..n - 1]), ops[n - 1], g);
    }
  }

  /** Any number of racing takes from one snapshot, in any order and interleaved with anything on other
      groups: exactly the first one succeeds, and its sender is the leader in the end. */
  lemma RaceHasOneWinner(s: State, ops: seq<Op>, first: nat, g: GroupId)
    requires RaceFrom(s, ops, g) && FirstTake(ops, first, g)
    ensures forall n :: 0 <= n < |ops| && TakesGroup(ops[n], g) ==> (Succeeds(s, ops, n) <==> n == first)
    ensures Lookup(Run(s, ops).leaders, g) == Some(ops[first].tx.sender)
  {
    forall n | 0 <= n < |ops| && TakesGroup(ops[n], g)
      ensures Succeeds(s, ops, n) <==> n == first
    {
      RaceState(s, ops, first, g, n);
      StepOnSlot(Run(s, ops[..n]), ops[n], g);
    }
    RaceState(s, ops, first, g, |ops|);
    assert ops[..|ops|] == ops;
  }

  // ---------- groups are independent ----------

  /** The operations of the run that touch the group, in order. */
  function OnGroup(ops: seq<Op>, g: GroupId): (r: seq<Op>)
    ensures |r| <= |ops|
  {
    if ops == [] then []
    else
      var rest := OnGroup(ops[..|ops| - 1], g);
      if TouchesGroup(ops[|ops| - 1], g) then rest + [ops[|ops| - 1]] else rest
  }

  /** The leader slot of a group depends only on the operations that touch the group. */
  lemma {:induction false} GroupsDoNotInterfere(s: State, ops: seq<Op>, g: GroupId)
    ensures SlotOf(Run(s, ops), g) == SlotOf(Run(s, OnGroup(ops, g)), g)
  {
    if ops != [] {
      var init, last := ops[..|ops| - 1], ops[|ops| - 1];
      GroupsDoNotInterfere(s, init, g);
      StepOnSlot(Run(s, init), last, g);
      if TouchesGroup(last, g) {
        var kept := OnGroup(init, g);
        assert (kept + [last])[..|kept|] == kept;
        StepOnSlot(Run(s, kept), last, g);
      }
    }
  }
}
