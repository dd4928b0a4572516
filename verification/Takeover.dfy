/** What a node's request for leadership means to the pallet: who can be displaced, and by whom the
    service can be activated. */
module Takeover {
  import opened Types
  import opened Heartbeats
  import opened Chain
  import opened Decisions
  import Pallet

  /** No heartbeat of the account is recorded; block 0 stands for none. */
  predicate Unheard(n: Node, w: AccountId) {
    w !in n.cache || n.cache[w].block == 0
  }

  /** The grounds on which a node may depose `leader`: it has no liveness data and has waited for some
      long enough, or the recorded heartbeat is older than the alive time at the number just read. */
  predicate Grounds(n: Node, leader: AccountId, best: nat) {
    if Unheard(n, leader) then n.noLiveness >= NO_LIVENESS_THRESHOLD
    else best - n.cache[leader].block > n.aliveTime
  }

  /** Whatever the reads answer or fail to answer, a cycle whose transaction deposes a leader has really read
      that leader, names it, and has grounds against it. In particular the deposed leader does not count as
      alive at that block number. */
  lemma DepositionIsJustified(n: Node, a: Answers, s: Pallet.State, leader: AccountId)
    requires var o := OrchestrateOperator(n, a);
             o.report.sent && Pallet.Exec(s, TakeTx(n, o.report.asked.value)).Ok?
    requires n.group in s.leaders && s.leaders[n.group] == leader && leader != n.key
    ensures OrchestrateOperator(n, a).report.asked.value.oldLeader == Some(leader)
    ensures a.leader == Some(leader) && a.led
    ensures Grounds(n, leader, a.leaderBest)
    ensures leader in n.cache ==> !Alive(n.cache[leader], n.aliveTime, a.leaderBest)
  {
    var ask := OrchestrateOperator(n, a).report.asked.value;
    assert ask.oldLeader == Some(leader);
  }

  /** When the group looks unled, because it is or because the read failed, the node names itself; the
      pallet then accepts the transaction exactly when the group has no leader. */
  lemma UnledTakeDeposesNobody(n: Node, a: Answers, s: Pallet.State)
    requires var o := OrchestrateOperator(n, a); o.report.sent && !a.led
    ensures var tx := TakeTx(n, OrchestrateOperator(n, a).report.asked.value);
            Pallet.Exec(s, tx).Ok? <==> n.group !in s.leaders
  {
    assert OrchestrateOperator(n, a).report.asked == Some(Ask(Some(n.key), Unled));
  }

  // ---------- what a cycle needs ----------

  /** The account has a recorded heartbeat younger than the alive time. */
  predicate Recent(n: Node, w: AccountId, best: nat) {
    w in n.cache && 0 < n.cache[w].block && best < n.cache[w].block + n.aliveTime
  }

  /** The service is ready, or is active and has been found not ready less often in a row than the threshold. */
  predicate ReadyOrInGrace(n: Node, ready: bool) {
    ready || (n.mode.Active? && n.noReady < NO_READY_THRESHOLD)
  }

  /** The node may take part: it can reach the chain, it and someone else are alive, its service is ready or in its
      grace period, and its heartbeats are on, its own also if this finding of readiness is what switches them on. */
  predicate Operational(n: Node, a: Answers) {
    && Managed(n) && n.orchestrationEnabled && Fit(n.link, a.view)
    && Recent(n, n.key, a.best) && (exists w :: w in n.cache && w != n.key && Recent(n, w, a.best))
    && ReadyOrInGrace(n, a.ready)
    && n.heartbeatSendEnabledAdmin && (n.heartbeatSendEnabled || a.ready)
  }

  /** The check before the take, which knows the number seen by the first one. */
  predicate TakeGateOpen(n: Node, a: Answers) {
    Fit(Observe(n.link, a.view.best), a.takeView)
  }

  lemma AliveExactly(n: Node, best: nat)
    ensures SomeoneAlive(n.cache, n.key, n.aliveTime, best) <==>
            Recent(n, n.key, best) && exists w :: w in n.cache && w != n.key && Recent(n, w, best)
  {
    if SomeoneAlive(n.cache, n.key, n.aliveTime, best) {
      var w :| w in n.cache && w != n.key && Alive(n.cache[w], n.aliveTime, best);
      assert Recent(n, w, best);
    }
    if w :| w in n.cache && w != n.key && Recent(n, w, best) {
      assert Alive(n.cache[w], n.aliveTime, best);
    }
  }

  /** A node that may take part goes on to the leadership; any other one ends its cycle passive and sends nothing. */
  lemma OnlyOperationalLead(n: Node, a: Answers)
    requires Managed(n) && n.orchestrationEnabled
    ensures var o, m := OrchestrateService(n, a), AfterReadiness(n.(link := LinkAfter(n.link, a.view)), a.ready);
            if Operational(n, a) then o == Lead(m, a)
            else o.node.mode.Passive? && !o.report.sent
  {
    GateOpensExactly(n.link, a.view);
    AliveExactly(n, a.best);
  }

  // ---------- the sitting leader ----------

  /** A node whose key is the stored leader, and whose reads are answered, sends nothing and ends its cycle active if
      it may take part, and passive otherwise. */
  lemma SittingLeaderStays(n: Node, a: Answers, s: Pallet.State)
    requires Managed(n) && n.orchestrationEnabled && Lookup(s.leaders, n.group) == Some(n.key)
    requires a.led && a.leader == LeaderIn(s, n) && a.recheck == LeaderIn(s, n)
    ensures var o := OrchestrateService(n, a);
            && !o.report.sent
            && o.node.mode == if Operational(n, a) then Active else Passive
  {
    OnlyOperationalLead(n, a);
  }

  // ---------- those who ask for leadership ----------

  /** How a take ends the cycle: active if it was accepted and the node is found to lead after the wait, passive if
      it was refused, and in the mode before if the chain has no answer or another leader. */
  predicate EndsAfterTake(before: Mode, key: AccountId, a: Answers, after: Mode) {
    match a.takeResult
    case Accepted => after == if a.recheck == Some(key) then Active else before
    case Refused => after.Passive?
    case Failure => after == before
  }

  /** A node that may take part and reads that its group has no leader sends a take that names itself, if the gate
      opens again; if it does not, it ends passive. */
  lemma UnledGroupIsAskedFor(n: Node, a: Answers)
    requires Operational(n, a) && !a.led
    ensures var o := OrchestrateService(n, a);
            if TakeGateOpen(n, a)
            then o.report.sent &&
                 TakeTx(n, o.report.asked.value) == Pallet.Tx(n.key, Pallet.SetLeader(n.key, n.group)) &&
                 EndsAfterTake(n.mode, n.key, a, o.node.mode)
            else !o.report.sent && o.node.mode.Passive?
  {
    OnlyOperationalLead(n, a);
    GateOpensExactly(Observe(n.link, a.view.best), a.takeView);
  }

  /** A node that may take part and has read another leader, but finds its gate shut or has no grounds, ends passive
      and sends nothing. */
  lemma OthersLeadIsRespected(n: Node, a: Answers, leader: AccountId)
    requires Operational(n, a) && a.led && a.leader == Some(leader) && leader != n.key
    requires !TakeGateOpen(n, a) || !Grounds(n, leader, a.leaderBest)
    ensures !OrchestrateService(n, a).report.sent && OrchestrateService(n, a).node.mode.Passive?
  {
    OnlyOperationalLead(n, a);
    GateOpensExactly(Observe(n.link, a.view.best), a.takeView);
  }

  /** A leader that could not be read is never named: nothing is sent. */
  lemma UnreadLeaderIsNotNamed(n: Node, a: Answers)
    requires Operational(n, a) && a.led && a.leader.None?
    ensures !OrchestrateService(n, a).report.sent
    ensures OrchestrateService(n, a).node.mode ==
            if n.noLiveness >= NO_LIVENESS_THRESHOLD && TakeGateOpen(n, a) then n.mode else Passive
  {
    OnlyOperationalLead(n, a);
    GateOpensExactly(Observe(n.link, a.view.best), a.takeView);
  }

  /** A cycle deposes the leader it read exactly when it has grounds, provided that nothing else keeps the
      transaction from being sent. */
  lemma DeposesExactlyOnGrounds(n: Node, a: Answers, leader: AccountId)
    requires Contends(n, leader, a)
    ensures OrchestrateService(n, a).report.sent <==> Grounds(n, leader, a.leaderBest)
    ensures OrchestrateService(n, a).report.sent ==>
              OrchestrateService(n, a).report.asked.value.oldLeader == Some(leader)
    ensures if Grounds(n, leader, a.leaderBest) then EndsAfterTake(n.mode, n.key, a, OrchestrateService(n, a).node.mode)
            else OrchestrateService(n, a).node.mode.Passive?
  {
    OnlyOperationalLead(n, a);
    GateOpensExactly(Observe(n.link, a.view.best), a.takeView);
  }

  /** The cycle reaches the check of a leader other than the node, and could send a transaction. */
  predicate Contends(n: Node, leader: AccountId, a: Answers) {
    Operational(n, a) && a.led && a.leader == Some(leader) && leader != n.key && TakeGateOpen(n, a)
  }

  /** No operation puts the service into active mode unless a leader was read and was the node itself:
      at the recheck, or at the first read of a forced activation. */
  lemma ActivationNeedsOwnKey(n: Node, a: Answers)
    requires !n.mode.Active?
    ensures OrchestrateOperator(n, a).node.mode.Active? ==> a.recheck == Some(n.key)
    ensures ForceActive(n, a).node.mode.Active? ==> a.leader == Some(n.key) || a.recheck == Some(n.key)
    ensures OrchestrateService(n, a).node.mode.Active? ==> a.leader == Some(n.key) || a.recheck == Some(n.key)
  {
  }

  // ---------- takeovers that succeed ----------

  /** What a successful read of the leader of the node's group answers in this state. */
  function LeaderIn(s: Pallet.State, n: Node): Option<AccountId> {
    Some(Lookup(s.leaders, n.group).GetOr(DEFAULT_ACCOUNT))
  }

  function Taken(s: Pallet.State, n: Node, oldLeader: AccountId): Pallet.State {
    Pallet.After(s, Pallet.Tx(n.key, Pallet.SetLeader(oldLeader, n.group)))
  }

  /** A contending node whose leader still leads when its transaction is executed: with grounds it sends the take,
      succeeds the leader and ends the same cycle active; without, it sends nothing and ends passive. */
  lemma TakeoverCompletes(n: Node, a: Answers, s: Pallet.State, leader: AccountId)
    requires Contends(n, leader, a) && Lookup(s.leaders, n.group) == Some(leader)
    requires a.takeResult.Accepted? && a.recheck == LeaderIn(Taken(s, n, leader), n)
    ensures var o := OrchestrateService(n, a);
            if Grounds(n, leader, a.leaderBest)
            then o.report.sent && o.node.mode.Active? &&
                 TakeTx(n, o.report.asked.value) == Pallet.Tx(n.key, Pallet.SetLeader(leader, n.group)) &&
                 Lookup(Taken(s, n, leader).leaders, n.group) == Some(n.key)
            else !o.report.sent && o.node.mode.Passive?
  {
    DeposesExactlyOnGrounds(n, a, leader);
    assert Pallet.ExecSetLeader(s, n.key, leader, n.group).Ok?;
  }

  // ---------- forced activations and forced modes ----------

  /** A forced activation, whatever it reads: a node that leads becomes active without sending. Any other one asks
      for leadership if it finds the gate open, naming the leader it has read or, if the group has none, itself; it
      becomes active if its take is accepted and it is found to lead, and otherwise stays in its mode. */
  lemma ForcedActivationExactly(n: Node, a: Answers)
    requires n.role.Operator?
    ensures var o, named := ForceActive(n, a), if a.led then a.leader else Some(n.key);
            if a.leader == Some(n.key) then !o.report.sent && o.node.mode.Active?
            else if Fit(n.link, a.takeView) && named.Some?
            then o.report.sent &&
                 TakeTx(n, o.report.asked.value) == Pallet.Tx(n.key, Pallet.SetLeader(named.value, n.group)) &&
                 o.node.mode == if a.takeResult.Accepted? && a.recheck == Some(n.key) then Active else n.mode
            else !o.report.sent && o.node.mode == n.mode
  {
    GateOpensExactly(n.link, a.takeView);
  }

  /** The reads of a forced activation are all answered as the pallet's state says, and its take is accepted. */
  predicate ReadsForced(n: Node, a: Answers, s: Pallet.State) {
    && a.leader == LeaderIn(s, n) && (a.led <==> n.group in s.leaders) && a.takeResult.Accepted?
    && (a.led ==> a.recheck == LeaderIn(Taken(s, n, s.leaders[n.group]), n))
    && (!a.led ==> a.recheck == LeaderIn(Taken(s, n, n.key), n))
  }

  /** A forced activation whose reads are all answered and whose transaction meets the leader it has read gets
      the leadership, and ends active, whoever was leader before. */
  lemma ForcedActivationCompletes(n: Node, a: Answers, s: Pallet.State)
    requires n.role.Operator? && Fit(n.link, a.takeView) && n.key != DEFAULT_ACCOUNT && ReadsForced(n, a, s)
    ensures var o := ForceActive(n, a);
            && o.node.mode.Active?
            && (o.report.sent <==> Lookup(s.leaders, n.group) != Some(n.key))
            && (o.report.sent ==>
                  Lookup(Pallet.After(s, TakeTx(n, o.report.asked.value)).leaders, n.group) == Some(n.key))
  {
    ForcedActivationExactly(n, a);
    if n.group in s.leaders {
      assert s.leaders[n.group] != n.key ==> Pallet.ExecSetLeader(s, n.key, s.leaders[n.group], n.group).Ok?;
    } else {
      assert Pallet.ExecSetLeader(s, n.key, n.key, n.group).Ok?;
    }
  }

  /** A node configured as passive ends every enabled cycle passive and sends nothing, whatever it might read. */
  lemma ForcedPassiveStaysPassive(n: Node, a: Answers)
    requires n.role.Operator? && n.serviceMode.ForcedPassive? && n.orchestrationEnabled
    ensures var o := OrchestrateService(n, a);
            o.node == n.(mode := Passive) && !o.report.sent && o.report.asked.None?
  {
  }

  /** A node configured as active ends a cycle as a forced activation does, so active if its reads are answered. */
  lemma ForcedActiveActivates(n: Node, a: Answers, s: Pallet.State)
    requires n.role.Operator? && n.serviceMode.ForcedActive? && n.orchestrationEnabled
    requires Fit(n.link, a.takeView) && n.key != DEFAULT_ACCOUNT && ReadsForced(n, a, s)
    ensures var o := OrchestrateService(n, a);
            o.node.mode.Active? && (o.report.sent <==> Lookup(s.leaders, n.group) != Some(n.key))
  {
    ForcedActivationCompletes(n, a, s);
  }

  /** Without a service, with orchestration switched off or in an unknown mode a cycle changes and sends nothing;
      only the last is an error. */
  lemma IdleCycles(n: Node, a: Answers)
    requires n.role.NoService? || !n.orchestrationEnabled || n.serviceMode.Unknown?
    ensures var o := OrchestrateService(n, a);
            o.node == n && !o.report.sent && (o.report.verdict.Raised? <==> n.role.Operator? && n.orchestrationEnabled)
  {
  }
}
