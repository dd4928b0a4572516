/** The orchestrator process: the decisions of a node taken step by step on mutable state. */
module Orchestrator {
  import opened Types
  import opened Heartbeats
  import opened Chain
  import Pallet
  import opened D = Decisions

  class OrchestratorProcess {
    const key: AccountId
    const group: GroupId
    const role: Role
    const serviceMode: ServiceMode
    const aliveTime: int
    const chain: ChainLink
    const heartbeats: HeartbeatStore
    var orchestrationEnabled: bool
    var heartbeatSendEnabled: bool
    var heartbeatSendEnabledAdmin: bool
    var noLivenessFromLeader: nat
    var noReadyCount: nat
    var mode: Mode

    constructor (key: AccountId, group: GroupId, role: Role, serviceMode: ServiceMode, aliveTime: int,
                 chain: ChainLink, heartbeats: HeartbeatStore, orchestrationEnabled: bool, heartbeatEnabled: bool)
      ensures this.chain == chain && this.heartbeats == heartbeats
      ensures Value() == Node(key, group, role, serviceMode, aliveTime, orchestrationEnabled, true, heartbeatEnabled,
                              0, 0, Idle, heartbeats.heartbeats, chain.Value())
    {
      this.key, this.group, this.role, this.serviceMode, this.aliveTime := key, group, role, serviceMode, aliveTime;
      this.chain, this.heartbeats := chain, heartbeats;
      this.orchestrationEnabled := orchestrationEnabled;
      heartbeatSendEnabled, heartbeatSendEnabledAdmin := true, heartbeatEnabled;
      noLivenessFromLeader, noReadyCount, mode := 0, 0, Idle;
    }

    /** The start of the process: nothing is remembered, the switches are as configured, and a service is started
        passive. `best` is the number read when the connection is made. */
    static method Boot(n: Node, best: nat, orchestration: bool, beats: bool) returns (p: OrchestratorProcess)
      ensures fresh(p) && fresh(p.chain) && fresh(p.heartbeats)
      ensures p.Value() == Booted(n, best, orchestration, beats)
      ensures p.key == n.key && p.group == n.group && p.role == n.role && p.serviceMode == n.serviceMode
      ensures p.orchestrationEnabled == orchestration && p.heartbeatSendEnabledAdmin == beats && p.heartbeatSendEnabled
      ensures p.mode == if p.role.NoService? then Idle else Passive
    {
      var chain := new ChainLink(best);
      var heartbeats := new HeartbeatStore();
      p := new OrchestratorProcess(n.key, n.group, n.role, n.serviceMode, n.aliveTime, chain, heartbeats,
                                   orchestration, beats);
      p.ServiceStart(Passive);
    }

    ghost function Value(): Node
      reads this, chain, heartbeats
    {
      Node(key, group, role, serviceMode, aliveTime, orchestrationEnabled, heartbeatSendEnabled,
           heartbeatSendEnabledAdmin, noLivenessFromLeader, noReadyCount, mode, heartbeats.heartbeats, chain.Value())
    }

    method ServiceStart(mode: Mode)
      modifies this
      ensures Value() == D.ServiceStart(old(Value()), mode)
    {
      if role.NoService? {
        return;
      }
      this.mode := mode;
    }

    method FillHeartbeatsFromChain(wallets: seq<AccountId>, blocks: seq<BlockNumber>)
      requires |wallets| == |blocks|
      modifies heartbeats
      ensures Value() == old(Value()).(cache := Fill(old(heartbeats.heartbeats), wallets, blocks))
    {
      var i := 0;
      while i < |wallets|
        invariant 0 <= i <= |wallets|
        invariant heartbeats.heartbeats == Fill(old(heartbeats.heartbeats), wallets[..i], blocks[..i])
      {
        heartbeats.AddHeartbeat(wallets[i], 0, 0, blocks[i]);
        assert wallets[..i + 1][..i] == wallets[..i] && blocks[..i + 1][..i] == blocks[..i];
        i := i + 1;
      }
      assert wallets[..i] == wallets && blocks[..i] == blocks;
    }

    method BecomeLeader(ask: Ask, v: View, result: TakeResult) returns (r: Report)
      modifies chain
      ensures Outcome(Value(), r) == D.BecomeLeader(old(Value()), ask, v, result)
      ensures r.sent ==> v.connected && ask.oldLeader.Some?
      ensures r.verdict.Yes? ==> r.sent && result.Accepted?
    {
      var sendTransaction := chain.CanSendTransactions(v);
      if !sendTransaction {
        return Report(No, Some(ask), false);
      }
      if ask.oldLeader.None? {
        return Report(Raised, Some(ask), false);
      }
      match result {
        case Accepted => return Report(Yes, Some(ask), true);
        case Refused => return Report(No, Some(ask), true);
        case Failure => return Report(Raised, Some(ask), true);
      }
    }

    method OtherLeaderAction(currentLeader: Option<AccountId>, a: Answers) returns (r: Report)
      modifies this, chain
      ensures Outcome(Value(), r) == D.OtherLeaderAction(old(Value()), currentLeader, a)
      ensures r.sent ==> r.asked.value.oldLeader == currentLeader && currentLeader.Some?
      ensures old(noLivenessFromLeader) <= NO_LIVENESS_THRESHOLD ==> noLivenessFromLeader <= NO_LIVENESS_THRESHOLD
    {
      var leaderHeartbeat := None;
      if currentLeader.Some? {
        leaderHeartbeat := heartbeats.GetHeartbeat(currentLeader.value);
      }
      if leaderHeartbeat.None? || leaderHeartbeat.value.block == 0 {
        var checksNumber := NO_LIVENESS_THRESHOLD - noLivenessFromLeader;
        if checksNumber > 0 {
          noLivenessFromLeader := noLivenessFromLeader + 1;
          return QUIET;
        }
        var ask := Ask(currentLeader, NoData(noLivenessFromLeader));
        noLivenessFromLeader := 0;
        r := BecomeLeader(ask, a.takeView, a.takeResult);
        return;
      }
      var lastSeenAgo := a.leaderBest - leaderHeartbeat.value.block;
      if lastSeenAgo > aliveTime {
        var ask := Ask(currentLeader, TooOld(leaderHeartbeat.value.block, a.leaderBest));
        r := BecomeLeader(ask, a.takeView, a.takeResult);
      } else {
        r := QUIET;
      }
    }

    method LeadershipManagement(a: Answers) returns (r: Report)
      modifies this, chain
      ensures Outcome(Value(), r) == D.LeadershipManagement(old(Value()), a)
      ensures mode == old(mode)
      ensures r.sent ==> r.asked.value.oldLeader == if a.led then a.leader else Some(key)
      ensures r.verdict.Yes? && !r.sent ==> a.led && a.leader == Some(key)
    {
      var currentLeader, isLeadedGroup := a.leader, a.led;
      if !isLeadedGroup {
        r := BecomeLeader(Ask(Some(key), Unled), a.takeView, a.takeResult);
        return;
      }
      if currentLeader == Some(key) {
        return QUIET.(verdict := Yes);
      }
      r := OtherLeaderAction(currentLeader, a);
    }

    method ServiceReadinessManagement(serviceReady: bool) returns (r: bool)
      modifies this
      ensures Value() == AfterReadiness(old(Value()), serviceReady)
      ensures r <==> ReadyAfterGrace(old(Value()), serviceReady)
      ensures old(noReadyCount) <= NO_READY_THRESHOLD ==> noReadyCount <= NO_READY_THRESHOLD
      ensures old(heartbeatSendEnabled) && !heartbeatSendEnabled ==> !r && mode == Active
    {
      if !serviceReady && mode == Active {
        if noReadyCount < NO_READY_THRESHOLD {
          noReadyCount := noReadyCount + 1;
          return true;
        }
        heartbeatSendEnabled := false;
        return false;
      }
      if serviceReady && !heartbeatSendEnabled {
        heartbeatSendEnabled := true;
      }
      noReadyCount := 0;
      return serviceReady;
    }

    method OrchestrateOperatorService(a: Answers) returns (r: Report)
      modifies this, chain
      ensures Outcome(Value(), r) == OrchestrateOperator(old(Value()), a)
      ensures r.verdict.No? && role.Operator? ==> mode == Passive
    {
      var sendTransaction := chain.CanSendTransactions(a.view);
      if !sendTransaction {
        ServiceStart(Passive);
        return QUIET;
      }
      var alive := heartbeats.AnyOneAlive(key, aliveTime, group, a.best);
      if !alive {
        ServiceStart(Passive);
        return QUIET;
      }
      var serviceReady := ServiceReadinessManagement(a.ready);
      if !serviceReady {
        ServiceStart(Passive);
        return QUIET;
      }
      if !heartbeatSendEnabled || !heartbeatSendEnabledAdmin {
        ServiceStart(Passive);
        return QUIET;
      }
      r := LeadershipManagement(a);
      match r.verdict {
        case Raised =>
        case No => ServiceStart(Passive);
        case Yes =>
          if a.recheck == Some(key) {
            ServiceStart(Active);
          }
      }
    }

    method ForceActive(a: Answers) returns (r: Report)
      modifies this, chain
      ensures Outcome(Value(), r) == D.ForceActive(old(Value()), a)
      ensures mode == Active && old(mode) != Active ==> a.leader == Some(key) || a.recheck == Some(key)
      ensures r.verdict.Yes? ==> mode == Active
      ensures !r.verdict.Yes? ==> mode == old(mode)
    {
      if role.NoService? {
        return QUIET;
      }
      var currentLeader := a.leader;
      if currentLeader == Some(key) {
        ServiceStart(Active);
        return QUIET.(verdict := Yes);
      }
      currentLeader := if a.led then currentLeader else Some(key);
      r := BecomeLeader(Ask(currentLeader, Forced), a.takeView, a.takeResult);
      if r.verdict.Yes? {
        if a.recheck == Some(key) {
          ServiceStart(Active);
          return;
        }
        return r.(verdict := No);
      }
    }

    method OrchestrateService(a: Answers) returns (r: Report)
      modifies this, chain
      ensures Outcome(Value(), r) == D.OrchestrateService(old(Value()), a)
      ensures !orchestrationEnabled || role.NoService? ==> Value() == old(Value())
      ensures r.verdict.Raised? && !r.sent && r.asked.None? ==> serviceMode.Unknown? && Value() == old(Value())
    {
      if role.NoService? {
        return QUIET;
      }
      if !orchestrationEnabled {
        return QUIET;
      }
      if serviceMode == Orchestrated {
        r := OrchestrateOperatorService(a);
        return;
      }
      if serviceMode == ForcedPassive {
        ServiceStart(Passive);
        return QUIET;
      }
      if serviceMode == ForcedActive {
        r := ForceActive(a);
        return;
      }
      return QUIET.(verdict := Raised);
    }

    method OnEvent(e: Event)
      modifies this, heartbeats
      ensures Value() == Hear(old(Value()), e)
      ensures mode != old(mode) ==> mode == Passive && e.NewLeader? && e.who != key && e.group == group
    {
      match e {
        case NewLeader(who, g) =>
          if who != key && g == group {
            ServiceStart(Passive);
          }
        case NewHeartbeat(who, g, status, block) =>
          heartbeats.AddHeartbeat(who, g, status, block);
        case GiveUpLeader(_, _) =>
      }
    }

    method HeartbeatTick(v: View) returns (tx: Option<Pallet.Tx>)
      modifies chain
      ensures (Value(), tx) == SendHeartbeat(old(Value()), v)
      ensures tx.Some? ==> heartbeatSendEnabled && heartbeatSendEnabledAdmin && v.connected && tx.value.sender == key
    {
      if !heartbeatSendEnabled || !heartbeatSendEnabledAdmin {
        return None;
      }
      var nodeStatus := if mode == Active then 1 else if mode == Passive then 2 else 0;
      var sendTransaction := chain.CanSendTransactions(v);
      if !sendTransaction {
        return None;
      }
      return Some(Pallet.Tx(key, Pallet.AddHeartbeat(group, nodeStatus)));
    }
  }
}
