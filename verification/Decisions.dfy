/** One orchestrator node: its state and what one uninterrupted call of each of its operations does. */
module Decisions {
  import opened Types
  import opened Heartbeats
  import opened Chain
  import Pallet

  const NO_LIVENESS_THRESHOLD: nat := 5
  const NO_READY_THRESHOLD: nat := 30

  datatype Role = Operator | NoService

  datatype ServiceMode = Orchestrated | ForcedPassive | ForcedActive | Unknown

  /** Everything a node remembers. `mode` is the mode of its service; a node without service has none. */
  datatype Node = Node(
    key: AccountId,
    group: GroupId,
    role: Role,
    serviceMode: ServiceMode,
    aliveTime: int,
    orchestrationEnabled: bool,
    heartbeatSendEnabled: bool,
    heartbeatSendEnabledAdmin: bool,
    noLiveness: nat,
    noReady: nat,
    mode: Mode,
    cache: Cache,
    link: Link)

  /** A node under orchestration; whether it is enabled at the moment is another matter. */
  predicate Managed(n: Node) {
    n.role.Operator? && n.serviceMode.Orchestrated?
  }

  /** Why leadership is asked for: with how many checks without data before, or by which heartbeat. */
  datatype Reason = Unled | NoData(checks: nat) | TooOld(block: BlockNumber, best: nat) | Forced

  /** A request for leadership: the old leader it names (none when the leader could not be read). */
  datatype Ask = Ask(oldLeader: Option<AccountId>, why: Reason)

  /** How the transaction ended as told to the sender. */
  datatype TakeResult = Accepted | Refused | Failure

  /** All that is read from outside during one call, in the order of reading. A leader that could not be
      read is None; a failed read of `led` is false, of a number 0. */
  datatype Answers = Answers(
    view: View,
    best: nat,
    ready: bool,
    leader: Option<AccountId>,
    led: bool,
    leaderBest: nat,
    takeView: View,
    takeResult: TakeResult,
    recheck: Option<AccountId>)

  datatype Verdict = Yes | No | Raised

  /** What the outside sees of a call: the leadership asked for, and whether a transaction was sent for it. */
  datatype Report = Report(verdict: Verdict, asked: Option<Ask>, sent: bool)

  datatype Outcome = Outcome(node: Node, report: Report)

  const QUIET := Report(No, None, false)

  function ServiceStart(n: Node, mode: Mode): Node {
    if n.role.NoService? then n else n.(mode := mode)
  }

  /** A start or restart: nothing is remembered, and the service is started passive. */
  function Booted(n: Node, best: nat, orchestration: bool, beats: bool): Node {
    ServiceStart(Node(n.key, n.group, n.role, n.serviceMode, n.aliveTime, orchestration, true, beats,
                      0, 0, Idle, map[], Link(best, 0)), Passive)
  }

  /** The transaction that a sent request amounts to. */
  function TakeTx(n: Node, ask: Ask): Pallet.Tx
    requires ask.oldLeader.Some?
  {
    Pallet.Tx(n.key, Pallet.SetLeader(ask.oldLeader.value, n.group))
  }

  /** Identity, settings and heartbeat cache, which no decision changes. */
  predicate SameSetup(n: Node, m: Node) {
    && m.key == n.key && m.group == n.group && m.role == n.role && m.serviceMode == n.serviceMode
    && m.aliveTime == n.aliveTime && m.orchestrationEnabled == n.orchestrationEnabled
    && m.heartbeatSendEnabledAdmin == n.heartbeatSendEnabledAdmin && m.cache == n.cache
  }

  /** Asking for leadership touches the link and the no-liveness counter only. */
  predicate OnlyLeadershipState(n: Node, m: Node) {
    m == n.(link := m.link, noLiveness := m.noLiveness)
  }

  /** Without a readable old leader the transaction cannot be built. */
  function BecomeLeader(n: Node, ask: Ask, v: View, result: TakeResult): (o: Outcome)
    ensures o.node == n.(link := o.node.link) && o.report.asked == Some(ask)
  {
    var m := n.(link := LinkAfter(n.link, v));
    if !CanSend(n.link, v) then Outcome(m, Report(No, Some(ask), false))
    else if ask.oldLeader.None? then Outcome(m, Report(Raised, Some(ask), false))
    else
      var verdict := match result case Accepted => Yes case Refused => No case Failure => Raised;
      Outcome(m, Report(verdict, Some(ask), true))
  }

  function LeaderHeartbeat(n: Node, leader: Option<AccountId>): Option<Heartbeat> {
    if leader.Some? then Lookup(n.cache, leader.value) else None
  }

  predicate NoLivenessData(n: Node, leader: Option<AccountId>) {
    var h := LeaderHeartbeat(n, leader);
    h.None? || h.value.block == 0
  }

  function OtherLeaderAction(n: Node, leader: Option<AccountId>, a: Answers): (o: Outcome)
    ensures OnlyLeadershipState(n, o.node)
  {
    if NoLivenessData(n, leader) then
      if NO_LIVENESS_THRESHOLD - n.noLiveness > 0 then
        Outcome(n.(noLiveness := n.noLiveness + 1), QUIET)
      else
        BecomeLeader(n.(noLiveness := 0), Ask(leader, NoData(n.noLiveness)), a.takeView, a.takeResult)
    else
      var block := LeaderHeartbeat(n, leader).value.block;
      if a.leaderBest - block > n.aliveTime then
        BecomeLeader(n, Ask(leader, TooOld(block, a.leaderBest)), a.takeView, a.takeResult)
      else
        Outcome(n, QUIET)
  }

  function LeadershipManagement(n: Node, a: Answers): (o: Outcome)
    ensures OnlyLeadershipState(n, o.node)
  {
    if !a.led then BecomeLeader(n, Ask(Some(n.key), Unled), a.takeView, a.takeResult)
    else if a.leader == Some(n.key) then Outcome(n, QUIET.(verdict := Yes))
    else OtherLeaderAction(n, a.leader, a)
  }

  predicate ReadyAfterGrace(n: Node, ready: bool) {
    ready || (n.mode.Active? && n.noReady < NO_READY_THRESHOLD)
  }

  function AfterReadiness(n: Node, ready: bool): Node {
    if !ready && n.mode.Active? then
      if n.noReady < NO_READY_THRESHOLD then n.(noReady := n.noReady + 1)
      else n.(heartbeatSendEnabled := false)
    else n.(heartbeatSendEnabled := n.heartbeatSendEnabled || ready, noReady := 0)
  }

  /** The recheck that ends a cycle: a changed leader leaves the mode as it is. */
  function Recheck(n: Node, leader: Option<AccountId>): Node {
    if leader == Some(n.key) then ServiceStart(n, Active) else n
  }

  /** The part of a cycle after the node is known to be ready to operate. */
  function Lead(n: Node, a: Answers): (o: Outcome)
    ensures OnlyLeadershipState(n.(mode := o.node.mode), o.node)
    ensures o.node.mode.Active? && !n.mode.Active? ==> a.recheck == Some(n.key)
  {
    var o := LeadershipManagement(n, a);
    match o.report.verdict
    case Raised => o
    case No => o.(node := ServiceStart(o.node, Passive))
    case Yes => o.(node := Recheck(o.node, a.recheck))
  }

  predicate HeartbeatsOn(n: Node) {
    n.heartbeatSendEnabled && n.heartbeatSendEnabledAdmin
  }

  function OrchestrateOperator(n: Node, a: Answers): (o: Outcome)
    ensures SameSetup(n, o.node)
  {
    var n1 := n.(link := LinkAfter(n.link, a.view));
    if !CanSend(n.link, a.view) then Outcome(ServiceStart(n1, Passive), QUIET)
    else if !SomeoneAlive(n1.cache, n1.key, n1.aliveTime, a.best) then Outcome(ServiceStart(n1, Passive), QUIET)
    else
      var n2 := AfterReadiness(n1, a.ready);
      if !ReadyAfterGrace(n1, a.ready) || !HeartbeatsOn(n2) then Outcome(ServiceStart(n2, Passive), QUIET)
      else Lead(n2, a)
  }

  function ForceActive(n: Node, a: Answers): (o: Outcome)
    ensures o.node == n.(mode := o.node.mode, link := o.node.link)
  {
    if n.role.NoService? then Outcome(n, QUIET)
    else if a.leader == Some(n.key) then Outcome(ServiceStart(n, Active), QUIET.(verdict := Yes))
    else
      var o := BecomeLeader(n, Ask(if a.led then a.leader else Some(n.key), Forced), a.takeView, a.takeResult);
      if o.report.verdict.Yes? && a.recheck == Some(n.key)
      then o.(node := ServiceStart(o.node, Active))
      else if o.report.verdict.Yes? then o.(report := o.report.(verdict := No))
      else o
  }

  function OrchestrateService(n: Node, a: Answers): (o: Outcome)
    ensures SameSetup(n, o.node)
  {
    if n.role.NoService? || !n.orchestrationEnabled then Outcome(n, QUIET)
    else
      match n.serviceMode
      case Orchestrated => OrchestrateOperator(n, a)
      case ForcedPassive => Outcome(ServiceStart(n, Passive), QUIET)
      case ForcedActive => ForceActive(n, a)
      case Unknown => Outcome(n, QUIET.(verdict := Raised))
  }

  /** The event listener. */
  function Hear(n: Node, e: Event): Node {
    match e
    case NewLeader(who, g) => if who != n.key && g == n.group then ServiceStart(n, Passive) else n
    case NewHeartbeat(who, g, status, block) => n.(cache := n.cache[who := Heartbeat(g, status, block)])
    case GiveUpLeader(_, _) => n
  }

  function StatusOf(n: Node): u32 {
    match n.mode
    case Active => 1
    case Passive => 2
    case Idle => 0
  }

  /** The periodic heartbeat: the link after it, and the transaction if one is sent. */
  function SendHeartbeat(n: Node, v: View): (Node, Option<Pallet.Tx>) {
    if !HeartbeatsOn(n) then (n, None)
    else
      (n.(link := LinkAfter(n.link, v)),
       if CanSend(n.link, v) then Some(Pallet.Tx(n.key, Pallet.AddHeartbeat(n.group, StatusOf(n)))) else None)
  }

  /** The fill at start-up: one read of the chain per configured wallet. */
  function Fill(cache: Cache, wallets: seq<AccountId>, blocks: seq<BlockNumber>): Cache
    requires |wallets| == |blocks|
  {
    if wallets == [] then cache
    else Fill(cache, wallets[..|wallets| - 1], blocks[..|wallets| - 1])
         [wallets[|wallets| - 1] := Heartbeat(0, 0, blocks[|wallets| - 1])]
  }
}
