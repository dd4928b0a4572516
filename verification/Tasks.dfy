/** The same operations cut at their awaits: a task waits for one reply at a time, and anything else may
    happen to the node while it waits. */
module Tasks {
  import opened Types
  import opened Heartbeats
  import opened Chain
  import opened Decisions
  import Pallet

  /** The number of the task that runs the orchestration cycle; there is never more than one. */
  const CYCLE: nat := 0

  /** The seconds waited after a successful take. */
  const SETTLE_TIME: nat := 10

  /** Where a sent transaction is, as far as the chain is concerned. */
  datatype Flight = Pending | Included(ok: bool) | Dropped

  /** What a task waits for. `forced` tasks are forced activations, the others orchestration cycles. A sent
      transaction is known by its ticket. */
  datatype Wait =
    | ForSendGate
    | ForBest
    | ForReady
    | ForLeader(forced: bool)
    | ForLed(forced: bool, leader: Option<AccountId>)
    | ForLeaderBest(other: AccountId, block: BlockNumber)
    | ForTakeGate(forced: bool, ask: Ask)
    | ForTakeResult(forced: bool, ask: Ask, ticket: nat, flight: Flight)
    | ForSettle(forced: bool, since: nat)
    | ForRecheck(forced: bool)
    | Finished

  datatype Reply =
    | GateReply(v: View)
    | BestReply(best: nat)
    | ReadyReply(ready: bool)
    | LeaderReply(leader: Option<AccountId>)
    | LedReply(led: bool)
    | ResultReply(result: TakeResult)
    | TimerReply

  predicate Fits(w: Wait, r: Reply) {
    match w
    case ForSendGate => r.GateReply?
    case ForBest => r.BestReply?
    case ForReady => r.ReadyReply?
    case ForLeader(_) => r.LeaderReply?
    case ForLed(_, _) => r.LedReply?
    case ForLeaderBest(_, _) => r.BestReply?
    case ForTakeGate(_, _) => r.GateReply?
    case ForTakeResult(_, _, _, _) => r.ResultReply?
    case ForSettle(_, _) => r.TimerReply?
    case ForRecheck(_) => r.LeaderReply?
    case Finished => false
  }

  /** The node and what the task waits for next. */
  datatype Progress = Progress(node: Node, wait: Wait)

  function Over(n: Node): Progress {
    Progress(n, Finished)
  }

  function OverPassive(n: Node): Progress {
    Over(ServiceStart(n, Passive))
  }

  /** An orchestration cycle up to its first await. */
  function BeginCycle(n: Node): Progress {
    if n.role.NoService? || !n.orchestrationEnabled then Over(n)
    else
      match n.serviceMode
      case Orchestrated => Progress(n, ForSendGate)
      case ForcedPassive => OverPassive(n)
      case ForcedActive => Progress(n, ForLeader(true))
      case Unknown => Over(n)
  }

  /** A forced activation up to its first await. */
  function BeginForce(n: Node): Progress {
    if n.role.NoService? then Over(n) else Progress(n, ForLeader(true))
  }

  /** The leadership could not be taken: a cycle enforces passive mode, a forced activation does nothing. */
  function NotTaken(n: Node, forced: bool): Progress {
    if forced then Over(n) else OverPassive(n)
  }

  /** A read of the leader that ends a task: active mode if it is the node itself. */
  function Activate(n: Node, leader: Option<AccountId>): Progress {
    Over(Recheck(n, leader))
  }

  function ResumeReady(n: Node, ready: bool): (p: Progress)
    ensures SameSetup(n, p.node) && (p.node.mode == n.mode || p.node.mode.Passive?)
  {
    var m := AfterReadiness(n, ready);
    if !ReadyAfterGrace(n, ready) || !HeartbeatsOn(m) then OverPassive(m) else Progress(m, ForLeader(false))
  }

  function ResumeLed(n: Node, forced: bool, leader: Option<AccountId>, led: bool): (p: Progress)
    ensures SameSetup(n, p.node) && (p.node.mode == n.mode || p.node.mode.Passive?)
  {
    if forced then Progress(n, ForTakeGate(true, Ask(if led then leader else Some(n.key), Forced)))
    else if !led then Progress(n, ForTakeGate(false, Ask(Some(n.key), Unled)))
    else if leader == Some(n.key) then Progress(n, ForRecheck(false))
    else if NoLivenessData(n, leader) then
      if NO_LIVENESS_THRESHOLD - n.noLiveness > 0 then OverPassive(n.(noLiveness := n.noLiveness + 1))
      else Progress(n.(noLiveness := 0), ForTakeGate(false, Ask(leader, NoData(n.noLiveness))))
    else Progress(n, ForLeaderBest(leader.value, n.cache[leader.value].block))
  }

  function ResumeTakeGate(n: Node, forced: bool, ask: Ask, v: View, ticket: nat): (p: Progress)
    ensures SameSetup(n, p.node) && (p.node.mode == n.mode || p.node.mode.Passive?)
  {
    var m := n.(link := LinkAfter(n.link, v));
    if !CanSend(n.link, v) then NotTaken(m, forced)
    else if ask.oldLeader.None? then Over(m)
    else Progress(m, ForTakeResult(forced, ask, ticket, Pending))
  }

  /** The one reply that puts the service into active mode: the leader is read and is the node itself. */
  predicate ActivatingReply(n: Node, w: Wait, r: Reply) {
    (w.ForRecheck? || w == ForLeader(true)) && r.LeaderReply? && r.leader == Some(n.key)
  }

  /** From one reply to the next await. `time` is the clock, and a transaction sent now gets this ticket. */
  function Resume(n: Node, w: Wait, r: Reply, time: nat, ticket: nat): (p: Progress)
    requires Fits(w, r)
    ensures SameSetup(n, p.node)
    ensures p.node.mode.Active? && !n.mode.Active? ==> ActivatingReply(n, w, r)
  {
    match w
    case ForSendGate =>
      var m := n.(link := LinkAfter(n.link, r.v));
      if CanSend(n.link, r.v) then Progress(m, ForBest) else OverPassive(m)
    case ForBest =>
      if SomeoneAlive(n.cache, n.key, n.aliveTime, r.best) then Progress(n, ForReady) else OverPassive(n)
    case ForReady => ResumeReady(n, r.ready)
    case ForLeader(forced) =>
      if forced && r.leader == Some(n.key) then Activate(n, r.leader) else Progress(n, ForLed(forced, r.leader))
    case ForLed(forced, leader) => ResumeLed(n, forced, leader, r.led)
    case ForLeaderBest(leader, block) =>
      if r.best - block > n.aliveTime
      then Progress(n, ForTakeGate(false, Ask(Some(leader), TooOld(block, r.best))))
      else OverPassive(n)
    case ForTakeGate(forced, ask) => ResumeTakeGate(n, forced, ask, r.v, ticket)
    case ForTakeResult(forced, ask, _, _) =>
      (match r.result
       case Accepted => Progress(n, ForSettle(forced, time))
       case Refused => NotTaken(n, forced)
       case Failure => Over(n))
    case ForSettle(forced, _) => Progress(n, ForRecheck(forced))
    case ForRecheck(_) => Activate(n, r.leader)
  }

  // ---------- the periodic heartbeat ----------

  /** The heartbeat up to its gate: the switches are read, and the status that will be sent. */
  function BeginHeartbeat(n: Node): Option<u32> {
    if HeartbeatsOn(n) then Some(StatusOf(n)) else None
  }

  /** The gate: whatever has become of switches and mode meanwhile, the heartbeat is sent if the link allows it. */
  function ResumeHeartbeat(n: Node, status: u32, v: View): (Node, Option<Pallet.Tx>) {
    (n.(link := LinkAfter(n.link, v)),
     if CanSend(n.link, v) then Some(Pallet.Tx(n.key, Pallet.AddHeartbeat(n.group, status))) else None)
  }

  /** Without interruption it is the whole heartbeat. */
  lemma TaskIsHeartbeat(n: Node, v: View)
    ensures SendHeartbeat(n, v) ==
            match BeginHeartbeat(n)
            case None => (n, None)
            case Some(status) => ResumeHeartbeat(n, status, v)
  {
  }

  // ---------- uninterrupted, the tasks are the operations ----------

  /** The reply that the answers of a whole call hold for an await. */
  function ReplyFrom(w: Wait, a: Answers): Reply
    requires !w.Finished?
    ensures Fits(w, ReplyFrom(w, a))
  {
    match w
    case ForSendGate => GateReply(a.view)
    case ForBest => BestReply(a.best)
    case ForReady => ReadyReply(a.ready)
    case ForLeader(_) => LeaderReply(a.leader)
    case ForLed(_, _) => LedReply(a.led)
    case ForLeaderBest(_, _) => BestReply(a.leaderBest)
    case ForTakeGate(_, _) => GateReply(a.takeView)
    case ForTakeResult(_, _, _, _) => ResultReply(a.takeResult)
    case ForSettle(_, _) => TimerReply
    case ForRecheck(_) => LeaderReply(a.recheck)
  }

  /** How many awaits are still ahead at most. */
  function Ahead(w: Wait): nat {
    match w
    case ForSendGate => 10
    case ForBest => 9
    case ForReady => 8
    case ForLeader(_) => 7
    case ForLed(_, _) => 6
    case ForLeaderBest(_, _) => 5
    case ForTakeGate(_, _) => 4
    case ForTakeResult(_, _, _, _) => 3
    case ForSettle(_, _) => 2
    case ForRecheck(_) => 1
    case Finished => 0
  }

  lemma ResumeAdvances(n: Node, w: Wait, r: Reply, time: nat, ticket: nat)
    requires Fits(w, r)
    ensures Ahead(Resume(n, w, r, time, ticket).wait) < Ahead(w)
  {
  }

  /** The task run to its end with nothing in between; also the requests sent on the way. */
  function Complete(p: Progress, a: Answers, time: nat, ticket: nat): (Node, seq<Ask>)
    decreases Ahead(p.wait)
  {
    if p.wait.Finished? then (p.node, [])
    else
      ResumeAdvances(p.node, p.wait, ReplyFrom(p.wait, a), time, ticket);
      var q := Resume(p.node, p.wait, ReplyFrom(p.wait, a), time, ticket);
      var (m, sent) := Complete(q, a, time, ticket);
      (m, if q.wait.ForTakeResult? then [q.wait.ask] + sent else sent)
  }

  /** What a report says was sent. */
  function SentAsks(r: Report): seq<Ask> {
    if r.sent && r.asked.Some? then [r.asked.value] else []
  }

  lemma CompleteTake(n: Node, forced: bool, ask: Ask, a: Answers, time: nat, ticket: nat)
    ensures var o := BecomeLeader(n, ask, a.takeView, a.takeResult);
            Complete(Progress(n, ForTakeGate(forced, ask)), a, time, ticket) ==
            (match o.report.verdict
             case Yes => Recheck(o.node, a.recheck)
             case No => NotTaken(o.node, forced).node
             case Raised => o.node,
             SentAsks(o.report))
  {
    var q := Resume(n, ForTakeGate(forced, ask), GateReply(a.takeView), time, ticket);
    if q.wait.ForTakeResult? {
      var r := Resume(q.node, q.wait, ResultReply(a.takeResult), time, ticket);
      if r.wait.ForSettle? {
        var s := Resume(r.node, r.wait, TimerReply, time, ticket);
        var t := Resume(s.node, s.wait, LeaderReply(a.recheck), time, ticket);
        assert Complete(t, a, time, ticket) == (t.node, []);
        assert Complete(s, a, time, ticket) == (t.node, []);
        assert Complete(r, a, time, ticket) == (t.node, []);
      } else {
        assert Complete(r, a, time, ticket) == (r.node, []);
      }
      assert Complete(q, a, time, ticket) == (Complete(r, a, time, ticket).0, []);
      assert [ask] + Complete(q, a, time, ticket).1 == [ask];
    } else {
      assert Complete(q, a, time, ticket) == (q.node, []);
    }
  }

  lemma CompleteLead(n: Node, a: Answers, time: nat, ticket: nat)
    ensures Complete(Progress(n, ForLeader(false)), a, time, ticket) == (Lead(n, a).node, SentAsks(Lead(n, a).report))
  {
    var p := Progress(n, ForLed(false, a.leader));
    var q := Resume(n, p.wait, LedReply(a.led), time, ticket);
    if q.wait.ForLeaderBest? {
      var r := Resume(q.node, q.wait, BestReply(a.leaderBest), time, ticket);
      if r.wait.ForTakeGate? {
        CompleteTake(r.node, false, r.wait.ask, a, time, ticket);
      }
      assert Complete(q, a, time, ticket) == Complete(r, a, time, ticket);
    } else if q.wait.ForTakeGate? {
      CompleteTake(q.node, false, q.wait.ask, a, time, ticket);
    } else if q.wait.ForRecheck? {
      assert Complete(q, a, time, ticket) == (Recheck(n, a.recheck), []);
    }
    assert Complete(p, a, time, ticket) == Complete(q, a, time, ticket);
  }

  /** A forced activation cut at its awaits and run without interruption does exactly what the whole one does, and
      sends exactly the same transactions. */
  lemma TaskIsForceActive(n: Node, a: Answers, time: nat, ticket: nat)
    ensures var o := ForceActive(n, a);
            Complete(BeginForce(n), a, time, ticket) == (o.node, SentAsks(o.report))
  {
    var p := BeginForce(n);
    if p.wait.ForLeader? {
      var q := Resume(n, p.wait, LeaderReply(a.leader), time, ticket);
      if q.wait.ForLed? {
        var r := Resume(q.node, q.wait, LedReply(a.led), time, ticket);
        CompleteTake(r.node, true, r.wait.ask, a, time, ticket);
        assert Complete(q, a, time, ticket) == Complete(r, a, time, ticket);
      }
      assert Complete(p, a, time, ticket) == Complete(q, a, time, ticket);
    }
  }

  lemma OrchestratedTask(n: Node, a: Answers, time: nat, ticket: nat)
    requires Managed(n) && n.orchestrationEnabled
    ensures var o := OrchestrateOperator(n, a);
            Complete(BeginCycle(n), a, time, ticket) == (o.node, SentAsks(o.report))
  {
    var p := BeginCycle(n);
    var q := Resume(n, p.wait, GateReply(a.view), time, ticket);
    if q.wait.ForBest? {
      var r := Resume(q.node, q.wait, BestReply(a.best), time, ticket);
      if r.wait.ForReady? {
        var s := Resume(r.node, r.wait, ReadyReply(a.ready), time, ticket);
        if s.wait.ForLeader? {
          CompleteLead(s.node, a, time, ticket);
        }
        assert Complete(r, a, time, ticket) == Complete(s, a, time, ticket);
      }
      assert Complete(q, a, time, ticket) == Complete(r, a, time, ticket);
    }
    assert Complete(p, a, time, ticket) == Complete(q, a, time, ticket);
  }

  /** The same for a cycle, in every service mode. */
  lemma TaskIsCycle(n: Node, a: Answers, time: nat, ticket: nat)
    ensures var o := OrchestrateService(n, a);
            Complete(BeginCycle(n), a, time, ticket) == (o.node, SentAsks(o.report))
  {
    if n.role.Operator? && n.orchestrationEnabled {
      match n.serviceMode
      case Orchestrated => OrchestratedTask(n, a, time, ticket);
      case ForcedActive => TaskIsForceActive(n, a, time, ticket);
      case _ =>
    }
  }
}
