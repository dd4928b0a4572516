/** A node that leads stays active, over whole runs: how long it may be not ready, and what else it takes to move it
    out of active mode. */
module Steady {
  import opened Types
  import opened Chain
  import opened Decisions
  import opened Takeover
  import opened Tasks
  import opened Runs
  import opened Safeguards

  // ---------- an undisputed leader ----------

  /** The task has nothing to do with another leader. */
  predicate WaitsAsLeader(w: Wait, key: AccountId) {
    match w
    case ForLed(forced, leader) => !forced && leader == Some(key)
    case ForLeaderBest(_, _) => false
    case ForTakeGate(_, _) => false
    case ForTakeResult(_, _, _, _) => false
    case _ => true
  }

  predicate Leading(p: Process) {
    && Managed(p.node) && p.node.mode.Active?
    && p.node.heartbeatSendEnabled && p.node.heartbeatSendEnabledAdmin
    && forall t :: t in p.tasks ==> WaitsAsLeader(p.tasks[t], p.node.key)
  }

  /** Nobody restarts the node, tells it to be passive or switches its heartbeats off; it does not hear that anybody
      else has taken the leadership of its group; and every answer to a task finds the chain fit, the node and someone
      else alive, and the node itself leading. Readiness is another matter. */
  predicate Undisputed(p: Process, move: Move) {
    var n, w := p.node, Awaited(p, move);
    && !move.Restart? && !move.Passivate? && (move.SwitchHeartbeats? ==> move.on)
    && (move.Heard? && move.e.NewLeader? && move.e.group == n.group ==> move.e.who == n.key)
    && (w.ForSendGate? ==> Fit(n.link, move.reply.v))
    && (w.ForBest? ==> Recent(n, n.key, move.reply.best) &&
                       exists k :: k in n.cache && k != n.key && Recent(n, k, move.reply.best))
    && (w.ForLeader? ==> move.reply.leader == Some(n.key))
    && (w.ForLed? ==> move.reply.led)
  }

  /** A readiness answer finds the service ready, or not ready less often in a row than the threshold. */
  predicate InGrace(p: Process, move: Move) {
    Awaited(p, move).ForReady? ==> move.reply.ready || p.node.noReady < NO_READY_THRESHOLD
  }

  lemma MoveKeepsLeading(p: Process, move: Move)
    requires Leading(p) && Undisputed(p, move) && InGrace(p, move)
    ensures Leading(Do(p, move)) && AskAfter(p, move).None?
  {
    MoveKeepsIdentity(p, move);
    if Awaited(p, move).ForSendGate? {
      GateOpensExactly(p.node.link, move.reply.v);
    }
    if Awaited(p, move).ForBest? {
      AliveExactly(p.node, move.reply.best);
    }
  }

  /** An active leader that nobody disputes and whose service is ready or in its grace period stays active at every
      moment of the run, and asks for no leadership. */
  lemma {:induction false} LeaderStaysActive(p: Process, moves: seq<Move>, i: nat)
    requires i <= |moves| && Leading(p)
    requires forall k :: 0 <= k < i ==> Undisputed(At(p, moves, k), moves[k]) && InGrace(At(p, moves, k), moves[k])
    ensures Leading(At(p, moves, i))
  {
    if i > 0 {
      LeaderStaysActive(p, moves, i - 1);
      MoveKeepsLeading(At(p, moves, i - 1), moves[i - 1]);
    }
  }

  // ---------- the grace period ----------

  function ReadinessAnswers(p: Process, moves: seq<Move>, i: nat): nat
    requires i <= |moves|
  {
    if i == 0 then 0
    else ReadinessAnswers(p, moves, i - 1) + if Awaited(At(p, moves, i - 1), moves[i - 1]).ForReady? then 1 else 0
  }

  /** The leader is undisputed, but its service is never found ready. */
  ghost predicate NeverReady(p: Process, moves: seq<Move>) {
    forall k :: 0 <= k < |moves| ==>
      Undisputed(At(p, moves, k), moves[k]) && (Awaited(At(p, moves, k), moves[k]).ForReady? ==> !moves[k].reply.ready)
  }

  lemma {:induction false} GraceCounts(p: Process, moves: seq<Move>, i: nat)
    requires i <= |moves| && Leading(p) && NeverReady(p, moves)
    requires p.node.noReady + ReadinessAnswers(p, moves, i) <= NO_READY_THRESHOLD
    ensures Leading(At(p, moves, i)) && At(p, moves, i).node.noReady == p.node.noReady + ReadinessAnswers(p, moves, i)
  {
    if i > 0 {
      var before, move := At(p, moves, i - 1), moves[i - 1];
      GraceCounts(p, moves, i - 1);
      MoveKeepsLeading(before, move);
      if Awaited(before, move).ForReady? {
        ReadinessCounts(before, move);
      } else {
        OthersKeepReadiness(before, move);
      }
    }
  }

  /** The grace period over a run: an active leader whose counter starts at `c` goes on through the first
      threshold - c not-ready answers, with its cycle continuing after each of them, and stays active all the time;
      the next one ends its cycle passive and switches its heartbeats off. */
  lemma GraceLasts(p: Process, moves: seq<Move>, i: nat)
    requires i < |moves| && Leading(p) && NeverReady(p, moves)
    requires p.node.noReady + ReadinessAnswers(p, moves, i) <= NO_READY_THRESHOLD
    ensures var before, after := At(p, moves, i), At(p, moves, i + 1);
            && before.node.mode.Active?
            && (Awaited(before, moves[i]).ForReady? ==>
                  if p.node.noReady + ReadinessAnswers(p, moves, i) < NO_READY_THRESHOLD
                  then after.node.mode.Active? && moves[i].task in after.tasks &&
                       after.tasks[moves[i].task] == ForLeader(false)
                  else EndsPassive(before, moves[i]) && !after.node.heartbeatSendEnabled)
  {
    GraceCounts(p, moves, i);
    assert At(p, moves, i + 1) == Do(At(p, moves, i), moves[i]);
    if Awaited(At(p, moves, i), moves[i]).ForReady? {
      ReadinessAnswered(At(p, moves, i), moves[i]);
    }
  }

  lemma ReadinessAnswered(p: Process, move: Move)
    requires Leading(p) && Awaited(p, move).ForReady? && !move.reply.ready
    ensures if p.node.noReady < NO_READY_THRESHOLD
            then Do(p, move).node.mode.Active? && move.task in Do(p, move).tasks &&
                 Do(p, move).tasks[move.task] == ForLeader(false)
            else EndsPassive(p, move) && !Do(p, move).node.heartbeatSendEnabled
  {
  }

  // ---------- a node that cannot reach the chain ----------

  /** Every check of the link finds, at both attempts, no peers or a node still synchronizing. */
  ghost predicate Isolated(p: Process, moves: seq<Move>) {
    forall k :: 0 <= k < |moves| && LinkView(At(p, moves, k), moves[k]).Some? ==>
      !Reachable(LinkView(At(p, moves, k), moves[k]).value)
  }

  /** The node is not active, and its cycle, if there is one, has not passed its first check. */
  predicate NotStarted(p: Process) {
    && Managed(p.node) && !p.node.mode.Active? && OnlyCycle(p)
    && (CYCLE in p.tasks ==> p.tasks[CYCLE].ForSendGate?)
  }

  lemma ShutMoveKeepsNotStarted(p: Process, move: Move)
    requires NotStarted(p) && (move.Begin? ==> move.task == CYCLE)
    requires Awaited(p, move).ForSendGate? ==> !CanSend(p.node.link, move.reply.v)
    ensures NotStarted(Do(p, move)) && AskAfter(p, move).None?
  {
    MoveKeepsIdentity(p, move);
  }

  /** While a node cannot reach the chain, every check of its link stops what it was made for: cycles end passive, no
      take and no heartbeat is sent. Without forced activations it is not active again from the end of the first
      such cycle on, or if it was not active at the start. */
  lemma IsolatedNodeStops(p: Process, moves: seq<Move>, i: nat)
    requires i < |moves| && Isolated(p, moves) && p.node.role.Operator?
    ensures LinkView(At(p, moves, i), moves[i]).Some? ==> Stopped(At(p, moves, i), moves[i])
  {
    IdentityStays(p, moves, i);
    if LinkView(At(p, moves, i), moves[i]).Some? {
      GateOpensExactly(At(p, moves, i).node.link, LinkView(At(p, moves, i), moves[i]).value);
      RefusedGate(At(p, moves, i), moves[i]);
    }
  }

  lemma {:induction false} IsolatedNodeStaysPassive(p: Process, moves: seq<Move>, i: nat)
    requires i <= |moves| && Isolated(p, moves) && NoForce(moves) && NotStarted(p)
    ensures NotStarted(At(p, moves, i)) && !At(p, moves, i).node.mode.Active?
    ensures i < |moves| ==> AskAfter(At(p, moves, i), moves[i]).None?
  {
    if i > 0 {
      IsolatedNodeStaysPassive(p, moves, i - 1);
      IsolatedMove(p, moves, i - 1);
    }
    if i < |moves| {
      IsolatedMove(p, moves, i);
    }
  }

  lemma IsolatedMove(p: Process, moves: seq<Move>, i: nat)
    requires i < |moves| && Isolated(p, moves) && NoForce(moves) && NotStarted(At(p, moves, i))
    ensures NotStarted(At(p, moves, i + 1)) && AskAfter(At(p, moves, i), moves[i]).None?
  {
    var before, move := At(p, moves, i), moves[i];
    assert At(p, moves, i + 1) == Do(before, move);
    if Awaited(before, move).ForSendGate? {
      GateOpensExactly(before.node.link, move.reply.v);
    }
    ShutMoveKeepsNotStarted(before, move);
  }

  // ---------- a node configured as passive ----------

  predicate PassiveByMode(p: Process) {
    p.node.serviceMode.ForcedPassive? && !p.node.mode.Active? && p.tasks == map[]
  }

  lemma MoveKeepsPassiveMode(p: Process, move: Move)
    requires PassiveByMode(p) && (move.Begin? ==> move.task == CYCLE)
    ensures PassiveByMode(Do(p, move)) && AskAfter(p, move).None?
  {
  }

  /** Without requested activations a node configured as passive is never active, has no task that could ask for
      leadership, and sends no take. */
  lemma {:induction false} ForcedPassiveNeverLeads(p: Process, moves: seq<Move>, i: nat)
    requires i <= |moves| && NoForce(moves) && PassiveByMode(p)
    ensures PassiveByMode(At(p, moves, i)) && !At(p, moves, i).node.mode.Active?
    ensures i < |moves| ==> AskAfter(At(p, moves, i), moves[i]).None?
  {
    if i > 0 {
      ForcedPassiveNeverLeads(p, moves, i - 1);
      MoveKeepsPassiveMode(At(p, moves, i - 1), moves[i - 1]);
    }
    if i < |moves| {
      MoveKeepsPassiveMode(At(p, moves, i), moves[i]);
    }
  }
}
