/** The ways in which a node keeps itself out of active mode, over whole runs. */
module Safeguards {
  import opened Types
  import opened Heartbeats
  import opened Chain
  import opened Decisions
  import opened Tasks
  import opened Runs

  /** The move makes its task end with the service in passive mode. */
  predicate EndsPassive(p: Process, move: Move) {
    !Awaited(p, move).Finished? && move.task !in Do(p, move).tasks && Do(p, move).node.mode.Passive?
  }

  // ---------- readiness ----------

  /** A cycle learns that the service, active at this moment, is not ready. */
  predicate FindsActiveNotReady(p: Process, move: Move) {
    Awaited(p, move).ForReady? && !move.reply.ready && p.node.mode.Active?
  }

  /** What the readiness answers among the first `i` moves, since the last restart, have found: each time, whether
      the service was active and not ready. The counter at the start stands for findings before it. */
  function Findings(p: Process, moves: seq<Move>, i: nat): seq<bool>
    requires i <= |moves|
  {
    if i == 0 then seq(p.node.noReady, _ => true)
    else
      var before, move := At(p, moves, i - 1), moves[i - 1];
      if move.Restart? then []
      else if !Awaited(before, move).ForReady? then Findings(p, moves, i - 1)
      else Findings(p, moves, i - 1) + [FindsActiveNotReady(before, move)]
  }

  /** There are at least `r` findings, and the last `r` were all of an active service that is not ready. */
  predicate LastNotReady(findings: seq<bool>, r: nat) {
    r <= |findings| && forall k :: |findings| - r <= k < |findings| ==> findings[k]
  }

  lemma ReadinessCounts(p: Process, move: Move)
    requires Awaited(p, move).ForReady?
    ensures var before, after := p.node.noReady, Do(p, move).node.noReady;
            after == if !FindsActiveNotReady(p, move) then 0
                     else if before < NO_READY_THRESHOLD then before + 1 else before
  {
  }

  predicate SameReadiness(n: Node, m: Node) {
    m.noReady == n.noReady && m.heartbeatSendEnabled == n.heartbeatSendEnabled
  }

  lemma OtherAnswersKeepReadiness(p: Process, move: Move)
    requires !Awaited(p, move).ForReady? && move.Answer? && Possible(p, move)
    ensures SameReadiness(p.node, Do(p, move).node)
  {
  }

  lemma OthersKeepReadiness(p: Process, move: Move)
    requires !Awaited(p, move).ForReady? && !move.Restart?
    ensures SameReadiness(p.node, Do(p, move).node)
  {
    if move.Answer? && Possible(p, move) {
      OtherAnswersKeepReadiness(p, move);
    }
  }

  /** The counter tells how many of the latest findings in a row are of an active service that is not ready: exactly
      as many as the counter if it is below the threshold, and at least as many otherwise. */
  predicate CountsNotReady(counter: nat, findings: seq<bool>) {
    && counter <= NO_READY_THRESHOLD && LastNotReady(findings, counter)
    && (counter < NO_READY_THRESHOLD ==> !LastNotReady(findings, counter + 1))
  }

  lemma RowGrows(findings: seq<bool>, finding: bool, r: nat)
    ensures LastNotReady(findings + [finding], r + 1) <==> finding && LastNotReady(findings, r)
  {
    var all := findings + [finding];
    assert all[|findings|] == finding;
    assert forall k :: 0 <= k < |findings| ==> all[k] == findings[k];
  }

  lemma ShorterRow(findings: seq<bool>, r: nat, q: nat)
    requires q <= r
    ensures LastNotReady(findings, r) ==> LastNotReady(findings, q)
  {
  }

  lemma FindingCounts(counter: nat, findings: seq<bool>, finding: bool)
    requires CountsNotReady(counter, findings)
    ensures CountsNotReady(if !finding then 0 else if counter < NO_READY_THRESHOLD then counter + 1 else counter,
                           findings + [finding])
  {
    RowGrows(findings, finding, 0);
    RowGrows(findings, finding, counter);
    RowGrows(findings, finding, counter + 1);
    ShorterRow(findings + [finding], counter + 1, counter);
  }

  /** In every run the counter counts the not-ready findings in a row, up to the threshold. */
  lemma {:induction false} CounterIsNotReadyRow(p: Process, moves: seq<Move>, i: nat)
    requires i <= |moves| && p.node.noReady <= NO_READY_THRESHOLD
    ensures CountsNotReady(At(p, moves, i).node.noReady, Findings(p, moves, i))
  {
    if i > 0 {
      CounterIsNotReadyRow(p, moves, i - 1);
      var before, move := At(p, moves, i - 1), moves[i - 1];
      if Awaited(before, move).ForReady? {
        ReadinessCounts(before, move);
        FindingCounts(before.node.noReady, Findings(p, moves, i - 1), FindsActiveNotReady(before, move));
      } else if !move.Restart? {
        OthersKeepReadiness(before, move);
      }
    }
  }

  /** So it has reached the threshold if and only if that many latest findings are all of this kind. */
  lemma ThresholdReached(counter: nat, findings: seq<bool>)
    requires CountsNotReady(counter, findings)
    ensures counter >= NO_READY_THRESHOLD <==> LastNotReady(findings, NO_READY_THRESHOLD)
  {
    ShorterRow(findings, NO_READY_THRESHOLD, if counter < NO_READY_THRESHOLD then counter + 1 else 0);
  }

  lemma MoveSwitchesHeartbeats(p: Process, move: Move)
    requires p.node.role.Operator?
    ensures p.node.heartbeatSendEnabled ==>
              (!Do(p, move).node.heartbeatSendEnabled <==>
               FindsActiveNotReady(p, move) && p.node.noReady >= NO_READY_THRESHOLD)
    ensures p.node.heartbeatSendEnabled && !Do(p, move).node.heartbeatSendEnabled ==> EndsPassive(p, move)
    ensures !p.node.heartbeatSendEnabled ==>
              (Do(p, move).node.heartbeatSendEnabled <==>
               move.Restart? || (Awaited(p, move).ForReady? && move.reply.ready))
  {
    if !Awaited(p, move).ForReady? && !move.Restart? {
      OthersKeepReadiness(p, move);
    }
  }

  /** The grace period is exact: a node switches its own heartbeats off if and only if it finds its active service
      not ready and the `NO_READY_THRESHOLD` latest findings before were the same; the cycle then ends passive. Only a
      readiness answer or a restart switches them on again. */
  lemma GraceIsExact(p: Process, moves: seq<Move>, i: nat)
    requires i < |moves| && p.node.role.Operator? && p.node.noReady <= NO_READY_THRESHOLD
    ensures var before, after := At(p, moves, i), At(p, moves, i + 1);
            if before.node.heartbeatSendEnabled then
              && (!after.node.heartbeatSendEnabled <==>
                    FindsActiveNotReady(before, moves[i]) && LastNotReady(Findings(p, moves, i), NO_READY_THRESHOLD))
              && (!after.node.heartbeatSendEnabled ==> EndsPassive(before, moves[i]))
            else
              after.node.heartbeatSendEnabled <==>
              moves[i].Restart? || (Awaited(before, moves[i]).ForReady? && moves[i].reply.ready)
  {
    IdentityStays(p, moves, i);
    CounterIsNotReadyRow(p, moves, i);
    ThresholdReached(At(p, moves, i).node.noReady, Findings(p, moves, i));
    assert At(p, moves, i + 1) == Do(At(p, moves, i), moves[i]);
    MoveSwitchesHeartbeats(At(p, moves, i), moves[i]);
  }

  /** A whole cycle gets as far as asking whether the service is ready. */
  predicate AsksReadiness(n: Node, a: Answers) {
    n.orchestrationEnabled && CanSend(n.link, a.view) && SomeoneAlive(n.cache, n.key, n.aliveTime, a.best)
  }

  /** Heartbeats that are off come on again exactly in a cycle that gets there and finds it ready. */
  lemma ReenabledExactlyWhenReady(n: Node, a: Answers)
    requires Managed(n) && !n.heartbeatSendEnabled && n.noReady <= NO_READY_THRESHOLD
    ensures OrchestrateService(n, a).node.heartbeatSendEnabled <==> AsksReadiness(n, a) && a.ready
  {
  }

  // ---------- own heartbeats switched off ----------

  /** No forced activation begins. */
  ghost predicate NoForce(moves: seq<Move>) {
    forall k :: 0 <= k < |moves| && moves[k].Begin? ==> moves[k].task == CYCLE
  }

  predicate OnlyCycle(p: Process) {
    forall t :: t in p.tasks ==> t == CYCLE
  }

  /** The cycle has not asked for readiness yet. */
  predicate BeforeReadiness(w: Wait) {
    w.ForSendGate? || w.ForBest?
  }

  /** With its own heartbeats off the node is not active, and its cycle is not on the way there. */
  predicate SilentIsQuiet(p: Process) {
    && Managed(p.node) && OnlyCycle(p)
    && (!p.node.heartbeatSendEnabled ==>
          !p.node.mode.Active? && (CYCLE in p.tasks ==> BeforeReadiness(p.tasks[CYCLE]) || p.tasks[CYCLE].ForReady?))
  }

  lemma MoveKeepsQuiet(p: Process, move: Move)
    requires SilentIsQuiet(p) && (move.Begin? ==> move.task == CYCLE)
    ensures SilentIsQuiet(Do(p, move))
  {
    MoveKeepsIdentity(p, move);
    if move.Answer? && Possible(p, move) {
      assert move.task == CYCLE;
    }
  }

  /** Without forced activations, a node that has switched its heartbeats off is not active. */
  lemma {:induction false} SilentIsNotActive(p: Process, moves: seq<Move>, i: nat)
    requires i <= |moves| && NoForce(moves) && SilentIsQuiet(p)
    ensures SilentIsQuiet(At(p, moves, i))
    ensures At(p, moves, i).node.heartbeatSendEnabled || !At(p, moves, i).node.mode.Active?
  {
    if i > 0 {
      SilentIsNotActive(p, moves, i - 1);
      MoveKeepsQuiet(At(p, moves, i - 1), moves[i - 1]);
    }
  }

  /** The node has switched its heartbeats off, no earlier one waits for its gate, and at block `best` its own last
      recorded one is too old. */
  predicate Silenced(p: Process, best: nat) {
    && Managed(p.node) && OnlyCycle(p) && !p.node.heartbeatSendEnabled && !p.node.mode.Active? && p.beat.None?
    && (CYCLE in p.tasks ==> BeforeReadiness(p.tasks[CYCLE]))
    && !(p.node.key in p.node.cache && Alive(p.node.cache[p.node.key], p.node.aliveTime, best))
  }

  /** The best numbers that cycles learn are not below this one. */
  predicate NotBelow(p: Process, move: Move, best: nat) {
    Awaited(p, move).ForBest? ==> move.reply.best >= best
  }

  /** The move neither restarts the node, nor forces it, nor tells it of a new heartbeat of its own. */
  predicate LeavesSilenced(p: Process, move: Move, best: nat) {
    && !move.Restart? && (move.Begin? ==> move.task == CYCLE) && !RecordOf(move, p.node.key)
    && NotBelow(p, move, best)
  }

  /** The move sends neither a take, not even after a further reply, nor a heartbeat. */
  predicate SendsNothing(p: Process, move: Move) {
    && AskAfter(p, move).None? && !Awaited(p, move).ForTakeGate?
    && (move.BeatAnswer? ==> !Possible(p, move))
  }

  lemma MoveKeepsSilenced(p: Process, move: Move, best: nat)
    requires Silenced(p, best) && LeavesSilenced(p, move, best)
    ensures Silenced(Do(p, move), best) && SendsNothing(p, move)
  {
    MoveKeepsIdentity(p, move);
    MoveKeepsRecord(p, move, p.node.key);
    var n := p.node;
    if Awaited(p, move).ForBest? && SomeoneAlive(n.cache, n.key, n.aliveTime, move.reply.best) {
      AlivenessFades(n.cache, n.key, n.aliveTime, best, move.reply.best);
    }
  }

  /** Such a node never comes back by itself: the check that its own heartbeat is recent precedes the only
      place that would switch heartbeats on again. It sends no heartbeat and asks for no leadership any more. */
  lemma {:induction false} SilencedForGood(p: Process, moves: seq<Move>, best: nat, i: nat)
    requires i <= |moves| && Silenced(p, best)
    requires forall k :: 0 <= k < |moves| ==> LeavesSilenced(At(p, moves, k), moves[k], best)
    ensures Silenced(At(p, moves, i), best)
    ensures i < |moves| ==> SendsNothing(At(p, moves, i), moves[i])
  {
    if i > 0 {
      SilencedForGood(p, moves, best, i - 1);
      MoveKeepsSilenced(At(p, moves, i - 1), moves[i - 1], best);
    }
    if i < |moves| {
      MoveKeepsSilenced(At(p, moves, i), moves[i], best);
    }
  }

  // ---------- a stalled chain ----------

  /** What a check of the link reads, if the move makes one: at either gate of a task, or for a heartbeat. */
  function LinkView(p: Process, move: Move): Option<View> {
    if Awaited(p, move).ForSendGate? || Awaited(p, move).ForTakeGate? then Some(move.reply.v)
    else if move.BeatAnswer? && Possible(p, move) then Some(move.v)
    else None
  }

  predicate Observes(p: Process, move: Move) {
    LinkView(p, move).Some? && LinkView(p, move).value.connected
  }

  /** Every check of the link that is made while connected sees this best number. */
  ghost predicate Frozen(p: Process, moves: seq<Move>, best: nat) {
    forall k :: 0 <= k < |moves| && Observes(At(p, moves, k), moves[k]) ==>
      LinkView(At(p, moves, k), moves[k]).value.best == best
  }

  function Observations(p: Process, moves: seq<Move>, i: nat): nat
    requires i <= |moves|
  {
    if i == 0 then 0
    else Observations(p, moves, i - 1) + if Observes(At(p, moves, i - 1), moves[i - 1]) then 1 else 0
  }

  lemma AnswerObserves(p: Process, move: Move)
    requires move.Answer? && Possible(p, move)
    ensures Do(p, move).node.link ==
            if Observes(p, move) then Observe(p.node.link, LinkView(p, move).value.best) else p.node.link
  {
  }

  lemma MoveObserves(p: Process, move: Move)
    requires !move.Restart?
    ensures Do(p, move).node.link ==
            if Observes(p, move) then Observe(p.node.link, LinkView(p, move).value.best) else p.node.link
  {
    if move.Answer? && Possible(p, move) {
      AnswerObserves(p, move);
    }
  }

  /** How often the number counts as seen again, when the check after `c` observations has been made. */
  function SeenAgain(link: Link, best: nat, c: nat): nat {
    c + if link.last == best then link.repeats + 1 else 0
  }

  lemma {:induction false} FrozenChainCounts(p: Process, moves: seq<Move>, best: nat, i: nat)
    requires i <= |moves| && NoRestart(moves) && Frozen(p, moves, best)
    ensures var c, link := Observations(p, moves, i), At(p, moves, i).node.link;
            if c == 0 then link == p.node.link
            else link.last == best && link.repeats + 1 == SeenAgain(p.node.link, best, c)
  {
    if i > 0 {
      FrozenChainCounts(p, moves, best, i - 1);
      MoveObserves(At(p, moves, i - 1), moves[i - 1]);
    }
  }

  /** The check of the link stops what it was made for: a heartbeat or a take is not sent, and a cycle ends passive. */
  predicate Stopped(p: Process, move: Move) {
    if move.BeatAnswer? then Possible(p, move) ==> ResumeHeartbeat(p.node, p.beat.value, move.v).1.None?
    else if Awaited(p, move).ForTakeGate? && Awaited(p, move).forced then move.task !in Do(p, move).tasks
    else EndsPassive(p, move)
  }

  lemma RefusedGate(p: Process, move: Move)
    requires p.node.role.Operator? && LinkView(p, move).Some?
    requires !CanSend(p.node.link, LinkView(p, move).value)
    ensures Stopped(p, move)
  {
  }

  /** On a chain whose best number stays the same the link counts as stalled exactly from the observation on that
      brings the count to the threshold. From then on every check stops what it was made for, connected or not. */
  lemma StalledChainForcesPassive(p: Process, moves: seq<Move>, best: nat, i: nat)
    requires i < |moves| && NoRestart(moves) && Frozen(p, moves, best) && p.node.role.Operator?
    requires LinkView(At(p, moves, i), moves[i]).Some?
    ensures var before, c := At(p, moves, i), SeenAgain(p.node.link, best, Observations(p, moves, i));
            && (Observes(before, moves[i]) ==> (Stalled(before.node.link, best) <==> c >= LAST_BLOCK_THRESHOLD))
            && (c >= LAST_BLOCK_THRESHOLD ==> Stopped(before, moves[i]))
  {
    IdentityStays(p, moves, i);
    FrozenChainCounts(p, moves, best, i);
    if SeenAgain(p.node.link, best, Observations(p, moves, i)) >= LAST_BLOCK_THRESHOLD {
      RefusedGate(At(p, moves, i), moves[i]);
    }
  }

  // ---------- finality that stops ----------

  predicate StartsConnected(p: Process, move: Move) {
    Awaited(p, move).ForSendGate? && move.reply.v.connected
  }

  /** The best numbers that the first checks of connected cycles compare with the finalized number. */
  function SeenAtStart(p: Process, moves: seq<Move>, i: nat): seq<nat>
    requires i <= |moves|
  {
    if i == 0 then []
    else
      SeenAtStart(p, moves, i - 1) +
      if StartsConnected(At(p, moves, i - 1), moves[i - 1]) then [moves[i - 1].reply.v.bestAgain] else []
  }

  /** The finalized number that these checks see stays the same. */
  ghost predicate FinalityHalted(p: Process, moves: seq<Move>, finalized: nat) {
    forall k :: 0 <= k < |moves| && StartsConnected(At(p, moves, k), moves[k]) ==>
      moves[k].reply.v.finalized == finalized
  }

  /** While the finalized number stays the same and the best number grows with each cycle, every connected cycle
      from number max(0, finalized + gap - first best number) on ends passive at its first check, counting from 0;
      a cycle that is not connected always does. */
  lemma HaltedFinalityForcesPassive(p: Process, moves: seq<Move>, finalized: nat, i: nat)
    requires i < |moves| && FinalityHalted(p, moves, finalized) && p.node.role.Operator?
    requires Awaited(At(p, moves, i), moves[i]).ForSendGate? && Increasing(SeenAtStart(p, moves, i + 1))
    ensures var seen := SeenAtStart(p, moves, i + 1);
            !moves[i].reply.v.connected || |seen| - 1 >= Max(0, finalized + FINALIZED_GAP - seen[0]) ==>
              EndsPassive(At(p, moves, i), moves[i])
  {
    IdentityStays(p, moves, i);
    var seen := SeenAtStart(p, moves, i + 1);
    if moves[i].reply.v.connected {
      assert seen[|seen| - 1] == moves[i].reply.v.bestAgain;
      IncreasingGrows(seen, |seen| - 1);
    }
    if !CanSend(At(p, moves, i).node.link, moves[i].reply.v) {
      RefusedGate(At(p, moves, i), moves[i]);
    }
  }
}
