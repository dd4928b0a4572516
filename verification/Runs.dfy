/** One node over whole runs: its tasks advance from reply to reply, and whatever the node hears or is told may
    come in between. */
module Runs {
  import opened Types
  import opened Heartbeats
  import opened Chain
  import opened Decisions
  import opened Tasks

  /** A node and what its tasks wait for. Task `CYCLE` is the orchestration cycle, all others are forced
      activations. A heartbeat that waits for its gate holds the status it will send. */
  datatype Process = Process(node: Node, tasks: map<nat, Wait>, beat: Option<u32>)

  datatype Move =
    | Restart(best: nat, orchestration: bool, beats: bool)
    | Record(wallet: AccountId, block: BlockNumber)
    | Begin(task: nat)
    | Answer(task: nat, reply: Reply, time: nat, ticket: nat)
    | Fate(task: nat, flight: Flight)
    | Heard(e: Event)
    | BeginBeat
    | BeatAnswer(v: View)
    | Passivate
    | SwitchOrchestration(on: bool)
    | SwitchHeartbeats(on: bool)
    | Rest

  predicate Possible(p: Process, move: Move) {
    match move
    case Begin(t) => t !in p.tasks
    case Answer(t, r, _, _) => t in p.tasks && Fits(p.tasks[t], r)
    case Fate(t, _) => t in p.tasks && p.tasks[t].ForTakeResult?
    case BeginBeat => p.beat.None?
    case BeatAnswer(_) => p.beat.Some?
    case _ => true
  }

  function Continue(p: Process, t: nat, next: Progress): Process {
    p.(node := next.node, tasks := if next.wait.Finished? then p.tasks - {t} else p.tasks[t := next.wait])
  }

  /** A move that is not possible has no effect. */
  function Do(p: Process, move: Move): Process {
    if !Possible(p, move) then p
    else
      match move
      case Restart(best, orchestration, beats) => Process(Booted(p.node, best, orchestration, beats), map[], None)
      case Record(w, block) => p.(node := p.node.(cache := p.node.cache[w := Heartbeat(0, 0, block)]))
      case Begin(t) => Continue(p, t, if t == CYCLE then BeginCycle(p.node) else BeginForce(p.node))
      case Answer(t, r, time, ticket) => Continue(p, t, Resume(p.node, p.tasks[t], r, time, ticket))
      case Fate(t, flight) => p.(tasks := p.tasks[t := p.tasks[t].(flight := flight)])
      case Heard(e) => p.(node := Hear(p.node, e))
      case BeginBeat => p.(beat := BeginHeartbeat(p.node))
      case BeatAnswer(v) => p.(node := ResumeHeartbeat(p.node, p.beat.value, v).0, beat := None)
      case Passivate => p.(node := ServiceStart(p.node, Passive))
      case SwitchOrchestration(on) => p.(node := p.node.(orchestrationEnabled := on))
      case SwitchHeartbeats(on) => p.(node := p.node.(heartbeatSendEnabledAdmin := on))
      case Rest => p
  }

  /** The process after the first `i` moves. */
  function At(p: Process, moves: seq<Move>, i: nat): Process
    requires i <= |moves|
  {
    if i == 0 then p else Do(At(p, moves, i - 1), moves[i - 1])
  }

  ghost predicate NoRestart(moves: seq<Move>) {
    forall k :: 0 <= k < |moves| ==> !moves[k].Restart?
  }

  /** What the answered task was waiting for; `Finished` if the move answers nobody. */
  function Awaited(p: Process, move: Move): Wait {
    if move.Answer? && Possible(p, move) then p.tasks[move.task] else Finished
  }

  /** The leadership that the answered task goes on to ask for. */
  function AskAfter(p: Process, move: Move): Option<Ask> {
    if Awaited(p, move).Finished? then None
    else
      var next := Resume(p.node, Awaited(p, move), move.reply, move.time, move.ticket).wait;
      if next.ForTakeGate? then Some(next.ask) else None
  }

  lemma MoveKeepsIdentity(p: Process, move: Move)
    ensures var n, m := p.node, Do(p, move).node;
            m.key == n.key && m.role == n.role && m.serviceMode == n.serviceMode && m.aliveTime == n.aliveTime
  {
  }

  lemma {:induction false} IdentityStays(p: Process, moves: seq<Move>, i: nat)
    requires i <= |moves|
    ensures var n, m := p.node, At(p, moves, i).node;
            m.key == n.key && m.role == n.role && m.serviceMode == n.serviceMode && m.aliveTime == n.aliveTime
  {
    if i > 0 {
      IdentityStays(p, moves, i - 1);
      MoveKeepsIdentity(At(p, moves, i - 1), moves[i - 1]);
    }
  }

  // ---------- counting checks without liveness data ----------

  /** A cycle has learned who leads its group. */
  predicate LooksUp(p: Process, move: Move) {
    Awaited(p, move).ForLed? && !Awaited(p, move).forced
  }

  /** The leader is someone else, and nothing is known of its heartbeats. */
  predicate NoDataCheck(p: Process, move: Move) {
    && LooksUp(p, move) && move.reply.led
    && Awaited(p, move).leader != Some(p.node.key) && NoLivenessData(p.node, Awaited(p, move).leader)
  }

  predicate NoDataTake(p: Process, move: Move) {
    AskAfter(p, move).Some? && AskAfter(p, move).value.why.NoData?
  }

  function NoDataChecks(p: Process, moves: seq<Move>, i: nat): nat
    requires i <= |moves|
  {
    if i == 0 then 0
    else NoDataChecks(p, moves, i - 1) + if NoDataCheck(At(p, moves, i - 1), moves[i - 1]) then 1 else 0
  }

  function NoDataTakes(p: Process, moves: seq<Move>, i: nat): nat
    requires i <= |moves|
  {
    if i == 0 then 0
    else NoDataTakes(p, moves, i - 1) + if NoDataTake(At(p, moves, i - 1), moves[i - 1]) then 1 else 0
  }

  lemma LedReplyCounts(p: Process, move: Move)
    requires Awaited(p, move).ForLed?
    ensures var before, after := p.node.noLiveness, Do(p, move).node.noLiveness;
            if !NoDataCheck(p, move) then after == before && !NoDataTake(p, move)
            else if before < NO_LIVENESS_THRESHOLD then after == before + 1 && !NoDataTake(p, move)
            else after == 0 && NoDataTake(p, move)
  {
  }

  lemma OtherMovesDoNotCount(p: Process, move: Move)
    requires !move.Restart? && !Awaited(p, move).ForLed?
    ensures Do(p, move).node.noLiveness == p.node.noLiveness && !NoDataTake(p, move)
  {
    if !Awaited(p, move).Finished? {
      OtherRepliesDoNotCount(p, move);
    }
  }

  lemma OtherRepliesDoNotCount(p: Process, move: Move)
    requires !Awaited(p, move).Finished? && !Awaited(p, move).ForLed?
    ensures Do(p, move).node.noLiveness == p.node.noLiveness && !NoDataTake(p, move)
  {
  }

  /** Only a check without data moves the counter: it either counts, or asks for the leadership and resets. */
  lemma MoveCounts(p: Process, move: Move)
    requires !move.Restart?
    ensures var before, after := p.node.noLiveness, Do(p, move).node.noLiveness;
            if !NoDataCheck(p, move) then after == before && !NoDataTake(p, move)
            else if before < NO_LIVENESS_THRESHOLD then after == before + 1 && !NoDataTake(p, move)
            else after == 0 && NoDataTake(p, move)
  {
    if Awaited(p, move).ForLed? {
      LedReplyCounts(p, move);
    } else {
      OtherMovesDoNotCount(p, move);
    }
  }

  lemma {:induction false} ChecksAreAccountedFor(p: Process, moves: seq<Move>, i: nat)
    requires i <= |moves| && NoRestart(moves) && p.node.noLiveness <= NO_LIVENESS_THRESHOLD
    ensures At(p, moves, i).node.noLiveness <= NO_LIVENESS_THRESHOLD
    ensures (NO_LIVENESS_THRESHOLD + 1) * NoDataTakes(p, moves, i) + At(p, moves, i).node.noLiveness ==
            NoDataChecks(p, moves, i) + p.node.noLiveness
  {
    if i > 0 {
      ChecksAreAccountedFor(p, moves, i - 1);
      MoveCounts(At(p, moves, i - 1), moves[i - 1]);
    }
  }

  lemma QuotientAndRemainder(q: nat, r: nat, all: nat)
    requires r <= NO_LIVENESS_THRESHOLD && (NO_LIVENESS_THRESHOLD + 1) * q + r == all
    ensures all % (NO_LIVENESS_THRESHOLD + 1) == r && all / (NO_LIVENESS_THRESHOLD + 1) == q
  {
  }

  /** Over any run, the counter and the number of takeovers asked for want of data are remainder and quotient,
      by threshold + 1, of the number of checks without data and the counter at the start together. Alive leaders,
      takeovers by age, changes of leader, forced activations and everything else in between do not matter. */
  lemma {:induction false} NoDataArithmetic(p: Process, moves: seq<Move>, i: nat)
    requires i <= |moves| && NoRestart(moves) && p.node.noLiveness <= NO_LIVENESS_THRESHOLD
    ensures var all := NoDataChecks(p, moves, i) + p.node.noLiveness;
            && At(p, moves, i).node.noLiveness == all % (NO_LIVENESS_THRESHOLD + 1)
            && NoDataTakes(p, moves, i) == all / (NO_LIVENESS_THRESHOLD + 1)
  {
    ChecksAreAccountedFor(p, moves, i);
    var counter, all := At(p, moves, i).node.noLiveness, NoDataChecks(p, moves, i) + p.node.noLiveness;
    QuotientAndRemainder(NoDataTakes(p, moves, i), counter, all);
  }

  // ---------- failover ----------

  /** The move records a heartbeat of this account. */
  predicate RecordOf(move: Move, who: AccountId) {
    (move.Heard? && move.e.NewHeartbeat? && move.e.who == who) || (move.Record? && move.wallet == who)
  }

  ghost predicate NoRecordOf(moves: seq<Move>, who: AccountId) {
    forall k :: 0 <= k < |moves| ==> !RecordOf(moves[k], who)
  }

  lemma MoveKeepsRecord(p: Process, move: Move, who: AccountId)
    requires !move.Restart? && !RecordOf(move, who)
    ensures Lookup(Do(p, move).node.cache, who) == Lookup(p.node.cache, who)
  {
  }

  lemma {:induction false} RecordStays(p: Process, moves: seq<Move>, who: AccountId, i: nat)
    requires i <= |moves| && NoRestart(moves) && NoRecordOf(moves, who)
    ensures Lookup(At(p, moves, i).node.cache, who) == Lookup(p.node.cache, who)
  {
    if i > 0 {
      RecordStays(p, moves, who, i - 1);
      MoveKeepsRecord(At(p, moves, i - 1), moves[i - 1], who);
    }
  }

  function Lookups(p: Process, moves: seq<Move>, i: nat): nat
    requires i <= |moves|
  {
    if i == 0 then 0
    else Lookups(p, moves, i - 1) + if LooksUp(At(p, moves, i - 1), moves[i - 1]) then 1 else 0
  }

  /** Whenever a cycle of the run looks, this account leads the group. */
  ghost predicate AlwaysLed(p: Process, moves: seq<Move>, leader: AccountId) {
    forall k :: 0 <= k < |moves| && LooksUp(At(p, moves, k), moves[k]) ==>
      moves[k].reply.led && Awaited(At(p, moves, k), moves[k]).leader == Some(leader)
  }

  lemma LookupIsCheck(p: Process, move: Move, leader: AccountId)
    requires leader != p.node.key && NoLivenessData(p.node, Some(leader))
    requires LooksUp(p, move) ==> move.reply.led && Awaited(p, move).leader == Some(leader)
    ensures NoDataCheck(p, move) <==> LooksUp(p, move)
  {
  }

  lemma {:induction false} EveryLookupIsWithoutData(p: Process, moves: seq<Move>, leader: AccountId, i: nat)
    requires i <= |moves| && NoRestart(moves) && NoRecordOf(moves, leader) && AlwaysLed(p, moves, leader)
    requires leader != p.node.key && NoLivenessData(p.node, Some(leader))
    ensures NoDataChecks(p, moves, i) == Lookups(p, moves, i)
  {
    if i > 0 {
      EveryLookupIsWithoutData(p, moves, leader, i - 1);
      IdentityStays(p, moves, i - 1);
      RecordStays(p, moves, leader, i - 1);
      var before, move := At(p, moves, i - 1), moves[i - 1];
      LookupIsCheck(before, move, leader);
    }
  }

  lemma {:induction false} CounterIsLookups(p: Process, moves: seq<Move>, leader: AccountId, i: nat)
    requires i <= |moves| && NoRestart(moves) && NoRecordOf(moves, leader) && AlwaysLed(p, moves, leader)
    requires leader != p.node.key && NoLivenessData(p.node, Some(leader))
    requires p.node.noLiveness <= NO_LIVENESS_THRESHOLD
    ensures var counter := (Lookups(p, moves, i) + p.node.noLiveness) % (NO_LIVENESS_THRESHOLD + 1);
            At(p, moves, i).node.noLiveness == counter
  {
    NoDataArithmetic(p, moves, i);
    EveryLookupIsWithoutData(p, moves, leader, i);
  }

  lemma LookupWithoutData(p: Process, move: Move, leader: AccountId)
    requires LooksUp(p, move) && move.reply.led && Awaited(p, move).leader == Some(leader)
    requires leader != p.node.key && NoLivenessData(p.node, Some(leader)) && p.node.noLiveness <= NO_LIVENESS_THRESHOLD
    ensures AskAfter(p, move) == if p.node.noLiveness == NO_LIVENESS_THRESHOLD
                                 then Some(Ask(Some(leader), NoData(NO_LIVENESS_THRESHOLD))) else None
  {
  }

  /** A leader of which nothing is known. Counting lookups from 0 and starting from whatever an earlier leader has
      left in the counter, exactly the lookups that complete a round of threshold + 1 ask for its place. */
  lemma UnknownLeaderIsReplaced(p: Process, moves: seq<Move>, leader: AccountId, i: nat)
    requires i < |moves| && NoRestart(moves) && NoRecordOf(moves, leader) && AlwaysLed(p, moves, leader)
    requires leader != p.node.key && NoLivenessData(p.node, Some(leader))
    requires p.node.noLiveness <= NO_LIVENESS_THRESHOLD && LooksUp(At(p, moves, i), moves[i])
    ensures AskAfter(At(p, moves, i), moves[i]) ==
            if (Lookups(p, moves, i) + p.node.noLiveness) % (NO_LIVENESS_THRESHOLD + 1) == NO_LIVENESS_THRESHOLD
            then Some(Ask(Some(leader), NoData(NO_LIVENESS_THRESHOLD))) else None
  {
    var before, move := At(p, moves, i), moves[i];
    CounterIsLookups(p, moves, leader, i);
    IdentityStays(p, moves, i);
    RecordStays(p, moves, leader, i);
    LookupWithoutData(before, move, leader);
  }

  /** A cycle compares the best number with the recorded heartbeat of this leader. */
  predicate Compares(p: Process, move: Move, leader: AccountId) {
    Awaited(p, move).ForLeaderBest? && Awaited(p, move).other == leader
  }

  /** The best numbers used by the comparisons among the first `i` moves. */
  function Compared(p: Process, moves: seq<Move>, leader: AccountId, i: nat): seq<nat>
    requires i <= |moves|
  {
    if i == 0 then []
    else
      Compared(p, moves, leader, i - 1) +
      if Compares(At(p, moves, i - 1), moves[i - 1], leader) then [moves[i - 1].reply.best] else []
  }

  /** Waiting comparisons are with this block. */
  ghost predicate ComparesWith(p: Process, leader: AccountId, block: BlockNumber) {
    forall t :: t in p.tasks && p.tasks[t].ForLeaderBest? && p.tasks[t].other == leader ==> p.tasks[t].block == block
  }

  lemma MoveComparesWith(p: Process, move: Move, leader: AccountId)
    requires leader in p.node.cache && ComparesWith(p, leader, p.node.cache[leader].block)
    ensures ComparesWith(Do(p, move), leader, p.node.cache[leader].block)
  {
  }

  lemma {:induction false} ComparisonsStay(p: Process, moves: seq<Move>, leader: AccountId, i: nat)
    requires i <= |moves| && NoRestart(moves) && NoRecordOf(moves, leader)
    requires leader in p.node.cache && ComparesWith(p, leader, p.node.cache[leader].block)
    ensures ComparesWith(At(p, moves, i), leader, p.node.cache[leader].block)
  {
    if i > 0 {
      ComparisonsStay(p, moves, leader, i - 1);
      RecordStays(p, moves, leader, i - 1);
      MoveComparesWith(At(p, moves, i - 1), moves[i - 1], leader);
    }
  }

  ghost predicate Increasing(s: seq<nat>) {
    forall j, k :: 0 <= j < k < |s| ==> s[j] < s[k]
  }

  lemma {:induction false} IncreasingGrows(s: seq<nat>, k: nat)
    requires Increasing(s) && k < |s|
    ensures s[k] >= s[0] + k
  {
    if k > 0 {
      IncreasingGrows(s, k - 1);
    }
  }

  function Max(a: int, b: int): int {
    if a < b then b else a
  }

  /** A leader with a recorded heartbeat that falls silent: a comparison asks for its place exactly when the best
      number has passed block + aliveTime. So with a best number growing from one comparison to the next, every
      comparison from number max(0, block + aliveTime + 1 - first best number) on asks, counting from 0. */
  lemma SilentLeaderIsReplaced(p: Process, moves: seq<Move>, leader: AccountId, i: nat)
    requires i < |moves| && NoRestart(moves) && NoRecordOf(moves, leader)
    requires leader in p.node.cache && ComparesWith(p, leader, p.node.cache[leader].block)
    requires Compares(At(p, moves, i), moves[i], leader)
    ensures var ask, seen := AskAfter(At(p, moves, i), moves[i]), Compared(p, moves, leader, i + 1);
            var limit := p.node.cache[leader].block + p.node.aliveTime;
            && (ask.Some? ==> ask.value.oldLeader == Some(leader))
            && (ask.Some? <==> moves[i].reply.best > limit)
            && (Increasing(seen) && |seen| - 1 >= Max(0, limit + 1 - seen[0]) ==> ask.Some?)
  {
    IdentityStays(p, moves, i);
    ComparisonsStay(p, moves, leader, i);
    var seen := Compared(p, moves, leader, i + 1);
    assert seen[|seen| - 1] == moves[i].reply.best;
    if Increasing(seen) {
      IncreasingGrows(seen, |seen| - 1);
    }
  }

  // ---------- from asking to sending ----------

  /** Nothing answers task `t` between the positions, and the process is not restarted. */
  ghost predicate Undisturbed(moves: seq<Move>, t: nat, i: nat, j: nat)
    requires i <= j <= |moves|
  {
    forall k :: i <= k < j ==> !moves[k].Restart? && (moves[k].Answer? || moves[k].Fate? ==> moves[k].task != t)
  }

  lemma {:induction false} WaitStays(p: Process, moves: seq<Move>, t: nat, i: nat, j: nat)
    requires i <= j <= |moves| && t in At(p, moves, i).tasks && Undisturbed(moves, t, i, j)
    ensures t in At(p, moves, j).tasks && At(p, moves, j).tasks[t] == At(p, moves, i).tasks[t]
    decreases j
  {
    if i < j {
      WaitStays(p, moves, t, i, j - 1);
    }
  }

  /** What a task has asked for is what it sends when it is next answered, exactly if the link allows it then,
      whatever has happened in between. */
  lemma AskedIsSent(p: Process, moves: seq<Move>, i: nat, j: nat)
    requires i < j < |moves| && moves[i].Answer? && moves[j].Answer? && moves[j].task == moves[i].task
    requires Undisturbed(moves, moves[i].task, i + 1, j) && moves[j].reply.GateReply?
    requires AskAfter(At(p, moves, i), moves[i]).Some?
    requires AskAfter(At(p, moves, i), moves[i]).value.oldLeader.Some?
    ensures var t, ask := moves[i].task, AskAfter(At(p, moves, i), moves[i]).value;
            var before, after := At(p, moves, j), At(p, moves, j + 1);
            if CanSend(before.node.link, moves[j].reply.v)
            then t in after.tasks && after.tasks[t].ForTakeResult? && after.tasks[t].ask == ask &&
                 after.tasks[t].ticket == moves[j].ticket
            else t !in after.tasks
  {
    var t := moves[i].task;
    assert At(p, moves, i + 1) == Do(At(p, moves, i), moves[i]);
    WaitStays(p, moves, t, i + 1, j);
    assert At(p, moves, j + 1) == Do(At(p, moves, j), moves[j]);
  }

  // ---------- bounded failover ----------

  /** Move `j` is the next reply to the task that move `i` answers: it is the gate of a transaction, and open. */
  ghost predicate OpenGateNext(p: Process, moves: seq<Move>, i: nat, j: nat) {
    && i < j < |moves| && moves[i].Answer? && moves[j].Answer? && moves[j].task == moves[i].task
    && Undisturbed(moves, moves[i].task, i + 1, j)
    && moves[j].reply.GateReply? && CanSend(At(p, moves, j).node.link, moves[j].reply.v)
  }

  /** The move sends the take of a cycle that names `leader`, and the cycle waits for what becomes of it. */
  predicate Submits(p: Process, move: Move, leader: AccountId) {
    && Awaited(p, move).ForTakeGate? && !Awaited(p, move).forced && CanSend(p.node.link, move.reply.v)
    && Awaited(p, move).ask.oldLeader == Some(leader)
    && move.task in Do(p, move).tasks
    && Do(p, move).tasks[move.task] == ForTakeResult(false, Awaited(p, move).ask, move.ticket, Pending)
  }

  /** The cycle goes on to ask for the place of `leader`. */
  predicate Asks(p: Process, move: Move, leader: AccountId) {
    AskAfter(p, move).Some? && AskAfter(p, move).value.oldLeader == Some(leader)
    && !Awaited(p, move).Finished? && Resume(p.node, Awaited(p, move), move.reply, move.time, move.ticket).wait ==
                                      ForTakeGate(false, AskAfter(p, move).value)
  }

  /** A task that has ended asks for nothing before it is answered again. */
  lemma {:induction false} EndedTaskStartsOver(p: Process, moves: seq<Move>, t: nat, i: nat, j: nat)
    requires i <= j <= |moves| && t !in At(p, moves, i).tasks && Undisturbed(moves, t, i, j)
    ensures t in At(p, moves, j).tasks ==> !At(p, moves, j).tasks[t].ForTakeGate?
    decreases j
  {
    if i < j {
      EndedTaskStartsOver(p, moves, t, i, j - 1);
      if moves[j - 1].Answer? || moves[j - 1].Fate? {
        assert moves[j - 1].task != t;
      }
    }
  }

  lemma AskingIsSubmitting(p: Process, moves: seq<Move>, leader: AccountId, i: nat, j: nat)
    requires OpenGateNext(p, moves, i, j)
    requires !Asks(At(p, moves, i), moves[i], leader) ==> moves[i].task !in Do(At(p, moves, i), moves[i]).tasks
    ensures Submits(At(p, moves, j), moves[j], leader) <==> Asks(At(p, moves, i), moves[i], leader)
  {
    var t := moves[i].task;
    assert At(p, moves, i + 1) == Do(At(p, moves, i), moves[i]);
    if Asks(At(p, moves, i), moves[i], leader) {
      WaitStays(p, moves, t, i + 1, j);
    } else {
      EndedTaskStartsOver(p, moves, t, i + 1, j);
    }
  }

  lemma ComparisonAsksOrEnds(p: Process, move: Move, leader: AccountId)
    requires Compares(p, move, leader)
    ensures Asks(p, move, leader) <==> AskAfter(p, move).Some?
    ensures !Asks(p, move, leader) ==> move.task !in Do(p, move).tasks
  {
  }

  lemma LookupAsksOrEnds(p: Process, move: Move, leader: AccountId)
    requires LooksUp(p, move) && move.reply.led && Awaited(p, move).leader == Some(leader)
    requires leader != p.node.key && NoLivenessData(p.node, Some(leader))
    ensures Asks(p, move, leader) <==> AskAfter(p, move).Some?
    ensures !Asks(p, move, leader) ==> move.task !in Do(p, move).tasks
  {
  }

  /** Bounded failover from a leader that falls silent. A cycle that compares, and finds its gate open at its next
      reply, sends the take that names the leader exactly when the best number has passed block + aliveTime. With
      a best number growing from one comparison to the next, every such cycle from comparison number
      max(0, block + aliveTime + 1 - first best number) on does. */
  lemma SilentLeaderIsDeposed(p: Process, moves: seq<Move>, leader: AccountId, i: nat, j: nat)
    requires OpenGateNext(p, moves, i, j) && NoRestart(moves) && NoRecordOf(moves, leader)
    requires leader in p.node.cache && ComparesWith(p, leader, p.node.cache[leader].block)
    requires Compares(At(p, moves, i), moves[i], leader)
    ensures var sent, seen := Submits(At(p, moves, j), moves[j], leader), Compared(p, moves, leader, i + 1);
            var limit := p.node.cache[leader].block + p.node.aliveTime;
            && (sent <==> moves[i].reply.best > limit)
            && (Increasing(seen) && |seen| - 1 >= Max(0, limit + 1 - seen[0]) ==> sent)
  {
    var before, move := At(p, moves, i), moves[i];
    SilentLeaderIsReplaced(p, moves, leader, i);
    ComparisonAsksOrEnds(before, move, leader);
    AskingIsSubmitting(p, moves, leader, i, j);
  }

  /** Bounded failover from a leader of which nothing is known: a cycle that looks it up, and finds its gate open at
      its next reply, sends the take that names it exactly when the lookup completes a round of threshold + 1. */
  lemma UnknownLeaderIsDeposed(p: Process, moves: seq<Move>, leader: AccountId, i: nat, j: nat)
    requires OpenGateNext(p, moves, i, j) && NoRestart(moves) && NoRecordOf(moves, leader)
    requires AlwaysLed(p, moves, leader) && LooksUp(At(p, moves, i), moves[i])
    requires leader != p.node.key && NoLivenessData(p.node, Some(leader))
    requires p.node.noLiveness <= NO_LIVENESS_THRESHOLD
    ensures Submits(At(p, moves, j), moves[j], leader) <==>
            (Lookups(p, moves, i) + p.node.noLiveness) % (NO_LIVENESS_THRESHOLD + 1) == NO_LIVENESS_THRESHOLD
  {
    var before, move := At(p, moves, i), moves[i];
    UnknownLeaderIsReplaced(p, moves, leader, i);
    IdentityStays(p, moves, i);
    RecordStays(p, moves, leader, i);
    LookupAsksOrEnds(before, move, leader);
    AskingIsSubmitting(p, moves, leader, i, j);
  }

  /** Check number `checks`, counted from 0, is the last one of this round of threshold + 1 checks. */
  predicate CompletesRound(checks: nat, round: nat) {
    checks == round * (NO_LIVENESS_THRESHOLD + 1) + NO_LIVENESS_THRESHOLD
  }

  /** So a take is sent in every round. */
  lemma RoundDeposesUnknownLeader(p: Process, moves: seq<Move>, leader: AccountId, i: nat, j: nat, round: nat)
    requires OpenGateNext(p, moves, i, j) && NoRestart(moves) && NoRecordOf(moves, leader)
    requires AlwaysLed(p, moves, leader) && LooksUp(At(p, moves, i), moves[i])
    requires leader != p.node.key && NoLivenessData(p.node, Some(leader))
    requires p.node.noLiveness <= NO_LIVENESS_THRESHOLD
    requires CompletesRound(Lookups(p, moves, i) + p.node.noLiveness, round)
    ensures Submits(At(p, moves, j), moves[j], leader)
  {
    var all := Lookups(p, moves, i) + p.node.noLiveness;
    QuotientAndRemainder(round, NO_LIVENESS_THRESHOLD, all);
    UnknownLeaderIsDeposed(p, moves, leader, i, j);
  }
}
