/** The members of a federation are processes: what holds of every run of one node holds of every member in every
    run of the federation. */
module Members {
  import opened Types
  import opened Tasks
  import opened Federation
  import opened Decisions
  import opened Exclusion
  import opened Runs
  import opened Safeguards
  import opened CacheSync
  import Pallet

  function ProcessOf(f: Fed, i: nat): Process
    requires i < |f.members|
  {
    Process(f.members[i].node, f.members[i].tasks, f.members[i].beat)
  }

  function LocalMove(f: Fed, m: Member, s: Local): Move
    requires CanDo(f, m, s)
  {
    match s
    case Boot(best, orchestration, beats) => Restart(best, orchestration, beats)
    case FillOne(w, k) => Record(w, if k.Some? then LastBeat(f.chain.log[..k.value], w).GetOr(0) else 0)
    case Subscribe => Rest
    case Deliver => Heard(f.chain.log[m.delivered])
    case Begin(t) => Runs.Begin(t)
    case Reply(t, r, _) => Answer(t, r, f.time, f.tickets)
    case BeginBeat => Runs.BeginBeat
    case BeatReply(v) => BeatAnswer(v)
    case RequestPassive => Passivate
    case SwitchOrchestration(on) => Runs.SwitchOrchestration(on)
    case SwitchHeartbeats(on) => Runs.SwitchHeartbeats(on)
  }

  function FateMove(f: Fed, x: nat, i: nat, flight: Flight): Move
    requires x in f.pool
  {
    var sent := f.pool[x];
    if sent.i == i < |f.members| && sent.origin.Taking? && Awaits(f.members[i], sent.origin.task, x)
    then Fate(sent.origin.task, flight) else Rest
  }

  /** What the step is for member `i`. */
  function MoveOf(f: Fed, step: Step, i: nat): Move
    requires Enabled(f, step)
  {
    match step
    case Own(j, s) => if i == j then LocalMove(f, f.members[i], s) else Rest
    case Land(x) => FateMove(f, x, i, Included(Pallet.Exec(f.chain, f.pool[x].tx).Ok?))
    case Lose(x) => FateMove(f, x, i, Dropped)
    case _ => Rest
  }

  lemma LocalIsMove(f: Fed, m: Member, s: Local)
    requires CanDo(f, m, s)
    ensures var q := MemberNext(f, m, s);
            Do(Process(m.node, m.tasks, m.beat), LocalMove(f, m, s)) == Process(q.node, q.tasks, q.beat)
  {
    if s.FillOne? {
      var block := if s.filledAt.Some? then LastBeat(f.chain.log[..s.filledAt.value], s.wallet).GetOr(0) else 0;
      FillSingle(m.node.cache, s.wallet, block);
    }
  }

  lemma StepIsMove(f: Fed, step: Step, i: nat)
    requires Enabled(f, step) && i < |f.members|
    ensures |Next(f, step).members| == |f.members|
    ensures ProcessOf(Next(f, step), i) == Do(ProcessOf(f, i), MoveOf(f, step, i))
  {
    if step.Own? && step.i == i {
      LocalIsMove(f, f.members[i], step.s);
    }
  }

  /** The moves of member `i` from state `from` of the run on. */
  ghost function Moves(trace: seq<Fed>, steps: seq<Step>, i: nat, from: nat): (moves: seq<Move>)
    requires IsRun(trace, steps) && from <= |steps|
    ensures |moves| == |steps| - from
  {
    seq(|steps| - from, k requires 0 <= k < |steps| - from => MoveOf(trace[from + k], steps[from + k], i))
  }

  lemma StepOfRun(trace: seq<Fed>, steps: seq<Step>, n: nat)
    requires IsRun(trace, steps) && n < |steps|
    ensures Enabled(trace[n], steps[n]) && trace[n + 1] == Next(trace[n], steps[n])
  {
  }

  lemma StepOfRunIsMove(trace: seq<Fed>, steps: seq<Step>, i: nat, n: nat)
    requires IsRun(trace, steps) && n < |steps| && i < |trace[n].members|
    ensures |trace[n + 1].members| == |trace[n].members|
    ensures ProcessOf(trace[n + 1], i) == Do(ProcessOf(trace[n], i), MoveOf(trace[n], steps[n], i))
  {
    StepOfRun(trace, steps, n);
    StepIsMove(trace[n], steps[n], i);
  }

  lemma AtNext(p: Process, moves: seq<Move>, n: nat, q: Process)
    requires n < |moves| && Do(At(p, moves, n), moves[n]) == q
    ensures At(p, moves, n + 1) == q
  {
  }

  lemma {:induction false} MemberFollows(trace: seq<Fed>, steps: seq<Step>, i: nat, from: nat, n: nat)
    requires IsRun(trace, steps) && from <= from + n < |steps|
    requires i < |trace[from].members| && |trace[from + n].members| == |trace[from].members|
    requires At(ProcessOf(trace[from], i), Moves(trace, steps, i, from), n) == ProcessOf(trace[from + n], i)
    ensures |trace[from + n + 1].members| == |trace[from].members|
    ensures At(ProcessOf(trace[from], i), Moves(trace, steps, i, from), n + 1) == ProcessOf(trace[from + n + 1], i)
  {
    var moves := Moves(trace, steps, i, from);
    StepOfRunIsMove(trace, steps, i, from + n);
    assert moves[n] == MoveOf(trace[from + n], steps[from + n], i);
    AtNext(ProcessOf(trace[from], i), moves, n, ProcessOf(trace[from + n + 1], i));
  }

  /** Every member of every run of the federation goes through a run of one node. */
  lemma {:induction false} MemberIsProcess(trace: seq<Fed>, steps: seq<Step>, i: nat, from: nat, n: nat)
    requires IsRun(trace, steps) && from <= from + n <= |steps| && i < |trace[from].members|
    ensures |trace[from + n].members| == |trace[from].members|
    ensures At(ProcessOf(trace[from], i), Moves(trace, steps, i, from), n) == ProcessOf(trace[from + n], i)
  {
    if n > 0 {
      MemberIsProcess(trace, steps, i, from, n - 1);
      MemberFollows(trace, steps, i, from, n - 1);
    }
  }

  // ---------- own heartbeats switched off ----------

  /** No forced activation of member `i` begins. */
  predicate Unforced(step: Step, i: nat) {
    step.Own? && step.i == i && step.s.Begin? ==> step.s.task == CYCLE
  }

  /** In every state of a run without forced activations of it, an orchestrated node that has switched its heartbeats
      off is not active. */
  lemma SilentMemberIsNotActive(trace: seq<Fed>, steps: seq<Step>, n: nat, i: nat)
    requires IsRun(trace, steps) && n <= |steps| && i < |trace[0].members| && Managed(trace[0].members[i].node)
    requires forall k :: 0 <= k < |steps| ==> Unforced(steps[k], i)
    ensures |trace[n].members| == |trace[0].members|
    ensures trace[n].members[i].node.heartbeatSendEnabled || !trace[n].members[i].node.mode.Active?
  {
    var moves := Moves(trace, steps, i, 0);
    assert NoForce(moves);
    SilentIsNotActive(ProcessOf(trace[0], i), moves, n);
    MemberIsProcess(trace, steps, i, 0, n);
  }

  predicate IsBeatTx(tx: Pallet.Tx, w: AccountId) {
    tx.call.AddHeartbeat? && tx.sender == w
  }

  /** Member `i` has no heartbeat of its own still to hear, and none is on its way to the chain. (That none waits for
      its gate either is part of `Silenced`.) */
  ghost predicate NoBeatUnderway(f: Fed, i: nat)
    requires i < |f.members|
  {
    var m := f.members[i];
    && m.subscribed
    && (forall q :: m.delivered <= q < |f.chain.log| ==> !IsBeat(f.chain.log[q], m.node.key))
    && (forall x :: x in f.pool ==> !IsBeatTx(f.pool[x].tx, m.node.key))
  }

  /** The step neither restarts nor forces member `i`, reads it no number below `best` to compare heartbeats with,
      and sends no heartbeat with its key from outside. */
  predicate LeavesAlone(f: Fed, step: Step, i: nat, best: nat)
    requires Enabled(f, step) && i < |f.members|
  {
    && !(step.Own? && step.i == i && step.s.Boot?) && Unforced(step, i)
    && NotBelow(ProcessOf(f, i), MoveOf(f, step, i), best)
    && !(step.Outside? && IsBeatTx(step.tx, f.members[i].node.key))
  }

  /** The step does so if it happens to the member at all. */
  predicate LeftAlone(f: Fed, step: Step, i: nat, best: nat) {
    i < |f.members| && Enabled(f, step) ==> LeavesAlone(f, step, i, best)
  }

  lemma NoBeatLands(f: Fed, tx: Pallet.Tx, w: AccountId)
    requires !IsBeatTx(tx, w)
    ensures forall q :: |f.chain.log| <= q < |OnChain(f, tx).chain.log| ==> !IsBeat(OnChain(f, tx).chain.log[q], w)
  {
  }

  lemma NoBeatStays(f: Fed, step: Step, i: nat, best: nat)
    requires Enabled(f, step) && i < |f.members| && LeavesAlone(f, step, i, best) && KeysDistinct(f)
    requires AllOk(f) && NoBeatUnderway(f, i) && Silenced(ProcessOf(f, i), best)
    ensures |Next(f, step).members| == |f.members| && NoBeatUnderway(Next(f, step), i)
  {
    var g, key := Next(f, step), f.members[i].node.key;
    StepOnMembers(f, step);
    StepGrowsLog(f, step);
    StepKeepsNodes(f, step, i);
    if step.Own? && step.i == i {
      LocalMode(f, f.members[i], step.s);
      SilencedStep(f, step, i, best);
    } else {
      assert g.members[i].(tasks := map[]) == f.members[i].(tasks := map[]);
    }
    match step
    case Outside(tx) => NoBeatLands(f, tx, key);
    case Land(x) => NoBeatLands(f, f.pool[x].tx, key);
    case _ =>
  }

  lemma SilencedStep(f: Fed, step: Step, i: nat, best: nat)
    requires Enabled(f, step) && i < |f.members| && LeavesAlone(f, step, i, best)
    requires NoBeatUnderway(f, i) && Silenced(ProcessOf(f, i), best)
    ensures |Next(f, step).members| == |f.members| && Silenced(ProcessOf(Next(f, step), i), best)
    ensures step.Own? && step.i == i ==> Sends(f, i, step.s).None?
  {
    StepIsMove(f, step, i);
    MoveKeepsSilenced(ProcessOf(f, i), MoveOf(f, step, i), best);
  }

  /** The member is silenced, and nothing on its way will change that. */
  ghost predicate SilencedAt(f: Fed, i: nat, best: nat) {
    i < |f.members| && Silenced(ProcessOf(f, i), best) && NoBeatUnderway(f, i)
  }

  /** If the step is one of the member, it sends neither a take nor a heartbeat. */
  predicate SendsNoMore(f: Fed, step: Step, i: nat) {
    Enabled(f, step) && (step.Own? && step.i == i ==> Sends(f, i, step.s).None?)
  }

  lemma SilencedStays(trace: seq<Fed>, steps: seq<Step>, n: nat, i: nat, best: nat)
    requires IsRun(trace, steps) && n < |steps| && SilencedAt(trace[n], i, best)
    requires LeftAlone(trace[n], steps[n], i, best)
    ensures SilencedAt(trace[n + 1], i, best)
    ensures SendsNoMore(trace[n], steps[n], i)
  {
    StepOfRun(trace, steps, n);
    RunKeepsOk(trace, steps, n);
    KeysStayDistinct(trace, steps, n);
    SilencedStep(trace[n], steps[n], i, best);
    NoBeatStays(trace[n], steps[n], i, best);
  }

  lemma {:induction false} StaysSilenced(trace: seq<Fed>, steps: seq<Step>, from: nat, n: nat, i: nat, best: nat)
    requires IsRun(trace, steps) && from <= n <= |steps| && SilencedAt(trace[from], i, best)
    requires forall k :: from <= k < |steps| ==> LeftAlone(trace[k], steps[k], i, best)
    ensures SilencedAt(trace[n], i, best)
  {
    if n > from {
      StaysSilenced(trace, steps, from, n - 1, i, best);
      SilencedStays(trace, steps, n - 1, i, best);
    }
  }

  /** Once a node has switched its heartbeats off, its own last heartbeat is too old, and none waits for its gate, is on
      its way or still to be heard, it never sends anything again and never becomes
      active, whatever the rest of the federation does, until it is restarted or forced. */
  lemma SilencedMemberForGood(trace: seq<Fed>, steps: seq<Step>, from: nat, n: nat, i: nat, best: nat)
    requires IsRun(trace, steps) && from <= n <= |steps| && SilencedAt(trace[from], i, best)
    requires forall k :: from <= k < |steps| ==> LeftAlone(trace[k], steps[k], i, best)
    ensures SilencedAt(trace[n], i, best) && !trace[n].members[i].node.mode.Active?
    ensures n < |steps| ==> SendsNoMore(trace[n], steps[n], i)
  {
    StaysSilenced(trace, steps, from, n, i, best);
    if n < |steps| {
      SilencedStays(trace, steps, n, i, best);
    }
  }

  // ---------- bounded failover ----------

  /** The pool holds a take of member `i` that names `leader`. */
  predicate PoolHolds(f: Fed, x: nat, i: nat, leader: AccountId) {
    && i < |f.members| && x in f.pool && f.pool[x].i == i
    && f.pool[x].tx == Pallet.Tx(f.members[i].node.key, Pallet.SetLeader(leader, f.members[i].node.group))
  }

  lemma SubmittedIsPooled(f: Fed, step: Step, i: nat, leader: AccountId)
    requires Enabled(f, step) && i < |f.members| && Submits(ProcessOf(f, i), MoveOf(f, step, i), leader)
    ensures PoolHolds(Next(f, step), f.tickets, i, leader)
  {
    StepKeepsNodes(f, step, i);
    assert step.Own? && step.i == i && step.s.Reply?;
  }

  /** Process `p` and its moves are those of member `i` from state `from` of the run on. */
  ghost predicate Follows(trace: seq<Fed>, steps: seq<Step>, i: nat, from: nat, p: Process, moves: seq<Move>) {
    && IsRun(trace, steps) && from <= |steps| && i < |trace[from].members|
    && p == ProcessOf(trace[from], i) && moves == Moves(trace, steps, i, from)
  }

  lemma {:induction false} StateInRun(trace: seq<Fed>, steps: seq<Step>, i: nat, from: nat, p: Process,
                                      moves: seq<Move>, b: nat)
    requires Follows(trace, steps, i, from, p, moves) && b <= |moves|
    ensures from + b <= |steps| && i < |trace[from + b].members| && At(p, moves, b) == ProcessOf(trace[from + b], i)
  {
    MemberIsProcess(trace, steps, i, from, b);
  }

  lemma {:induction false} MoveInRun(trace: seq<Fed>, steps: seq<Step>, i: nat, from: nat, p: Process,
                                     moves: seq<Move>, b: nat, n: nat)
    requires Follows(trace, steps, i, from, p, moves) && b < |moves| && n == from + b
    ensures n < |steps| && Enabled(trace[n], steps[n]) && moves[b] == MoveOf(trace[n], steps[n], i)
  {
  }

  lemma {:induction false} SubmittedInRun(trace: seq<Fed>, steps: seq<Step>, i: nat, from: nat, p: Process,
                                          moves: seq<Move>, b: nat, leader: AccountId)
    requires Follows(trace, steps, i, from, p, moves) && b < |moves|
    ensures from + b < |steps|
    ensures Submits(At(p, moves, b), moves[b], leader) ==>
              PoolHolds(trace[from + b + 1], trace[from + b].tickets, i, leader)
  {
    var n := from + b;
    StateInRun(trace, steps, i, from, p, moves, b);
    MoveInRun(trace, steps, i, from, p, moves, b, n);
    SubmittedAtStep(trace, steps, i, n, leader);
  }

  lemma SubmittedAtStep(trace: seq<Fed>, steps: seq<Step>, i: nat, n: nat, leader: AccountId)
    requires IsRun(trace, steps) && n < |steps| && Enabled(trace[n], steps[n]) && i < |trace[n].members|
    ensures Submits(ProcessOf(trace[n], i), MoveOf(trace[n], steps[n], i), leader) ==>
              PoolHolds(trace[n + 1], trace[n].tickets, i, leader)
  {
    StepOfRun(trace, steps, n);
    if Submits(ProcessOf(trace[n], i), MoveOf(trace[n], steps[n], i), leader) {
      SubmittedIsPooled(trace[n], steps[n], i, leader);
    }
  }

  /** Failover from a silent leader within the federation: from state `from` on, member `i` is not restarted and hears
      no heartbeat of the leader. Its move `a` compares and move `b` is the open gate of the same cycle. If the best
      number has passed the limit, and so from comparison number max(0, limit + 1 - first best number) on if it
      grows, the pool then holds the take that names the leader. */
  lemma SilentLeaderIsDeposedInRun(trace: seq<Fed>, steps: seq<Step>, i: nat, from: nat, p: Process, moves: seq<Move>,
                                   leader: AccountId, a: nat, b: nat)
    requires Follows(trace, steps, i, from, p, moves)
    requires OpenGateNext(p, moves, a, b) && NoRestart(moves) && NoRecordOf(moves, leader)
    requires leader in p.node.cache && ComparesWith(p, leader, p.node.cache[leader].block)
    requires Compares(At(p, moves, a), moves[a], leader)
    ensures from + b < |steps|
    ensures var limit, seen := p.node.cache[leader].block + p.node.aliveTime, Compared(p, moves, leader, a + 1);
            moves[a].reply.best > limit || (Increasing(seen) && |seen| - 1 >= Max(0, limit + 1 - seen[0])) ==>
              PoolHolds(trace[from + b + 1], trace[from + b].tickets, i, leader)
  {
    SilentLeaderIsDeposed(p, moves, leader, a, b);
    SubmittedInRun(trace, steps, i, from, p, moves, b, leader);
  }

  /** The same for a leader of which nothing is known: the lookup that completes a round of threshold + 1, the first
      of them being round number 0. */
  lemma UnknownLeaderIsDeposedInRun(trace: seq<Fed>, steps: seq<Step>, i: nat, from: nat, p: Process, moves: seq<Move>,
                                    leader: AccountId, a: nat, b: nat, round: nat)
    requires Follows(trace, steps, i, from, p, moves)
    requires OpenGateNext(p, moves, a, b) && NoRestart(moves) && NoRecordOf(moves, leader)
    requires AlwaysLed(p, moves, leader) && LooksUp(At(p, moves, a), moves[a])
    requires leader != p.node.key && NoLivenessData(p.node, Some(leader))
    requires p.node.noLiveness <= NO_LIVENESS_THRESHOLD
    requires CompletesRound(Lookups(p, moves, a) + p.node.noLiveness, round)
    ensures from + b < |steps| && PoolHolds(trace[from + b + 1], trace[from + b].tickets, i, leader)
  {
    RoundDeposesUnknownLeader(p, moves, leader, a, b, round);
    SubmittedInRun(trace, steps, i, from, p, moves, b, leader);
  }

  /** Such a take, landing while the leader it names still leads, makes the member its successor; landing in a group
      led by anyone else it changes no leader. */
  lemma PooledTakeSucceeds(f: Fed, x: nat, i: nat, leader: AccountId)
    requires PoolHolds(f, x, i, leader) && f.members[i].node.group in f.chain.leaders
    requires leader != f.members[i].node.key
    ensures var n := f.members[i].node;
            Next(f, Land(x)).chain.leaders ==
            if f.chain.leaders[n.group] == leader then f.chain.leaders[n.group := n.key] else f.chain.leaders
  {
  }
}
