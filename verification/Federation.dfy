/** The federation: one chain and any number of nodes, each running its tasks, hearing the events in order
    and being administered, with all their steps interleaved in any way. */
module Federation {
  import opened Types
  import opened Chain
  import opened Decisions
  import opened Tasks
  import opened Election
  import Pallet

  /** A node with its place in the event log: it subscribed at `joined` and has heard the events before
      `delivered`. Its tasks are numbered; `CYCLE` is the orchestration cycle. A heartbeat that waits for its
      gate holds the status it will send. */
  datatype Member = Member(
    node: Node,
    subscribed: bool,
    joined: nat,
    delivered: nat,
    tasks: map<nat, Wait>,
    beat: Option<u32>)

  /** Where a transaction comes from: a heartbeat, or the take of one task of one member. */
  datatype Origin = Beating | Taking(task: nat, forced: bool, ask: Ask)

  /** A transaction that member `i` has sent. */
  datatype Sent = Sent(i: nat, tx: Pallet.Tx, origin: Origin)

  /** `stamps` holds the time at which each event was deposited, `pool` the transactions on their way by ticket,
      and `tickets` counts those sent so far. */
  datatype Fed = Fed(
    chain: Pallet.State,
    members: seq<Member>,
    time: nat,
    stamps: seq<nat>,
    pool: map<nat, Sent>,
    tickets: nat)

  // ---------- what a member does by itself ----------

  datatype Local =
    | Boot(best: nat, orchestration: bool, beats: bool)
    | FillOne(wallet: AccountId, filledAt: Option<nat>)
    | Subscribe
    | Deliver
    | Begin(task: nat)
    | Reply(task: nat, reply: Tasks.Reply, snapshot: nat)
    | BeginBeat
    | BeatReply(v: View)
    | RequestPassive
    | SwitchOrchestration(on: bool)
    | SwitchHeartbeats(on: bool)

  /** The leader storage item as it was after the first `k` events. */
  function LeaderRead(log: seq<Event>, k: nat, g: GroupId): AccountId
    requires k <= |log|
  {
    LeaderAfter(log[..k], g).GetOr(DEFAULT_ACCOUNT)
  }

  function LastBeat(log: seq<Event>, w: AccountId): Option<BlockNumber> {
    if log == [] then None
    else
      var e := log[|log| - 1];
      if e.NewHeartbeat? && e.who == w then Some(e.block) else LastBeat(log[..|log| - 1], w)
  }

  /** A node never sees a block that is not there yet. */
  predicate SeenBy(now: BlockNumber, v: View) {
    v.best <= now && v.bestAgain <= now && v.finalized <= now
  }

  /** A successful read tells the truth about some moment no older than the events already heard.
      A failed read tells nothing. The timer takes its time. */
  predicate Truthful(f: Fed, m: Member, w: Wait, r: Tasks.Reply, k: nat) {
    match r
    case LeaderReply(leader) =>
      leader.Some? ==> m.delivered <= k <= |f.chain.log| && leader.value == LeaderRead(f.chain.log, k, m.node.group)
    case LedReply(led) =>
      led ==> m.delivered <= k <= |f.chain.log| && LeaderAfter(f.chain.log[..k], m.node.group).Some?
    case TimerReply => w.ForSettle? && f.time >= w.since + SETTLE_TIME
    case BestReply(best) => best <= f.chain.now
    case GateReply(v) => SeenBy(f.chain.now, v)
    case _ => true
  }

  /** Cycles and requests begin once the node has subscribed to the events. */
  predicate CanDo(f: Fed, m: Member, s: Local) {
    match s
    case Boot(best, _, _) => best <= f.chain.now
    case FillOne(_, k) => !m.subscribed && (k.Some? ==> k.value <= |f.chain.log|)
    case Subscribe => !m.subscribed
    case Deliver => m.subscribed && m.delivered < |f.chain.log|
    case Begin(t) => m.subscribed && t !in m.tasks
    case Reply(t, r, k) => t in m.tasks && Fits(m.tasks[t], r) && Truthful(f, m, m.tasks[t], r, k)
    case BeginBeat => m.subscribed && m.beat.None?
    case BeatReply(v) => m.beat.Some? && SeenBy(f.chain.now, v)
    case _ => m.subscribed
  }

  function WithTask(m: Member, t: nat, p: Progress): Member {
    m.(node := p.node, tasks := if p.wait.Finished? then m.tasks - {t} else m.tasks[t := p.wait])
  }

  function MemberNext(f: Fed, m: Member, s: Local): Member
    requires CanDo(f, m, s)
  {
    match s
    case Boot(best, orchestration, beats) =>
      Member(Booted(m.node, best, orchestration, beats), false, 0, 0, map[], None)
    case FillOne(w, k) =>
      var block := if k.Some? then LastBeat(f.chain.log[..k.value], w).GetOr(0) else 0;
      m.(node := m.node.(cache := Decisions.Fill(m.node.cache, [w], [block])))
    case Subscribe => m.(subscribed := true, joined := |f.chain.log|, delivered := |f.chain.log|)
    case Deliver => m.(node := Hear(m.node, f.chain.log[m.delivered]), delivered := m.delivered + 1)
    case Begin(t) => WithTask(m, t, if t == CYCLE then BeginCycle(m.node) else BeginForce(m.node))
    case Reply(t, r, _) => WithTask(m, t, Tasks.Resume(m.node, m.tasks[t], r, f.time, f.tickets))
    case BeginBeat => m.(beat := BeginHeartbeat(m.node))
    case BeatReply(v) => m.(node := ResumeHeartbeat(m.node, m.beat.value, v).0, beat := None)
    case RequestPassive => m.(node := ServiceStart(m.node, Passive))
    case SwitchOrchestration(on) => m.(node := m.node.(orchestrationEnabled := on))
    case SwitchHeartbeats(on) => m.(node := m.node.(heartbeatSendEnabledAdmin := on))
  }

  /** What the member sends with its step: a heartbeat, or the take that its task asked for. */
  function Sends(f: Fed, i: nat, s: Local): Option<Sent>
    requires i < |f.members| && CanDo(f, f.members[i], s)
  {
    var m := f.members[i];
    match s
    case BeatReply(v) =>
      var tx := ResumeHeartbeat(m.node, m.beat.value, v).1;
      if tx.Some? then Some(Sent(i, tx.value, Beating)) else None
    case Reply(t, r, _) =>
      var w := m.tasks[t];
      if w.ForTakeGate? && CanSend(m.node.link, r.v) && w.ask.oldLeader.Some?
      then Some(Sent(i, TakeTx(m.node, w.ask), Taking(t, w.forced, w.ask)))
      else None
    case _ => None
  }

  /** The step is the one that puts the service into active mode. */
  predicate Activates(m: Member, s: Local) {
    s.Reply? && s.task in m.tasks && ActivatingReply(m.node, m.tasks[s.task], s.reply)
  }

  // ---------- steps of the federation ----------

  /** A transaction on its way either lands on the chain or is lost, whatever has become of its sender. */
  datatype Step =
    | Own(i: nat, s: Local)
    | Tick(seconds: nat)
    | NewBlocks(count: nat)
    | Outside(tx: Pallet.Tx)
    | Land(ticket: nat)
    | Lose(ticket: nat)

  predicate Enabled(f: Fed, step: Step) {
    match step
    case Own(i, s) => i < |f.members| && CanDo(f, f.members[i], s)
    case Land(x) => x in f.pool
    case Lose(x) => x in f.pool
    case _ => true
  }

  function OnChain(f: Fed, tx: Pallet.Tx): Fed {
    var chain := Pallet.After(f.chain, tx);
    f.(chain := chain, stamps := f.stamps + if chain.log == f.chain.log then [] else [f.time])
  }

  /** The task is still waiting for the transaction with this ticket. */
  predicate Awaits(m: Member, t: nat, ticket: nat) {
    t in m.tasks && m.tasks[t].ForTakeResult? && m.tasks[t].ticket == ticket
  }

  /** What becomes of a take concerns the task that waits for it, if there still is one. */
  function Told(members: seq<Member>, ticket: nat, sent: Sent, flight: Flight): seq<Member> {
    if sent.i < |members| && sent.origin.Taking? && Awaits(members[sent.i], sent.origin.task, ticket) then
      var m, t := members[sent.i], sent.origin.task;
      members[sent.i := m.(tasks := m.tasks[t := m.tasks[t].(flight := flight)])]
    else members
  }

  function AddToPool(f: Fed, sent: Option<Sent>): Fed {
    if sent.Some? then f.(pool := f.pool[f.tickets := sent.value], tickets := f.tickets + 1) else f
  }

  function Next(f: Fed, step: Step): Fed
    requires Enabled(f, step)
  {
    match step
    case Own(i, s) =>
      AddToPool(f.(members := f.members[i := MemberNext(f, f.members[i], s)]), Sends(f, i, s))
    case Tick(d) => f.(time := f.time + d)
    case NewBlocks(d) => f.(chain := f.chain.(now := f.chain.now + d))
    case Outside(tx) => OnChain(f, tx)
    case Land(x) =>
      var included := Included(Pallet.Exec(f.chain, f.pool[x].tx).Ok?);
      OnChain(f, f.pool[x].tx).(pool := f.pool - {x}, members := Told(f.members, x, f.pool[x], included))
    case Lose(x) => f.(pool := f.pool - {x}, members := Told(f.members, x, f.pool[x], Dropped))
  }

  // ---------- runs ----------

  /** Nobody has subscribed yet, no node is active, and the chain is new. Keys are distinct. */
  ghost predicate Initial(f: Fed) {
    && f.chain == Pallet.GENESIS && f.stamps == [] && f.pool == map[] && f.tickets == 0
    && (forall i :: 0 <= i < |f.members| ==>
          !f.members[i].subscribed && !f.members[i].node.mode.Active? && f.members[i].tasks == map[] &&
          f.members[i].beat.None? && f.members[i].node.cache == map[] &&
          f.members[i].joined == f.members[i].delivered == 0)
    && KeysDistinct(f)
  }

  ghost predicate KeysDistinct(f: Fed) {
    && (forall i :: 0 <= i < |f.members| ==> f.members[i].node.key != DEFAULT_ACCOUNT)
    && (forall i, j :: 0 <= i < j < |f.members| ==> f.members[i].node.key != f.members[j].node.key)
  }

  ghost predicate IsRun(trace: seq<Fed>, steps: seq<Step>) {
    && |trace| == |steps| + 1 && Initial(trace[0])
    && forall n :: 0 <= n < |steps| ==> Enabled(trace[n], steps[n]) && trace[n + 1] == Next(trace[n], steps[n])
  }

  // ---------- what a step does to the log, and to whom ----------

  /** The log only grows, by at most one event, stamped with the time. */
  lemma StepGrowsLog(f: Fed, step: Step)
    requires Enabled(f, step)
    ensures var l, l' := f.chain.log, Next(f, step).chain.log;
            || (l' == l && Next(f, step).stamps == f.stamps)
            || (|l'| == |l| + 1 && l'[..|l|] == l && Next(f, step).stamps == f.stamps + [f.time])
  {
    match step
    case Outside(tx) => StepOnLog(f.chain, Pallet.Submit(tx));
    case Land(x) => StepOnLog(f.chain, Pallet.Submit(f.pool[x].tx));
    case _ =>
  }
}
