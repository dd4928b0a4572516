/** Which assumptions exclusion needs: all of them. For every clause of the discipline there is a run that keeps to
    the others and ends with two active nodes in one group, because a node that finds itself leader activates
    without any wait; and for every delay above the settling time there is one that keeps to all clauses. */
module Overlap {
  import opened Types
  import opened Chain
  import opened Decisions
  import opened Tasks
  import opened Federation
  import opened Exclusion
  import opened Settling
  import Pallet

  /** Some run that keeps to the discipline ends in this state. */
  ghost predicate Reaches(c: Discipline, f: Fed) {
    exists trace, steps :: KeepsTo(c, trace, steps) && trace[|steps|] == f
  }

  /** No run that keeps to the discipline ever has two active nodes in one group. */
  ghost predicate Excludes(c: Discipline) {
    forall f :: Reaches(c, f) ==> Exclusive(f)
  }

  lemma TakeStep(c: Discipline, f: Fed, step: Step, g: Fed)
    requires Reaches(c, f) && Enabled(f, step) && Obeys(c, f, step) && Next(f, step) == g
    ensures Reaches(c, g)
  {
    var trace, steps :| KeepsTo(c, trace, steps) && trace[|steps|] == f;
    var trace', steps' := trace + [g], steps + [step];
    forall k | 0 <= k < |steps'|
      ensures Enabled(trace'[k], steps'[k]) && trace'[k + 1] == Next(trace'[k], steps'[k])
      ensures Obeys(c, trace'[k], steps'[k])
    {
      if k < |steps| {
        assert steps'[k] == steps[k] && trace'[k] == trace[k] && trace'[k + 1] == trace[k + 1];
      } else {
        assert steps'[k] == step && trace'[k] == f && trace'[k + 1] == g;
      }
    }
    assert KeepsTo(c, trace', steps') && trace'[|steps'|] == g;
  }

  function TasksAfter(t: nat, w: Wait): map<nat, Wait> {
    if w.Finished? then map[] else map[t := w]
  }

  /** Nothing but member `i` differs. */
  predicate OnlyMember(f: Fed, g: Fed, i: nat) {
    && g == f.(members := g.members) && |g.members| == |f.members|
    && forall j :: 0 <= j < |f.members| && j != i ==> g.members[j] == f.members[j]
  }

  /** A reply to the only task of member `i`, upon which nothing is sent. */
  lemma AnswerTask(c: Discipline, f: Fed, i: nat, t: nat, r: Tasks.Reply, k: nat, g: Fed)
    requires Reaches(c, f) && Enabled(f, Own(i, Reply(t, r, k))) && Obeys(c, f, Own(i, Reply(t, r, k)))
    requires f.members[i].tasks == map[t := f.members[i].tasks[t]] && !f.members[i].tasks[t].ForTakeGate?
    requires OnlyMember(f, g, i)
    requires var p := Resume(f.members[i].node, f.members[i].tasks[t], r, f.time, f.tickets);
             g.members[i] == f.members[i].(node := p.node, tasks := TasksAfter(t, p.wait))
    ensures Reaches(c, g)
  {
    var w := f.members[i].tasks[t];
    var p := Resume(f.members[i].node, w, r, f.time, f.tickets);
    assert map[t := w] - {t} == map[];
    assert map[t := w][t := p.wait] == map[t := p.wait];
    assert MemberNext(f, f.members[i], Reply(t, r, k)) == g.members[i];
    assert f.members[i := g.members[i]] == g.members;
    TakeStep(c, f, Own(i, Reply(t, r, k)), g);
  }

  /** Member `i` with only one task sends the take that the task has asked for. */
  lemma SendTake(c: Discipline, f: Fed, i: nat, t: nat, ask: Ask, v: View, g: Fed)
    requires Reaches(c, f) && Enabled(f, Own(i, Reply(t, GateReply(v), 0))) && |f.stamps| == |f.chain.log|
    requires f.members[i].tasks == map[t := ForTakeGate(true, ask)] && ask.oldLeader.Some?
    requires CanSend(f.members[i].node.link, v)
    requires var m := f.members[i];
             && OnlyMember(f.(pool := f.pool[f.tickets := Sent(i, TakeTx(m.node, ask), Taking(t, true, ask))],
                              tickets := f.tickets + 1), g, i)
             && g.members[i] == m.(node := m.node.(link := LinkAfter(m.node.link, v)),
                                   tasks := map[t := ForTakeResult(true, ask, f.tickets, Pending)])
    ensures Reaches(c, g)
  {
    var m, w := f.members[i], ForTakeGate(true, ask);
    var p := Resume(m.node, w, GateReply(v), f.time, f.tickets);
    assert map[t := w][t := p.wait] == map[t := p.wait];
    assert MemberNext(f, m, Reply(t, GateReply(v), 0)) == g.members[i];
    assert f.members[i := g.members[i]] == g.members;
    TakeStep(c, f, Own(i, Reply(t, GateReply(v), 0)), g);
  }

  /** That take lands with effect. */
  lemma LandTake(c: Discipline, f: Fed, i: nat, t: nat, ask: Ask, x: nat, g: Fed)
    requires Reaches(c, f) && |f.stamps| == |f.chain.log| && i < |f.members|
    requires f.members[i].tasks == map[t := ForTakeResult(true, ask, x, Pending)]
    requires x in f.pool && f.pool == map[x := f.pool[x]]
    requires f.pool[x].i == i && f.pool[x].origin == Taking(t, true, ask)
    requires Pallet.Exec(f.chain, f.pool[x].tx).Ok? && Pallet.After(f.chain, f.pool[x].tx).log != f.chain.log
    requires OnlyMember(f.(chain := Pallet.After(f.chain, f.pool[x].tx), stamps := f.stamps + [f.time], pool := map[]),
                        g, i)
    requires g.members[i] == f.members[i].(tasks := map[t := ForTakeResult(true, ask, x, Included(true))])
    ensures Reaches(c, g)
  {
    var w := ForTakeResult(true, ask, x, Pending);
    assert f.pool - {x} == map[];
    assert map[t := w][t := w.(flight := Included(true))] == map[t := ForTakeResult(true, ask, x, Included(true))];
    assert Told(f.members, x, f.pool[x], Included(true)) == f.members[i := g.members[i]];
    assert f.members[i := g.members[i]] == g.members;
    TakeStep(c, f, Land(x), g);
  }

  lemma ReachesMore(c: Discipline, d: Discipline, f: Fed)
    requires NoStricter(c, d) && Reaches(d, f)
    ensures Reaches(c, f)
  {
    var trace, steps :| KeepsTo(d, trace, steps) && trace[|steps|] == f;
    forall k | 0 <= k < |steps|
      ensures Obeys(c, trace[k], steps[k])
    {
      StricterObeys(c, d, trace[k], steps[k]);
    }
    assert KeepsTo(c, trace, steps);
  }

  // ---------- the actors ----------

  const GROUP: GroupId := 7

  /** A check of the link that finds nothing wrong, at this block. */
  function HealthyAt(block: nat): View {
    View(true, block, block, 1, 1, false, 1, false)
  }

  /** The task of a forced activation that the administrator asks for, and of another one. */
  const FORCE: nat := 1
  const AGAIN: nat := 2

  function NodeIn(key: AccountId, mode: Mode, link: Link): Node {
    Node(key, GROUP, Operator, Orchestrated, 12, true, true, true, 0, 0, mode, map[], link)
  }

  function NeverBooted(key: AccountId): Member {
    Member(NodeIn(key, Idle, Link(0, 0)), false, 0, 0, map[], None)
  }

  function JustBooted(key: AccountId, block: nat): Member {
    Member(NodeIn(key, Passive, Link(block, 0)), false, 0, 0, map[], None)
  }

  function Joined(n: Node, delivered: nat, tasks: map<nat, Wait>): Member {
    Member(n, true, 0, delivered, tasks, None)
  }

  const FIRST := NodeIn(1, Passive, Link(1, 0))
  const FIRST_CHECKED := NodeIn(1, Passive, Link(1, 1))
  const FIRST_ACTIVE := NodeIn(1, Active, Link(1, 1))
  const SECOND := NodeIn(2, Passive, Link(1, 0))
  const SECOND_CHECKED := NodeIn(2, Passive, Link(3, 0))
  const SECOND_AGAIN := NodeIn(2, Passive, Link(4, 0))

  /** Both nodes name node 1: itself, and the leader. */
  const ASK := Ask(Some(1), Forced)

  function TakeBy(i: nat, key: AccountId): Sent {
    Sent(i, Pallet.Tx(key, Pallet.SetLeader(1, GROUP)), Taking(FORCE, true, ASK))
  }

  function AskedFor(ticket: nat, flight: Flight): map<nat, Wait> {
    map[FORCE := ForTakeResult(true, ASK, ticket, flight)]
  }

  const UNLED := Pallet.GENESIS.(now := 1)
  const TAKEN_ONCE: seq<Event> := [NewLeader(1, GROUP)]
  const TAKEN_TWICE: seq<Event> := [NewLeader(1, GROUP), NewLeader(2, GROUP)]

  function LedBy(leader: AccountId, log: seq<Event>, now: nat): Pallet.State {
    UNLED.(now := now, leaders := map[GROUP := leader], leadedGroup := map[GROUP := true], log := log)
  }

  /** The group has no leader yet, at block 1. */
  function Open(a: Member, b: Member): Fed {
    Fed(UNLED, [a, b], 0, [], map[], 0)
  }

  /** The take of node 1 is on its way, at block 2. */
  function Offered(a: Member, b: Member): Fed {
    Fed(UNLED.(now := 2), [a, b], 0, [], map[0 := TakeBy(0, 1)], 1)
  }

  /** Node 1 has taken the leadership at time 0 in block 2. */
  function Held(a: Member, b: Member, time: nat, now: nat): Fed {
    Fed(LedBy(1, TAKEN_ONCE, now), [a, b], time, [0], map[], 1)
  }

  /** Node 2 has taken it at time 10 in block 4, with its own take or with one made outside. */
  function Usurped(a: Member, b: Member, time: nat, now: nat, tickets: nat): Fed {
    Fed(LedBy(2, TAKEN_TWICE, now), [a, b], time, [0, 10], map[], tickets)
  }

  const STRICTEST := Discipline(0, true, true, true, true)

  // ---------- node 1 becomes active ----------

  lemma BothBoot()
    ensures Reaches(STRICTEST, Open(JustBooted(1, 1), JustBooted(2, 1)))
  {
    var f0 := Fed(Pallet.GENESIS, [NeverBooted(1), NeverBooted(2)], 0, [], map[], 0);
    var none: seq<Step> := [];
    assert KeepsTo(STRICTEST, [f0], none) && [f0][|none|] == f0;
    var f1 := Open(NeverBooted(1), NeverBooted(2));
    TakeStep(STRICTEST, f0, NewBlocks(1), f1);
    var f2 := Open(JustBooted(1, 1), NeverBooted(2));
    TakeStep(STRICTEST, f1, Own(0, Boot(1, true, true)), f2);
    var f3 := Open(JustBooted(1, 1), JustBooted(2, 1));
    TakeStep(STRICTEST, f2, Own(1, Boot(1, true, true)), f3);
  }

  lemma BothJoin()
    ensures Reaches(STRICTEST, Open(Joined(FIRST, 0, map[]), Joined(SECOND, 0, map[])))
  {
    BothBoot();
    var f1 := Open(Joined(FIRST, 0, map[]), JustBooted(2, 1));
    TakeStep(STRICTEST, Open(JustBooted(1, 1), JustBooted(2, 1)), Own(0, Subscribe), f1);
    TakeStep(STRICTEST, f1, Own(1, Subscribe), Open(Joined(FIRST, 0, map[]), Joined(SECOND, 0, map[])));
  }

  /** Node 1 is told to activate. */
  lemma FirstBegins()
    ensures Reaches(STRICTEST, Open(Joined(FIRST, 0, map[FORCE := ForLeader(true)]), Joined(SECOND, 0, map[])))
  {
    BothJoin();
    var b := Joined(SECOND, 0, map[]);
    var f1 := Open(Joined(FIRST, 0, map[FORCE := ForLeader(true)]), b);
    TakeStep(STRICTEST, Open(Joined(FIRST, 0, map[]), b), Own(0, Begin(FORCE)), f1);
  }

  /** It finds its group without a leader. */
  lemma FirstLooks()
    ensures Reaches(STRICTEST, Open(Joined(FIRST, 0, map[FORCE := ForTakeGate(true, ASK)]), Joined(SECOND, 0, map[])))
  {
    FirstBegins();
    var b := Joined(SECOND, 0, map[]);
    var f1 := Open(Joined(FIRST, 0, map[FORCE := ForLeader(true)]), b);
    var f2 := Open(Joined(FIRST, 0, map[FORCE := ForLed(true, Some(DEFAULT_ACCOUNT))]), b);
    AnswerTask(STRICTEST, f1, 0, FORCE, LeaderReply(Some(DEFAULT_ACCOUNT)), 0, f2);
    var f3 := Open(Joined(FIRST, 0, map[FORCE := ForTakeGate(true, ASK)]), b);
    AnswerTask(STRICTEST, f2, 0, FORCE, LedReply(false), 0, f3);
  }

  /** It sends its take, which waits for the next block. */
  lemma FirstSends()
    ensures Reaches(STRICTEST, Offered(Joined(FIRST_CHECKED, 0, AskedFor(0, Pending)), Joined(SECOND, 0, map[])))
  {
    FirstLooks();
    var a, b := Joined(FIRST_CHECKED, 0, AskedFor(0, Pending)), Joined(SECOND, 0, map[]);
    var f1 := Open(Joined(FIRST, 0, map[FORCE := ForTakeGate(true, ASK)]), b);
    var f2 := Open(a, b).(pool := map[0 := TakeBy(0, 1)], tickets := 1);
    SendTake(STRICTEST, f1, 0, FORCE, ASK, HealthyAt(1), f2);
    TakeStep(STRICTEST, f2, NewBlocks(1), Offered(a, b));
  }

  /** The take lands. */
  lemma FirstTakes()
    ensures Reaches(STRICTEST, Held(Joined(FIRST_CHECKED, 0, AskedFor(0, Included(true))), Joined(SECOND, 0, map[]),
                                    0, 2))
  {
    FirstSends();
    var b := Joined(SECOND, 0, map[]);
    var f1 := Offered(Joined(FIRST_CHECKED, 0, AskedFor(0, Pending)), b);
    LandTake(STRICTEST, f1, 0, FORCE, ASK, 0, Held(Joined(FIRST_CHECKED, 0, AskedFor(0, Included(true))), b, 0, 2));
  }

  /** Everybody hears of it. */
  lemma BothHear()
    ensures Reaches(STRICTEST, Held(Joined(FIRST_CHECKED, 1, AskedFor(0, Included(true))), Joined(SECOND, 1, map[]),
                                    0, 2))
  {
    FirstTakes();
    var tasks := AskedFor(0, Included(true));
    var f1 := Held(Joined(FIRST_CHECKED, 0, tasks), Joined(SECOND, 0, map[]), 0, 2);
    var f2 := Held(Joined(FIRST_CHECKED, 0, tasks), Joined(SECOND, 1, map[]), 0, 2);
    TakeStep(STRICTEST, f1, Own(1, Deliver), f2);
    TakeStep(STRICTEST, f2, Own(0, Deliver), Held(Joined(FIRST_CHECKED, 1, tasks), Joined(SECOND, 1, map[]), 0, 2));
  }

  /** The ten seconds pass. */
  lemma FirstWaits()
    ensures Reaches(STRICTEST, Held(Joined(FIRST_CHECKED, 1, map[FORCE := ForSettle(true, 0)]),
                                    Joined(SECOND, 1, map[]), 10, 3))
  {
    BothHear();
    var b := Joined(SECOND, 1, map[]);
    var f1 := Held(Joined(FIRST_CHECKED, 1, AskedFor(0, Included(true))), b, 0, 2);
    var f2 := Held(Joined(FIRST_CHECKED, 1, map[FORCE := ForSettle(true, 0)]), b, 0, 2);
    AnswerTask(STRICTEST, f1, 0, FORCE, ResultReply(Accepted), 0, f2);
    assert DeliveredBy(f2, 10, STRICTEST.delay);
    var f3 := f2.(time := 10);
    TakeStep(STRICTEST, f2, Tick(10), f3);
    TakeStep(STRICTEST, f3, NewBlocks(1), Held(f2.members[0], b, 10, 3));
  }

  /** Node 1 becomes active. */
  lemma FirstActivates()
    ensures Reaches(STRICTEST, Held(Joined(FIRST_ACTIVE, 1, map[]), Joined(SECOND, 1, map[]), 10, 3))
  {
    FirstWaits();
    var b := Joined(SECOND, 1, map[]);
    var f3 := Held(Joined(FIRST_CHECKED, 1, map[FORCE := ForSettle(true, 0)]), b, 10, 3);
    var f4 := Held(Joined(FIRST_CHECKED, 1, map[FORCE := ForRecheck(true)]), b, 10, 3);
    AnswerTask(STRICTEST, f3, 0, FORCE, TimerReply, 0, f4);
    AnswerTask(STRICTEST, f4, 0, FORCE, LeaderReply(Some(1)), 1, Held(Joined(FIRST_ACTIVE, 1, map[]), b, 10, 3));
  }

  ghost predicate SomeoneActive(f: Fed) {
    exists i :: 0 <= i < |f.members| && f.members[i].node.mode.Active?
  }

  /** Under any discipline there are runs that reach an active node. */
  lemma DisciplinedRunsActivate(c: Discipline)
    ensures exists f :: Reaches(c, f) && SomeoneActive(f)
  {
    FirstActivates();
    var f := Held(Joined(FIRST_ACTIVE, 1, map[]), Joined(SECOND, 1, map[]), 10, 3);
    ReachesMore(c, STRICTEST, f);
    assert f.members[0].node.mode.Active?;
  }

  // ---------- node 2 takes the leadership ----------

  /** Node 2 is told to activate. */
  lemma SecondBegins()
    ensures Reaches(STRICTEST, Held(Joined(FIRST_ACTIVE, 1, map[]),
                                    Joined(SECOND, 1, map[FORCE := ForLeader(true)]), 10, 3))
  {
    FirstActivates();
    var a := Joined(FIRST_ACTIVE, 1, map[]);
    var f1 := Held(a, Joined(SECOND, 1, map[FORCE := ForLeader(true)]), 10, 3);
    TakeStep(STRICTEST, Held(a, Joined(SECOND, 1, map[]), 10, 3), Own(1, Begin(FORCE)), f1);
  }

  /** It reads that node 1 leads. */
  lemma SecondLooks()
    ensures Reaches(STRICTEST, Held(Joined(FIRST_ACTIVE, 1, map[]),
                                    Joined(SECOND, 1, map[FORCE := ForTakeGate(true, ASK)]), 10, 3))
  {
    SecondBegins();
    var a := Joined(FIRST_ACTIVE, 1, map[]);
    var f1 := Held(a, Joined(SECOND, 1, map[FORCE := ForLeader(true)]), 10, 3);
    var f2 := Held(a, Joined(SECOND, 1, map[FORCE := ForLed(true, Some(1))]), 10, 3);
    AnswerTask(STRICTEST, f1, 1, FORCE, LeaderReply(Some(1)), 1, f2);
    var f3 := Held(a, Joined(SECOND, 1, map[FORCE := ForTakeGate(true, ASK)]), 10, 3);
    AnswerTask(STRICTEST, f2, 1, FORCE, LedReply(true), 1, f3);
  }

  /** Node 1 still leads, and the take of node 2 is on its way. */
  function Challenged(a: Member, b: Member, now: nat): Fed {
    Held(a, b, 10, now).(pool := map[1 := TakeBy(1, 2)], tickets := 2)
  }

  lemma SecondSends()
    ensures Reaches(STRICTEST, Challenged(Joined(FIRST_ACTIVE, 1, map[]),
                                          Joined(SECOND_CHECKED, 1, AskedFor(1, Pending)), 4))
  {
    SecondLooks();
    var a, b := Joined(FIRST_ACTIVE, 1, map[]), Joined(SECOND_CHECKED, 1, AskedFor(1, Pending));
    var f1 := Held(a, Joined(SECOND, 1, map[FORCE := ForTakeGate(true, ASK)]), 10, 3);
    SendTake(STRICTEST, f1, 1, FORCE, ASK, HealthyAt(3), Challenged(a, b, 3));
    TakeStep(STRICTEST, Challenged(a, b, 3), NewBlocks(1), Challenged(a, b, 4));
  }

  /** The take lands; nobody has heard of it yet. */
  lemma SecondTakes()
    ensures Reaches(STRICTEST, Usurped(Joined(FIRST_ACTIVE, 1, map[]),
                                       Joined(SECOND_CHECKED, 1, AskedFor(1, Included(true))), 10, 4, 2))
  {
    SecondSends();
    var a := Joined(FIRST_ACTIVE, 1, map[]);
    var f1 := Challenged(a, Joined(SECOND_CHECKED, 1, AskedFor(1, Pending)), 4);
    var f2 := Usurped(a, Joined(SECOND_CHECKED, 1, AskedFor(1, Included(true))), 10, 4, 2);
    LandTake(STRICTEST, f1, 1, FORCE, ASK, 1, f2);
  }

  /** A task of node 2 that reads itself as the leader makes two nodes active. */
  lemma SecondActivates(c: Discipline, b: Member, t: nat, time: nat, now: nat, tickets: nat)
    requires Reaches(c, Usurped(Joined(FIRST_ACTIVE, 1, map[]), b, time, now, tickets))
    requires b.node.key == 2 && b.node.group == GROUP && b.node.role.Operator? && b.delivered <= 2
    requires t in b.tasks && (b.tasks[t] == ForLeader(true) || b.tasks[t] == ForRecheck(true))
    ensures !Excludes(c)
  {
    var a := Joined(FIRST_ACTIVE, 1, map[]);
    var f := Usurped(a, b, time, now, tickets);
    var step := Own(1, Reply(t, LeaderReply(Some(2)), 2));
    assert TAKEN_TWICE[..2] == TAKEN_TWICE;
    var g := Next(f, step);
    TakeStep(c, f, step, g);
    assert g.members[0].node.mode.Active? && g.members[1].node.mode.Active? && SameGroup(g, 0, 1);
    assert !Exclusive(g);
  }

  // ---------- one run for each clause ----------

  /** The take is reported as failed. In a new task node 2 finds itself leader. */
  lemma UntruthfulOverlaps()
    ensures !Excludes(Discipline(0, false, true, true, true))
  {
    var c := Discipline(0, false, true, true, true);
    SecondTakes();
    var a := Joined(FIRST_ACTIVE, 1, map[]);
    var f1 := Usurped(a, Joined(SECOND_CHECKED, 1, AskedFor(1, Included(true))), 10, 4, 2);
    ReachesMore(c, STRICTEST, f1);
    var f2 := Usurped(a, Joined(SECOND_CHECKED, 1, map[]), 10, 4, 2);
    AnswerTask(c, f1, 1, FORCE, ResultReply(Failure), 0, f2);
    var b := Joined(SECOND_CHECKED, 1, map[FORCE := ForLeader(true)]);
    TakeStep(c, f2, Own(1, Begin(FORCE)), Usurped(a, b, 10, 4, 2));
    SecondActivates(c, b, FORCE, 10, 4, 2);
  }

  /** While one task waits for its take, the administrator starts another one. */
  lemma SecondTaskOverlaps()
    ensures !Excludes(Discipline(0, true, false, true, true))
  {
    var c := Discipline(0, true, false, true, true);
    SecondTakes();
    var a := Joined(FIRST_ACTIVE, 1, map[]);
    var f1 := Usurped(a, Joined(SECOND_CHECKED, 1, AskedFor(1, Included(true))), 10, 4, 2);
    ReachesMore(c, STRICTEST, f1);
    var b := Joined(SECOND_CHECKED, 1, AskedFor(1, Included(true))[AGAIN := ForLeader(true)]);
    TakeStep(c, f1, Own(1, Begin(AGAIN)), Usurped(a, b, 10, 4, 2));
    SecondActivates(c, b, AGAIN, 10, 4, 2);
  }

  /** Node 2 is restarted while its task waits. */
  lemma RestartOverlaps()
    ensures !Excludes(Discipline(0, true, true, false, true))
  {
    var c := Discipline(0, true, true, false, true);
    SecondTakes();
    var a := Joined(FIRST_ACTIVE, 1, map[]);
    var f1 := Usurped(a, Joined(SECOND_CHECKED, 1, AskedFor(1, Included(true))), 10, 4, 2);
    ReachesMore(c, STRICTEST, f1);
    var f2 := Usurped(a, JustBooted(2, 4), 10, 4, 2);
    TakeStep(c, f1, Own(1, Boot(4, true, true)), f2);
    var f3 := Usurped(a, Member(SECOND_AGAIN, true, 2, 2, map[], None), 10, 4, 2);
    TakeStep(c, f2, Own(1, Subscribe), f3);
    var b := Member(SECOND_AGAIN, true, 2, 2, map[FORCE := ForLeader(true)], None);
    TakeStep(c, f3, Own(1, Begin(FORCE)), Usurped(a, b, 10, 4, 2));
    SecondActivates(c, b, FORCE, 10, 4, 2);
  }

  const SHARED := Discipline(0, true, true, true, false)

  /** Somebody else takes the leadership with the key of node 2. */
  lemma OutsiderTakes()
    ensures Reaches(SHARED, Usurped(Joined(FIRST_ACTIVE, 1, map[]), Joined(SECOND, 1, map[]), 10, 4, 1))
  {
    FirstActivates();
    var a := Joined(FIRST_ACTIVE, 1, map[]);
    var f1 := Held(a, Joined(SECOND, 1, map[]), 10, 3);
    ReachesMore(SHARED, STRICTEST, f1);
    var f2 := Usurped(a, Joined(SECOND, 1, map[]), 10, 4, 1);
    var f3 := Held(a, Joined(SECOND, 1, map[]), 10, 4);
    TakeStep(SHARED, f1, NewBlocks(1), f3);
    TakeStep(SHARED, f3, Outside(Pallet.Tx(2, Pallet.SetLeader(1, GROUP))), f2);
  }

  lemma SharedKeyOverlaps()
    ensures !Excludes(SHARED)
  {
    OutsiderTakes();
    var a := Joined(FIRST_ACTIVE, 1, map[]);
    var f2 := Usurped(a, Joined(SECOND, 1, map[]), 10, 4, 1);
    var b := Joined(SECOND, 1, map[FORCE := ForLeader(true)]);
    TakeStep(SHARED, f2, Own(1, Begin(FORCE)), Usurped(a, b, 10, 4, 1));
    SecondActivates(SHARED, b, FORCE, 10, 4, 1);
  }

  const LATE := Discipline(SETTLE_TIME + 1, true, true, true, true)

  /** Node 2 waits its ten seconds. */
  lemma SecondWaits()
    ensures Reaches(LATE, Usurped(Joined(FIRST_ACTIVE, 1, map[]),
                                  Joined(SECOND_CHECKED, 1, map[FORCE := ForSettle(true, 10)]), 20, 5, 2))
  {
    SecondTakes();
    var a := Joined(FIRST_ACTIVE, 1, map[]);
    var f1 := Usurped(a, Joined(SECOND_CHECKED, 1, AskedFor(1, Included(true))), 10, 4, 2);
    ReachesMore(LATE, STRICTEST, f1);
    var f2 := Usurped(a, Joined(SECOND_CHECKED, 1, map[FORCE := ForSettle(true, 10)]), 10, 4, 2);
    AnswerTask(LATE, f1, 1, FORCE, ResultReply(Accepted), 0, f2);
    assert DeliveredBy(f2, 20, LATE.delay);
    var f3 := f2.(time := 20);
    TakeStep(LATE, f2, Tick(10), f3);
    TakeStep(LATE, f3, NewBlocks(1), Usurped(a, f2.members[1], 20, 5, 2));
  }

  /** Every clause is kept, but node 1 is one second late to hear of the take. */
  lemma LateEventOverlaps()
    ensures !Excludes(LATE)
  {
    SecondWaits();
    var a := Joined(FIRST_ACTIVE, 1, map[]);
    var f1 := Usurped(a, Joined(SECOND_CHECKED, 1, map[FORCE := ForSettle(true, 10)]), 20, 5, 2);
    var b := Joined(SECOND_CHECKED, 1, map[FORCE := ForRecheck(true)]);
    AnswerTask(LATE, f1, 1, FORCE, TimerReply, 0, Usurped(a, b, 20, 5, 2));
    SecondActivates(LATE, b, FORCE, 20, 5, 2);
  }

  // ---------- the exact condition ----------

  lemma LessStrictOverlaps(c: Discipline, d: Discipline)
    requires NoStricter(c, d) && !Excludes(d)
    ensures !Excludes(c)
  {
    var f :| Reaches(d, f) && !Exclusive(f);
    ReachesMore(c, d, f);
  }

  /** A discipline keeps every run free of two active nodes in a group, if and only if it has all four clauses and
      its delay is at most the time that a node waits after a take. */
  lemma ExclusionExactly(c: Discipline)
    ensures Excludes(c) <==> c.truthful && c.single && c.whole && c.own && c.delay <= SETTLE_TIME
  {
    if !c.truthful {
      UntruthfulOverlaps();
      LessStrictOverlaps(c, Discipline(0, false, true, true, true));
    } else if !c.single {
      SecondTaskOverlaps();
      LessStrictOverlaps(c, Discipline(0, true, false, true, true));
    } else if !c.whole {
      RestartOverlaps();
      LessStrictOverlaps(c, Discipline(0, true, true, false, true));
    } else if !c.own {
      SharedKeyOverlaps();
      LessStrictOverlaps(c, SHARED);
    } else if c.delay > SETTLE_TIME {
      LateEventOverlaps();
      LessStrictOverlaps(c, LATE);
    } else {
      forall f | Reaches(c, f)
        ensures Exclusive(f)
      {
        ReachesMore(FULL, c, f);
        var trace, steps :| KeepsTo(FULL, trace, steps) && trace[|steps|] == f;
        TenSecondsExclude(trace, steps, |steps|);
      }
    }
  }
}
