/**
 The database locks of the consumer, the worker and any number of management requests, statement by
 statement: who may ask for what while holding what. A row that is being changed also blocks an
 insert of its dedupe key, and a request queues behind earlier requests for the same lock.
 */
module Locks {
  import opened Heartbeats

  datatype Resource =
    | Advisory(device: string)
    | DeviceRow(device: string)
    | StateRow(device: string)
    | JobRow(id: nat)
    | KeySlot(key: string)

  datatype Actor = Consumer | Worker | Manager(n: nat)

  /** The kinds of transaction: the consumer's; the worker's claim, guard and mark_failed; a request for a device. */
  datatype Work = NoWork | Consuming | Claiming | Guarding(id: nat) | Failing(id: nat) | Managing(device: string)

  datatype Session = Session(work: Work, held: set<Resource>, wants: Option<Resource>, ticket: nat)

  datatype JobInfo = JobInfo(device: string, key: string)

  datatype Locking = Locking(sessions: map<Actor, Session>, jobs: seq<JobInfo>, tickets: nat)

  datatype Act =
    | Begin(actor: Actor, work: Work)
    | Ask(actor: Actor, resource: Resource)
    | Grant(actor: Actor)
    | ClaimRow(id: nat)
    | End(actor: Actor)
    | InsertJob(job: JobInfo)

  const QUIET := Session(NoWork, {}, None, 0)

  function Of(s: Locking, a: Actor): Session {
    if a in s.sessions then s.sessions[a] else QUIET
  }

  predicate Belongs(a: Actor, work: Work) {
    match work
    case NoWork => false
    case Consuming => a == Consumer
    case Claiming => a == Worker
    case Guarding(_) => a == Worker
    case Failing(_) => a == Worker
    case Managing(_) => a.Manager?
  }

  predicate JobOf(s: Locking, id: nat, device: string) {
    id < |s.jobs| && s.jobs[id].device == device
  }

  /** The next lock a statement of the transaction may wait for. The claim skips locked rows and never waits. */
  predicate MayAsk(s: Locking, work: Work, held: set<Resource>, r: Resource) {
    r !in held &&
    match work
    case NoWork => false
    case Consuming => r.DeviceRow? || r.KeySlot? || (r.StateRow? && DeviceRow(r.device) in held)
    case Claiming => false
    case Guarding(id) =>
      id < |s.jobs|
      && (r == Advisory(s.jobs[id].device) || (r == JobRow(id) && Advisory(s.jobs[id].device) in held))
      && (r.Advisory? ==> held == {})
    case Failing(id) => r == JobRow(id) && held == {}
    case Managing(d) =>
      || (r == Advisory(d) && held == {})
      || (r == DeviceRow(d) && Advisory(d) in held)
      || (DeviceRow(d) in held && (r == StateRow(d) || (r.JobRow? && JobOf(s, r.id, d))))
  }

  /** The session's locks keep another one from getting the resource. */
  predicate Bars(s: Locking, holder: Session, r: Resource) {
    || r in holder.held
    || (r.KeySlot? && exists h :: h in holder.held && h.JobRow? && h.id < |s.jobs| && s.jobs[h.id].key == r.key)
  }

  predicate Blocked(s: Locking, a: Actor) {
    Of(s, a).wants.Some? && exists b :: b in s.sessions && b != a && Bars(s, s.sessions[b], Of(s, a).wants.value)
  }

  predicate FreeRow(s: Locking, id: nat) {
    id < |s.jobs| && forall b :: b in s.sessions ==> JobRow(id) !in s.sessions[b].held
  }

  function Put(s: Locking, a: Actor, session: Session): Locking {
    s.(sessions := s.sessions[a := session])
  }

  /** An insert that got through leaves nothing locked that others could see; every other grant is held to the end. */
  function Granted(me: Session): Session
    requires me.wants.Some?
  {
    me.(wants := None, held := if me.wants.value.KeySlot? then me.held else me.held + {me.wants.value})
  }

  function Asked(s: Locking, a: Actor, r: Resource): Locking {
    Put(s, a, Of(s, a).(wants := Some(r), ticket := s.tickets)).(tickets := s.tickets + 1)
  }

  function Next(s: Locking, act: Act): Locking {
    match act
    case Begin(a, work) =>
      if Belongs(a, work) && Of(s, a).work == NoWork then Put(s, a, Session(work, {}, None, 0)) else s
    case Ask(a, r) =>
      if Of(s, a).wants.None? && MayAsk(s, Of(s, a).work, Of(s, a).held, r)
      then Asked(s, a, r) else s
    case Grant(a) => if Of(s, a).wants.Some? && !Blocked(s, a) then Put(s, a, Granted(Of(s, a))) else s
    case ClaimRow(id) =>
      if Of(s, Worker).work == Claiming && Of(s, Worker).held == {} && FreeRow(s, id)
      then Put(s, Worker, Of(s, Worker).(held := {JobRow(id)})) else s
    case End(a) => Put(s, a, QUIET)
    case InsertJob(job) => s.(jobs := s.jobs + [job])
  }

  function RunLocks(s: Locking, acts: seq<Act>): Locking
    decreases |acts|
  {
    if acts == [] then s else RunLocks(Next(s, acts[0]), acts[1..])
  }

  // ----- the invariant -----

  ghost predicate Exclusive(s: Locking) {
    forall a, b, r ::
      a in s.sessions && b in s.sessions && r in s.sessions[a].held && r in s.sessions[b].held ==> a == b
  }

  /** What a session of each kind can hold. */
  ghost predicate HeldOk(s: Locking, me: Session) {
    match me.work
    case NoWork => me.held == {}
    case Consuming =>
      forall r :: r in me.held ==> r.DeviceRow? || (r.StateRow? && DeviceRow(r.device) in me.held)
    case Claiming => forall r :: r in me.held ==> r.JobRow?
    case Guarding(id) =>
      forall r :: r in me.held ==>
        id < |s.jobs| && Advisory(s.jobs[id].device) in me.held && (r == Advisory(s.jobs[id].device) || r == JobRow(id))
    case Failing(id) => forall r :: r in me.held ==> r == JobRow(id)
    case Managing(d) =>
      forall r :: r in me.held ==>
        && Advisory(d) in me.held
        && (r == Advisory(d) || (DeviceRow(d) in me.held
            && (r == DeviceRow(d) || r == StateRow(d) || (r.JobRow? && JobOf(s, r.id, d)))))
  }

  ghost predicate SessionOk(s: Locking, a: Actor) {
    var me := Of(s, a);
    && (me.work == NoWork || Belongs(a, me.work))
    && HeldOk(s, me)
    && (me.wants.Some? ==> MayAsk(s, me.work, me.held, me.wants.value))
  }

  ghost predicate LocksOk(s: Locking) {
    Exclusive(s) && forall a :: a in s.sessions ==> SessionOk(s, a)
  }

  lemma PutKeeps(s: Locking, a: Actor, session: Session)
    requires LocksOk(s)
    requires SessionOk(Put(s, a, session), a)
    requires forall b, r :: b in s.sessions && b != a && r in s.sessions[b].held ==> r !in session.held
    ensures LocksOk(Put(s, a, session))
  {
    var s' := Put(s, a, session);
    forall b | b in s'.sessions ensures SessionOk(s', b) {
      if b != a {
        assert SessionOk(s, b);
      }
    }
  }

  lemma GrantKeeps(s: Locking, a: Actor)
    requires LocksOk(s) && Of(s, a).wants.Some? && !Blocked(s, a)
    ensures LocksOk(Put(s, a, Granted(Of(s, a))))
  {
    assert a in s.sessions && SessionOk(s, a);
    forall b, r | b in s.sessions && b != a && r in s.sessions[b].held
      ensures r !in Granted(Of(s, a)).held
    {
      assert !Bars(s, s.sessions[b], Of(s, a).wants.value);
    }
    PutKeeps(s, a, Granted(Of(s, a)));
  }

  lemma InsertKeeps(s: Locking, job: JobInfo)
    requires LocksOk(s)
    ensures LocksOk(s.(jobs := s.jobs + [job]))
  {
    var s' := s.(jobs := s.jobs + [job]);
    forall a | a in s'.sessions ensures SessionOk(s', a) {
      assert SessionOk(s, a);
      assert forall id: nat, d: string :: JobOf(s, id, d) ==> JobOf(s', id, d);
    }
  }

  lemma AskKeeps(s: Locking, a: Actor, r: Resource)
    requires LocksOk(s) && MayAsk(s, Of(s, a).work, Of(s, a).held, r)
    ensures LocksOk(Asked(s, a, r))
  {
    assert a in s.sessions && SessionOk(s, a);
    var s' := Put(s, a, Of(s, a).(wants := Some(r), ticket := s.tickets));
    PutKeeps(s, a, Of(s, a).(wants := Some(r), ticket := s.tickets));
    TicketsDoNotMatter(s', s.tickets + 1);
    assert Asked(s, a, r) == s'.(tickets := s.tickets + 1);
  }

  lemma ClaimKeeps(s: Locking, id: nat)
    requires LocksOk(s) && Of(s, Worker).work == Claiming && FreeRow(s, id)
    ensures LocksOk(Put(s, Worker, Of(s, Worker).(held := {JobRow(id)})))
  {
    assert SessionOk(s, Worker);
    PutKeeps(s, Worker, Of(s, Worker).(held := {JobRow(id)}));
  }

  lemma NextKeeps(s: Locking, act: Act)
    requires LocksOk(s)
    ensures LocksOk(Next(s, act))
  {
    if Next(s, act) != s {
      match act
      case Begin(a, work) => PutKeeps(s, a, Session(work, {}, None, 0));
      case Ask(a, r) => AskKeeps(s, a, r);
      case Grant(a) => GrantKeeps(s, a);
      case ClaimRow(id) => ClaimKeeps(s, id);
      case End(a) => PutKeeps(s, a, QUIET);
      case InsertJob(job) => InsertKeeps(s, job);
    }
  }

  lemma TicketsDoNotMatter(s: Locking, tickets: nat)
    requires LocksOk(s)
    ensures LocksOk(s.(tickets := tickets))
  {
    var s' := s.(tickets := tickets);
    forall a | a in s'.sessions ensures SessionOk(s', a) {
      assert SessionOk(s, a);
    }
  }

  lemma {:induction false} RunKeepsLocks(s: Locking, acts: seq<Act>)
    requires LocksOk(s)
    ensures LocksOk(RunLocks(s, acts))
    decreases |acts|
  {
    if acts != [] {
      NextKeeps(s, acts[0]);
      RunKeepsLocks(Next(s, acts[0]), acts[1..]);
    }
  }

  // ----- the waits-for relation -----

  /** The actor waits for whoever bars what it wants, and for whoever asked for the same before it. */
  predicate WaitsFor(s: Locking, a: Actor, b: Actor) {
    && a != b && b in s.sessions && Of(s, a).wants.Some?
    && var r := Of(s, a).wants.value;
    && (Bars(s, s.sessions[b], r) || (s.sessions[b].wants == Some(r) && s.sessions[b].ticket < Of(s, a).ticket))
  }

  /** The place of a blocked actor in the order of lock classes; whoever is not blocked comes last. */
  function Rank(s: Locking, a: Actor): nat {
    if !Blocked(s, a) then 0
    else match Of(s, a).wants.value
      case Advisory(_) => 4
      case DeviceRow(_) => if a == Consumer then 2 else 3
      case StateRow(_) => if a == Consumer then 2 else 1
      case JobRow(_) => if a == Worker then 2 else 1
      case KeySlot(_) => 2
  }

  predicate Precedes(s: Locking, b: Actor, a: Actor) {
    Rank(s, b) < Rank(s, a) || (Rank(s, b) == Rank(s, a) && Of(s, b).ticket < Of(s, a).ticket)
  }

  /** Whoever bars a resource is itself waiting only for something of a lower class. */
  lemma BarrierRanksLower(s: Locking, a: Actor, b: Actor)
    requires LocksOk(s) && a != b && a in s.sessions && b in s.sessions && Of(s, a).wants.Some?
    requires Bars(s, s.sessions[b], Of(s, a).wants.value)
    ensures Rank(s, b) < Rank(s, a)
  {
    assert SessionOk(s, a) && SessionOk(s, b);
    assert Blocked(s, a);
    var r := Of(s, a).wants.value;
    var theirs := s.sessions[b];
    var h :| h in theirs.held && (h == r || (r.KeySlot? && h.JobRow?));
    HolderRank(s, b, h);
  }

  /** How far down the order the holder of a lock is. */
  lemma HolderRank(s: Locking, b: Actor, h: Resource)
    requires LocksOk(s) && b in s.sessions && h in s.sessions[b].held
    ensures h.Advisory? ==> Rank(s, b) <= 3
    ensures h.DeviceRow? ==> Rank(s, b) <= (if b == Consumer then 2 else 1)
    ensures h.JobRow? ==> Rank(s, b) <= (if b.Manager? then 1 else 0)
  {
    assert SessionOk(s, b);
    var me := s.sessions[b];
    if h.JobRow? && me.wants.Some? {
      match me.work
      case Guarding(_) => assert false;
      case Managing(d) => assert DeviceRow(d) in me.held;
      case _ =>
    }
  }

  /** Every wait goes down the order, so no wait can come back to where it started. */
  lemma WaitsGoDown(s: Locking, a: Actor, b: Actor)
    requires LocksOk(s) && WaitsFor(s, a, b)
    ensures Precedes(s, b, a)
  {
    assert a in s.sessions;
    if Bars(s, s.sessions[b], Of(s, a).wants.value) {
      BarrierRanksLower(s, a, b);
    }
  }

  predicate WaitPath(s: Locking, path: seq<Actor>) {
    |path| <= 1 || (WaitsFor(s, path[0], path[1]) && WaitPath(s, path[1..]))
  }

  lemma {:induction false} PathGoesDown(s: Locking, path: seq<Actor>)
    requires LocksOk(s) && |path| > 1 && WaitPath(s, path)
    ensures Precedes(s, path[|path| - 1], path[0])
    decreases |path|
  {
    WaitsGoDown(s, path[0], path[1]);
    if |path| > 2 {
      PathGoesDown(s, path[1..]);
    }
  }

  const UNLOCKED := Locking(map[], [], 0)

  /** No deadlock: in every reachable state, no chain of waits leads from an actor back to itself. */
  lemma NoDeadlock(acts: seq<Act>, path: seq<Actor>)
    requires |path| > 1 && WaitPath(RunLocks(UNLOCKED, acts), path)
    ensures path[|path| - 1] != path[0]
  {
    RunKeepsLocks(UNLOCKED, acts);
    PathGoesDown(RunLocks(UNLOCKED, acts), path);
  }

  /** What the first wants, the second holds. */
  predicate BarredBy(s: Locking, a: Actor, b: Actor) {
    a != b && b in s.sessions && Of(s, a).wants.Some? && Bars(s, s.sessions[b], Of(s, a).wants.value)
  }

  /** Every actor of the chain is barred by the next one. */
  predicate BarredInTurn(s: Locking, chain: seq<Actor>) {
    |chain| <= 1 || (BarredBy(s, chain[0], chain[1]) && BarredInTurn(s, chain[1..]))
  }

  lemma SomeBarrier(s: Locking, a: Actor) returns (b: Actor)
    requires LocksOk(s) && Blocked(s, a)
    ensures BarredBy(s, a, b) && Rank(s, b) < Rank(s, a)
  {
    b :| b in s.sessions && b != a && Bars(s, s.sessions[b], Of(s, a).wants.value);
    assert a in s.sessions;
    BarrierRanksLower(s, a, b);
  }

  lemma {:induction false} HolderChain(s: Locking, a: Actor) returns (chain: seq<Actor>)
    requires LocksOk(s)
    ensures 1 <= |chain| <= 1 + Rank(s, a) && chain[0] == a && !Blocked(s, chain[|chain| - 1])
    ensures BarredInTurn(s, chain)
    decreases Rank(s, a)
  {
    chain := [a];
    if Blocked(s, a) {
      var b := SomeBarrier(s, a);
      var rest := HolderChain(s, b);
      chain := [a] + rest;
    }
  }

  /** Following who holds what, a wait ends after at most four holders, at an actor that nobody blocks. */
  lemma SomeHolderIsFree(acts: seq<Act>, a: Actor) returns (chain: seq<Actor>)
    ensures var s := RunLocks(UNLOCKED, acts);
            && 1 <= |chain| <= 5 && chain[0] == a && BarredInTurn(s, chain)
            && !Blocked(s, chain[|chain| - 1])
  {
    RunKeepsLocks(UNLOCKED, acts);
    chain := HolderChain(RunLocks(UNLOCKED, acts), a);
  }

  // ----- every transaction can go through -----

  /** The acts by which an actor takes locks one after the other. */
  function Taking(a: Actor, rs: seq<Resource>): seq<Act>
    decreases |rs|
  {
    if rs == [] then [] else [Ask(a, rs[0]), Grant(a)] + Taking(a, rs[1..])
  }

  function Kept(rs: seq<Resource>): set<Resource> {
    set r | r in rs && !r.KeySlot?
  }

  /** The actor alone has a session, which holds these locks and waits for nothing. */
  predicate Alone(s: Locking, a: Actor, work: Work, held: set<Resource>) {
    && s.sessions.Keys == {a} && s.sessions[a].work == work && s.sessions[a].held == held
    && s.sessions[a].wants == None
  }

  lemma TwoActs(s: Locking, a: Act, b: Act, rest: seq<Act>)
    ensures RunLocks(s, [a, b] + rest) == RunLocks(Next(Next(s, a), b), rest)
  {
    assert ([a, b] + rest)[1..] == [b] + rest && ([b] + rest)[1..] == rest;
    assert RunLocks(Next(s, a), [b] + rest) == RunLocks(Next(Next(s, a), b), rest);
  }

  /** Each statement of the transaction may ask for its lock once those before it have theirs. */
  predicate InTurn(s: Locking, work: Work, held: set<Resource>, rs: seq<Resource>)
    decreases |rs|
  {
    rs != [] ==>
      && MayAsk(s, work, held, rs[0])
      && InTurn(s, work, if rs[0].KeySlot? then held else held + {rs[0]}, rs[1..])
  }

  lemma JobsDecideAsking(s: Locking, s': Locking, work: Work, held: set<Resource>, rs: seq<Resource>)
    requires InTurn(s, work, held, rs) && s'.jobs == s.jobs
    ensures InTurn(s', work, held, rs)
    decreases |rs|
  {
    if rs != [] {
      JobsDecideAsking(s, s', work, if rs[0].KeySlot? then held else held + {rs[0]}, rs[1..]);
    }
  }

  lemma {:induction false} TakesAll(s: Locking, a: Actor, work: Work, held: set<Resource>, rs: seq<Resource>)
    requires Alone(s, a, work, held) && InTurn(s, work, held, rs)
    ensures Alone(RunLocks(s, Taking(a, rs)), a, work, held + Kept(rs))
    decreases |rs|
  {
    if rs == [] {
      assert held + Kept(rs) == held;
    } else {
      var s1 := Next(Next(s, Ask(a, rs[0])), Grant(a));
      var held1 := if rs[0].KeySlot? then held else held + {rs[0]};
      TwoActs(s, Ask(a, rs[0]), Grant(a), Taking(a, rs[1..]));
      JobsDecideAsking(s, s1, work, held1, rs[1..]);
      TakesAll(s1, a, work, held1, rs[1..]);
      assert held1 + Kept(rs[1..]) == held + Kept(rs) by {
        assert forall r :: r in rs <==> r == rs[0] || r in rs[1..];
      }
    }
  }

  /** The locks that a transaction's statements take, in the order of the statements. */
  ghost predicate Takes(s: Locking, work: Work, rs: seq<Resource>, d: string, id: nat, key: string) {
    match work
    case NoWork => false
    case Consuming => rs == [DeviceRow(d), KeySlot(key), StateRow(d)]
    case Claiming => false
    case Guarding(i) => i == id && rs == [Advisory(d), JobRow(id)]
    case Failing(i) => i == id && rs == [JobRow(id)]
    case Managing(e) => e == d && rs == [Advisory(d), DeviceRow(d), JobRow(id), StateRow(d)]
  }

  /** Where nothing is locked, each transaction gets all the locks its statements take, for any of its devices' jobs,
      and holds them to its end. */
  lemma TransactionsGetTheirLocks(s: Locking, a: Actor, work: Work, rs: seq<Resource>, d: string, id: nat, key: string)
    requires s.sessions == map[] && Belongs(a, work) && JobOf(s, id, d) && Takes(s, work, rs, d, id, key)
    ensures Alone(RunLocks(s, [Begin(a, work)] + Taking(a, rs)), a, work, Kept(rs))
  {
    var s1 := Next(s, Begin(a, work));
    assert ([Begin(a, work)] + Taking(a, rs))[1..] == Taking(a, rs);
    assert s1.sessions == map[a := Session(work, {}, None, 0)];
    StatementsInTurn(s1, work, rs, d, id, key);
    TakesAll(s1, a, work, {}, rs);
    assert {} + Kept(rs) == Kept(rs);
  }

  lemma OneMoreStatement(s: Locking, work: Work, held: set<Resource>, r: Resource, held': set<Resource>,
                         rest: seq<Resource>)
    requires MayAsk(s, work, held, r) && held' == if r.KeySlot? then held else held + {r}
    requires InTurn(s, work, held', rest)
    ensures InTurn(s, work, held, [r] + rest)
  {
    assert ([r] + rest)[1..] == rest;
  }

  lemma StatementsInTurn(s: Locking, work: Work, rs: seq<Resource>, d: string, id: nat, key: string)
    requires JobOf(s, id, d) && Takes(s, work, rs, d, id, key)
    ensures InTurn(s, work, {}, rs)
  {
    var advisory, device, row, state := Advisory(d), DeviceRow(d), JobRow(id), StateRow(d);
    match work
    case Consuming =>
      OneMoreStatement(s, work, {device}, state, {device, state}, []);
      OneMoreStatement(s, work, {device}, KeySlot(key), {device}, [state]);
      OneMoreStatement(s, work, {}, device, {device}, [KeySlot(key), state]);
      assert rs == [device] + ([KeySlot(key)] + ([state] + []));
    case Guarding(_) =>
      OneMoreStatement(s, work, {advisory}, row, {advisory, row}, []);
      OneMoreStatement(s, work, {}, advisory, {advisory}, [row]);
      assert rs == [advisory] + ([row] + []);
    case Failing(_) =>
      OneMoreStatement(s, work, {}, row, {row}, []);
      assert rs == [row] + [];
    case Managing(_) =>
      OneMoreStatement(s, work, {advisory, device, row}, state, {advisory, device, row, state}, []);
      OneMoreStatement(s, work, {advisory, device}, row, {advisory, device, row}, [state]);
      OneMoreStatement(s, work, {advisory}, device, {advisory, device}, [row, state]);
      OneMoreStatement(s, work, {}, advisory, {advisory}, [device, row, state]);
      assert rs == [advisory] + ([device] + ([row] + ([state] + [])));
  }

  /** So does the claim, of any job. */
  lemma ClaimGetsItsRow(s: Locking, id: nat)
    requires s.sessions == map[] && id < |s.jobs|
    ensures Alone(RunLocks(s, [Begin(Worker, Claiming), ClaimRow(id)]), Worker, Claiming, {JobRow(id)})
  {
    var s1 := Next(s, Begin(Worker, Claiming));
    TwoActs(s, Begin(Worker, Claiming), ClaimRow(id), []);
    assert [Begin(Worker, Claiming), ClaimRow(id)] + [] == [Begin(Worker, Claiming), ClaimRow(id)];
    assert s1.sessions == map[Worker := Session(Claiming, {}, None, 0)];
  }

  /** The end of a transaction, by commit, rollback or timeout, gives up every lock and every wait. */
  lemma EndReleases(s: Locking, a: Actor, b: Actor)
    ensures var s' := Next(s, End(a));
            && s'.jobs == s.jobs && Of(s', a).held == {} && Of(s', a).wants == None && Of(s', a).work == NoWork
            && (b != a ==> Of(s', b) == Of(s, b))
  {
  }

  // ----- the order matters -----

  /** As before, except that a request asks for jobs of its device first and for the advisory lock after them. */
  predicate HastyAsk(s: Locking, work: Work, held: set<Resource>, r: Resource) {
    if work.Managing? then
      r !in held && ((r.JobRow? && JobOf(s, r.id, work.device)) || (r == Advisory(work.device) && held != {}))
    else MayAsk(s, work, held, r)
  }

  function HastyNext(s: Locking, act: Act): Locking {
    match act
    case Ask(a, r) =>
      if Of(s, a).wants.None? && HastyAsk(s, Of(s, a).work, Of(s, a).held, r) then Asked(s, a, r) else s
    case _ => Next(s, act)
  }

  function RunHasty(s: Locking, acts: seq<Act>): Locking
    decreases |acts|
  {
    if acts == [] then s else RunHasty(HastyNext(s, acts[0]), acts[1..])
  }

  /** The guard has the advisory lock, the request has the job; then each asks for the other's. */
  function HastyActs(d: string, key: string): seq<Act> {
    [InsertJob(JobInfo(d, key)), Begin(Worker, Guarding(0)), Ask(Worker, Advisory(d)), Grant(Worker),
     Begin(Manager(0), Managing(d)), Ask(Manager(0), JobRow(0)), Grant(Manager(0)),
     Ask(Worker, JobRow(0)), Ask(Manager(0), Advisory(d))]
  }

  lemma FirstAct(s: Locking, act: Act, rest: seq<Act>)
    ensures RunHasty(s, [act] + rest) == RunHasty(HastyNext(s, act), rest)
  {
    assert ([act] + rest)[1..] == rest;
  }

  /** Three acts by which an actor comes to hold a lock that nobody bars. */
  lemma TakesLock(s: Locking, a: Actor, work: Work, r: Resource)
    requires Belongs(a, work) && a !in s.sessions && HastyAsk(s, work, {}, r) && !r.KeySlot?
    requires forall b :: b in s.sessions ==> !Bars(s, s.sessions[b], r)
    ensures HastyNext(HastyNext(HastyNext(s, Begin(a, work)), Ask(a, r)), Grant(a))
         == Locking(s.sessions[a := Session(work, {r}, None, s.tickets)], s.jobs, s.tickets + 1)
  {
    var s1 := HastyNext(s, Begin(a, work));
    var s2 := HastyNext(s1, Ask(a, r));
    assert s1 == s.(sessions := s.sessions[a := Session(work, {}, None, 0)]);
    assert s2 == Locking(s.sessions[a := Session(work, {}, Some(r), s.tickets)], s.jobs, s.tickets + 1);
    assert !Blocked(s2, a);
    assert Granted(Of(s2, a)) == Session(work, {r}, None, s.tickets);
  }

  lemma ThreeActs(s: Locking, a: Act, b: Act, c: Act, rest: seq<Act>)
    ensures RunHasty(s, [a, b, c] + rest) == RunHasty(HastyNext(HastyNext(HastyNext(s, a), b), c), rest)
  {
    FirstAct(s, a, [b, c] + rest);
    FirstAct(HastyNext(s, a), b, [c] + rest);
    FirstAct(HastyNext(HastyNext(s, a), b), c, rest);
    assert [a, b, c] + rest == [a] + ([b, c] + rest) && [b, c] + rest == [b] + ([c] + rest);
  }

  /** The state after seven acts: the guard holds the advisory lock and the request the job. */
  function HalfWay(d: string, key: string): Locking {
    Locking(map[Worker := Session(Guarding(0), {Advisory(d)}, None, 0),
                Manager(0) := Session(Managing(d), {JobRow(0)}, None, 1)], [JobInfo(d, key)], 2)
  }

  lemma GuardLocks(d: string, key: string, rest: seq<Act>)
    ensures RunHasty(UNLOCKED.(jobs := [JobInfo(d, key)]),
                     [Begin(Worker, Guarding(0)), Ask(Worker, Advisory(d)), Grant(Worker)] + rest)
         == RunHasty(Locking(map[Worker := Session(Guarding(0), {Advisory(d)}, None, 0)], [JobInfo(d, key)], 1), rest)
  {
    var s := UNLOCKED.(jobs := [JobInfo(d, key)]);
    ThreeActs(s, Begin(Worker, Guarding(0)), Ask(Worker, Advisory(d)), Grant(Worker), rest);
    TakesLock(s, Worker, Guarding(0), Advisory(d));
    assert s.sessions[Worker := Session(Guarding(0), {Advisory(d)}, None, 0)]
        == map[Worker := Session(Guarding(0), {Advisory(d)}, None, 0)];
  }

  lemma RequestLocks(d: string, key: string, rest: seq<Act>)
    ensures RunHasty(Locking(map[Worker := Session(Guarding(0), {Advisory(d)}, None, 0)], [JobInfo(d, key)], 1),
                     [Begin(Manager(0), Managing(d)), Ask(Manager(0), JobRow(0)), Grant(Manager(0))] + rest)
         == RunHasty(HalfWay(d, key), rest)
  {
    var s := Locking(map[Worker := Session(Guarding(0), {Advisory(d)}, None, 0)], [JobInfo(d, key)], 1);
    ThreeActs(s, Begin(Manager(0), Managing(d)), Ask(Manager(0), JobRow(0)), Grant(Manager(0)), rest);
    TakesLock(s, Manager(0), Managing(d), JobRow(0));
    assert s.sessions[Manager(0) := Session(Managing(d), {JobRow(0)}, None, 1)] == HalfWay(d, key).sessions;
  }

  /** Had a request locked a job of its device before the advisory lock, it and the worker's guard could come to
      wait for each other: nine acts lead there from nothing locked. */
  lemma AdvisoryLockComesFirst(d: string, key: string)
    ensures var s := RunHasty(UNLOCKED, HastyActs(d, key));
            WaitsFor(s, Worker, Manager(0)) && WaitsFor(s, Manager(0), Worker)
  {
    var last := [Ask(Worker, JobRow(0)), Ask(Manager(0), Advisory(d))];
    var requests := [Begin(Manager(0), Managing(d)), Ask(Manager(0), JobRow(0)), Grant(Manager(0))];
    var guards := [Begin(Worker, Guarding(0)), Ask(Worker, Advisory(d)), Grant(Worker)];
    assert HastyActs(d, key) == [InsertJob(JobInfo(d, key))] + (guards + (requests + last));
    FirstAct(UNLOCKED, InsertJob(JobInfo(d, key)), guards + (requests + last));
    assert HastyNext(UNLOCKED, InsertJob(JobInfo(d, key))) == UNLOCKED.(jobs := [JobInfo(d, key)]);
    GuardLocks(d, key, requests + last);
    RequestLocks(d, key, last);
    BothAsk(HalfWay(d, key), d);
  }

  /** The last two acts: each asks for what the other holds. */
  lemma BothAsk(s: Locking, d: string)
    requires s.sessions == map[Worker := Session(Guarding(0), {Advisory(d)}, None, 0),
                               Manager(0) := Session(Managing(d), {JobRow(0)}, None, 1)]
    requires JobOf(s, 0, d)
    ensures var s' := RunHasty(s, [Ask(Worker, JobRow(0)), Ask(Manager(0), Advisory(d))]);
            WaitsFor(s', Worker, Manager(0)) && WaitsFor(s', Manager(0), Worker)
  {
    var s1 := HastyNext(s, Ask(Worker, JobRow(0)));
    FirstAct(s, Ask(Worker, JobRow(0)), [Ask(Manager(0), Advisory(d))]);
    FirstAct(s1, Ask(Manager(0), Advisory(d)), []);
    assert [Ask(Worker, JobRow(0))] + [Ask(Manager(0), Advisory(d))]
        == [Ask(Worker, JobRow(0)), Ask(Manager(0), Advisory(d))];
    assert [Ask(Manager(0), Advisory(d))] + [] == [Ask(Manager(0), Advisory(d))];
  }
}
