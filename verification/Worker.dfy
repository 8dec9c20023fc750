/**
 The SMTP worker's process_once over the repository, with management requests served in the gaps where
 no lock keeps them out. Every call is proved to be a run of the protocol.
 */
module Worker {
  import opened Heartbeats
  import opened JobQueue
  import opened Tables
  import opened TableInvariants
  import opened Settings
  import opened Backoff
  import opened Protocol
  import opened Delivery
  import opened Postgres
  import opened Api

  /** What happens around one call: how its transactions end, what SMTP says, which requests come in between. */
  datatype Circumstances = Circumstances(
    claim: Outcome,
    beforeGuard: seq<Request>,
    guardBreaks: bool,
    guard: Outcome,
    connectionLost: bool,
    accepts: bool,
    sent: Outcome,
    afterGuard: seq<Request>,
    failure: Outcome)

  /** True, False or an exception. */
  datatype Result = Processed | NothingDue | Raised

  function Requests(rs: seq<Request>): seq<Action> {
    seq(|rs|, i requires 0 <= i < |rs| => Manage(rs[i]))
  }

  /** The run of the protocol that one call amounts to. */
  function Script(now: real, skipped: set<nat>, e: Circumstances): seq<Action> {
    [Claim(now, skipped, e.claim)]
    + Requests(e.beforeGuard)
    + [if e.guardBreaks then GuardBreaks else EnterGuard(e.guard)]
    + (if e.connectionLost then [ConnectionLost] else [])
    + [SmtpAnswers(e.accepts)]
    + [CommitSent(e.sent)]
    + Requests(e.afterGuard)
    + [CommitFailure(e.failure)]
  }

  // ----- the run, stage by stage -----

  function AfterClaiming(cfg: Config, c: Core, now: real, skipped: set<nat>, e: Circumstances): Core {
    Run(cfg, Step(cfg, c, Claim(now, skipped, e.claim)), Requests(e.beforeGuard))
  }

  function AfterGuarding(cfg: Config, c: Core, e: Circumstances): Core {
    var c1 := Step(cfg, c, if e.guardBreaks then GuardBreaks else EnterGuard(e.guard));
    var c2 := if e.connectionLost then Step(cfg, c1, ConnectionLost) else c1;
    Step(cfg, Step(cfg, c2, SmtpAnswers(e.accepts)), CommitSent(e.sent))
  }

  function AfterPostponing(cfg: Config, c: Core, e: Circumstances): Core {
    Step(cfg, Run(cfg, c, Requests(e.afterGuard)), CommitFailure(e.failure))
  }

  lemma RunAppends(cfg: Config, c: Core, actions: seq<Action>, a: Action)
    ensures Run(cfg, c, actions + [a]) == Step(cfg, Run(cfg, c, actions), a)
  {
    RunSplits(cfg, c, actions, [a]);
    RunOne(cfg, Run(cfg, c, actions), a);
  }

  lemma ScriptRuns(cfg: Config, c: Core, now: real, skipped: set<nat>, e: Circumstances)
    ensures Run(cfg, c, Script(now, skipped, e))
         == AfterPostponing(cfg, AfterGuarding(cfg, AfterClaiming(cfg, c, now, skipped, e), e), e)
  {
    var claim := [Claim(now, skipped, e.claim)];
    var guard := if e.guardBreaks then GuardBreaks else EnterGuard(e.guard);
    RunAppends(cfg, c, [], Claim(now, skipped, e.claim));
    assert [] + claim == claim;
    var s1 := claim + Requests(e.beforeGuard);
    RunSplits(cfg, c, claim, Requests(e.beforeGuard));
    RunAppends(cfg, c, s1, guard);
    var s2 := s1 + [guard];
    var s3 := s2 + (if e.connectionLost then [ConnectionLost] else []);
    if e.connectionLost {
      RunAppends(cfg, c, s2, ConnectionLost);
    } else {
      assert s3 == s2;
    }
    RunAppends(cfg, c, s3, SmtpAnswers(e.accepts));
    var s4 := s3 + [SmtpAnswers(e.accepts)] + [CommitSent(e.sent)];
    RunAppends(cfg, c, s3 + [SmtpAnswers(e.accepts)], CommitSent(e.sent));
    RunSplits(cfg, c, s4, Requests(e.afterGuard));
    RunAppends(cfg, c, s4 + Requests(e.afterGuard), CommitFailure(e.failure));
  }

  /** Requests alone: the tables they leave, and that neither the worker nor any job's identity moves. */
  function ServedAll(db: Db, rs: seq<Request>): Db
    decreases |rs|
  {
    if rs == [] then db else ServedAll(Served(db, rs[0]), rs[1..])
  }

  predicate NoLockHeld(c: Core) {
    c.worker.Busy? ==> c.worker.phase == Held || c.worker.phase == Failed
  }

  /** The requests kept the worker, the process and every job's identity. */
  ghost predicate OnlyRequests(c: Core, c': Core) {
    && c'.worker == c.worker && c'.up == c.up && c'.completed == c.completed && c'.logs == c.logs
    && |c'.db.queue| == |c.db.queue|
    && forall i :: 0 <= i < |c.db.queue| ==> c'.db.queue[i].hb == c.db.queue[i].hb
  }

  lemma RequestRuns(cfg: Config, c: Core, r: Request)
    requires NoLockHeld(c)
    ensures Step(cfg, c, Manage(r)).db == Served(c.db, r) && OnlyRequests(c, Step(cfg, c, Manage(r)))
  {
    forall i | 0 <= i < |c.db.queue|
      ensures |Served(c.db, r).queue| == |c.db.queue| && Served(c.db, r).queue[i].hb == c.db.queue[i].hb
    {
      ServedJob(c.db, r, i);
    }
  }

  lemma {:induction false} RequestsRun(cfg: Config, c: Core, rs: seq<Request>)
    requires NoLockHeld(c)
    ensures Run(cfg, c, Requests(rs)).db == ServedAll(c.db, rs) && OnlyRequests(c, Run(cfg, c, Requests(rs)))
    decreases |rs|
  {
    if rs != [] {
      var c1 := Step(cfg, c, Manage(rs[0]));
      assert Requests(rs)[1..] == Requests(rs[1..]);
      RequestRuns(cfg, c, rs[0]);
      RequestsRun(cfg, c1, rs[1..]);
    }
  }

  /** The tables after the guard was left, and whether it was left by an exception. */
  function GuardedTables(db: Db, id: nat, e: Circumstances): Db {
    if e.guardBreaks then db
    else if !Allowed(db, id) then
      if e.guard == Broken(false) then db else db.(queue := MarkedCancelled(db.queue, id))
    else if e.connectionLost || !e.accepts || e.sent == Broken(false) then db
    else db.(queue := MarkedSent(db.queue, id))
  }

  predicate GuardFails(db: Db, id: nat, e: Circumstances) {
    e.guardBreaks || (if Allowed(db, id) then e.connectionLost || !e.accepts || e.sent.Broken? else e.guard.Broken?)
  }

  /** The guard's part of the run, read off the tables at its start. */
  lemma GuardRuns(cfg: Config, c: Core, e: Circumstances)
    requires InPhase(c, Held)
    ensures var c', failed := AfterGuarding(cfg, c, e), GuardFails(c.db, c.worker.id, e);
            && c'.db == GuardedTables(c.db, c.worker.id, e)
            && c'.up && c'.worker == (if failed then c.worker.(phase := Failed) else Idle)
            && c'.completed == c.completed + (if failed then 0 else 1)
  {
    var c1 := Step(cfg, c, if e.guardBreaks then GuardBreaks else EnterGuard(e.guard));
    if !e.guardBreaks && Allowed(c.db, c.worker.id) {
      SendRuns(cfg, c1, e);
    } else {
      assert AfterGuarding(cfg, c, e) == c1;
    }
  }

  lemma SendRuns(cfg: Config, c: Core, e: Circumstances)
    requires InPhase(c, Delivering)
    ensures var c1 := if e.connectionLost then Step(cfg, c, ConnectionLost) else c;
            var c' := Step(cfg, Step(cfg, c1, SmtpAnswers(e.accepts)), CommitSent(e.sent));
            var failed := e.connectionLost || !e.accepts || e.sent.Broken?;
            && c'.db == (if e.connectionLost || !e.accepts || e.sent == Broken(false) then c.db
                         else c.db.(queue := MarkedSent(c.db.queue, c.worker.id)))
            && c'.up && c'.worker == (if failed then c.worker.(phase := Failed) else Idle)
            && c'.completed == c.completed + (if failed then 0 else 1)
  {
    var c1 := if e.connectionLost then Step(cfg, c, ConnectionLost) else c;
    var c2 := Step(cfg, c1, SmtpAnswers(e.accepts));
    assert c2.db == c.db && c2.up && c2.completed == c.completed;
    assert c2.worker == c.worker.(phase := if e.accepts && !e.connectionLost then Delivered else Failed);
  }

  function ClaimedTables(db: Db, due: Option<nat>, e: Circumstances): Db {
    if due.None? || due.value >= |db.queue| || e.claim == Broken(false) then db
    else db.(queue := Claimed(db.queue, due.value))
  }

  function PostponedTables(cfg: Config, db: Db, id: nat, attempts: nat, now: real, e: Circumstances): Db {
    if e.failure == Broken(false) then db
    else db.(queue := MarkedFailed(db.queue, id, now + Delay(cfg, attempts), attempts >= cfg.maxAttempts))
  }

  /** The claim's part of the run, and the requests after it. */
  lemma ClaimRuns(cfg: Config, c: Core, now: real, skipped: set<nat>, e: Circumstances)
    requires c.up && c.worker.Idle?
    ensures var c', due := AfterClaiming(cfg, c, now, skipped, e), FirstDue(c.db.queue, now, skipped);
            && c'.up && c'.completed == c.completed && |c'.db.queue| == |c.db.queue|
            && c'.db == ServedAll(ClaimedTables(c.db, due, e), e.beforeGuard)
            && c'.worker == (if due.None? || e.claim != Clean then Idle
                             else Busy(Held, due.value, c.db.queue[due.value].attempts, now))
            && (due.Some? ==> c'.db.queue[due.value].hb == c.db.queue[due.value].hb)
  {
    RequestsRun(cfg, Step(cfg, c, Claim(now, skipped, e.claim)), e.beforeGuard);
  }

  /** The last part of the run: requests, then mark_failed if the guard was left by an exception. */
  lemma PostponeRuns(cfg: Config, c: Core, e: Circumstances)
    requires c.up && (c.worker.Busy? ==> c.worker.phase == Failed)
    ensures var c', db1 := AfterPostponing(cfg, c, e), ServedAll(c.db, e.afterGuard);
            && c'.worker == Idle && c'.up
            && c'.db == (if c.worker.Idle? then db1
                         else PostponedTables(cfg, db1, c.worker.id, c.worker.attempts + 1, c.worker.now, e))
            && c'.completed == c.completed + (if c.worker.Busy? && e.failure == Clean then 1 else 0)
  {
    RequestsRun(cfg, c, e.afterGuard);
  }

  /** The tables after everything that follows the claim of a job. */
  function HandledTables(cfg: Config, db: Db, id: nat, attempts: nat, now: real, e: Circumstances): Db {
    var db1 := ServedAll(GuardedTables(db, id, e), e.afterGuard);
    if GuardFails(db, id, e) then PostponedTables(cfg, db1, id, attempts + 1, now, e) else db1
  }

  /** From the state the guard left: requests, and a failure if it was left by an exception. */
  lemma HandledRuns(cfg: Config, c: Core, c1: Core, e: Circumstances)
    requires c.worker.Busy? && c1.up && c1.db == GuardedTables(c.db, c.worker.id, e)
    requires c1.worker == if GuardFails(c.db, c.worker.id, e) then c.worker.(phase := Failed) else Idle
    ensures var c', w := AfterPostponing(cfg, c1, e), c.worker;
            && c'.db == HandledTables(cfg, c.db, w.id, w.attempts, w.now, e)
            && c'.worker == Idle && c'.up
            && c'.completed == c1.completed + (if GuardFails(c.db, w.id, e) && e.failure == Clean then 1 else 0)
  {
    PostponeRuns(cfg, c1, e);
  }

  /** The rest of the run with a claimed job. */
  lemma ClaimedRuns(cfg: Config, c: Core, e: Circumstances)
    requires InPhase(c, Held)
    ensures var c', w := AfterPostponing(cfg, AfterGuarding(cfg, c, e), e), c.worker;
            && c'.db == HandledTables(cfg, c.db, w.id, w.attempts, w.now, e)
            && c'.worker == Idle && c'.up
            && c'.completed == c.completed + (if GuardFails(c.db, w.id, e) && e.failure.Broken? then 0 else 1)
  {
    GuardRuns(cfg, c, e);
    HandledRuns(cfg, c, AfterGuarding(cfg, c, e), e);
  }

  /** A whole call without a job: nothing was due, or the claim's commit failed. */
  lemma EmptyCallRuns(cfg: Config, c: Core, now: real, skipped: set<nat>, e: Circumstances)
    requires c.up && c.worker.Idle? && (FirstDue(c.db.queue, now, skipped).None? || e.claim != Clean)
    ensures var c', due := Run(cfg, c, Script(now, skipped, e)), FirstDue(c.db.queue, now, skipped);
            && c'.db == ServedAll(ServedAll(ClaimedTables(c.db, due, e), e.beforeGuard), e.afterGuard)
            && c'.worker == Idle && c'.up && c'.completed == c.completed
  {
    var c1 := AfterClaiming(cfg, c, now, skipped, e);
    ScriptRuns(cfg, c, now, skipped, e);
    ClaimRuns(cfg, c, now, skipped, e);
    assert AfterGuarding(cfg, c1, e) == c1;
    PostponeRuns(cfg, c1, e);
  }

  /** A whole call with a job. */
  lemma CallRuns(cfg: Config, c: Core, now: real, skipped: set<nat>, e: Circumstances)
    requires c.up && c.worker.Idle? && FirstDue(c.db.queue, now, skipped).Some? && e.claim == Clean
    ensures var c', id := Run(cfg, c, Script(now, skipped, e)), FirstDue(c.db.queue, now, skipped).value;
            var db1 := ServedAll(c.db.(queue := Claimed(c.db.queue, id)), e.beforeGuard);
            && |db1.queue| == |c.db.queue| && db1.queue[id].hb == c.db.queue[id].hb
            && c'.db == HandledTables(cfg, db1, id, c.db.queue[id].attempts, now, e)
            && c'.worker == Idle && c'.up
            && c'.completed == c.completed + (if GuardFails(db1, id, e) && e.failure.Broken? then 0 else 1)
  {
    ScriptRuns(cfg, c, now, skipped, e);
    ClaimRuns(cfg, c, now, skipped, e);
    ClaimedRuns(cfg, AfterClaiming(cfg, c, now, skipped, e), e);
  }

  datatype Call = Call(now: real, skipped: set<nat>, around: Circumstances)

  /** The run that a sequence of calls amounts to. */
  function Scripts(calls: seq<Call>): seq<Action>
    decreases |calls|
  {
    if calls == [] then [] else Script(calls[0].now, calls[0].skipped, calls[0].around) + Scripts(calls[1..])
  }

  lemma ScriptsSplit(calls: seq<Call>, k: nat)
    requires k < |calls|
    ensures Scripts(calls[k..]) == Script(calls[k].now, calls[k].skipped, calls[k].around) + Scripts(calls[k + 1..])
  {
    assert calls[k..][1..] == calls[k + 1..];
  }

  lemma NextScript(cfg: Config, g: Core, calls: seq<Call>, k: nat)
    requires k < |calls|
    ensures Run(cfg, g, Scripts(calls[k..]))
         == Run(cfg, Run(cfg, g, Script(calls[k].now, calls[k].skipped, calls[k].around)), Scripts(calls[k + 1..]))
  {
    ScriptsSplit(calls, k);
    RunSplits(cfg, g, Script(calls[k].now, calls[k].skipped, calls[k].around), Scripts(calls[k + 1..]));
  }

  // ----- mails -----

  /** One SMTP call for a row of the queue, and whether the server took the mail. */
  datatype Mail = Mail(id: nat, hb: Heartbeat, kind: Kind, accepted: bool)

  /** The calls made for a claimed job, given the tables that its guard finds. */
  function MailsFor(db: Db, job: NotificationJob, e: Circumstances): seq<Mail> {
    if !e.guardBreaks && Allowed(db, job.id) then [Mail(job.id, job.hb, job.kind, e.accepts)] else []
  }

  /** Rows keep what they are about, and each one that became SENT has an accepted mail among the calls. */
  ghost predicate SentByMail(q: seq<Job>, q': seq<Job>, mails: seq<Mail>) {
    && |q'| == |q|
    && forall i {:trigger q'[i]} :: 0 <= i < |q| ==>
         && q'[i].hb == q[i].hb && q'[i].kind == q[i].kind
         && (q'[i].status == Sent && q[i].status != Sent ==> Mail(i, q[i].hb, q[i].kind, true) in mails)
  }

  lemma {:induction false} RequestsSendNothing(db: Db, rs: seq<Request>)
    ensures SentByMail(db.queue, ServedAll(db, rs).queue, [])
    decreases |rs|
  {
    if rs != [] {
      RequestsSendNothing(Served(db, rs[0]), rs[1..]);
    }
  }

  /** The acceptances that the protocol's history has for a job. */
  function Acceptances(c: Core, id: nat): nat {
    LogOf(c, id).acceptances
  }

  /** The mails for a job that the server took. */
  function AcceptedMails(mails: seq<Mail>, id: nat): nat {
    if mails == [] then 0
    else AcceptedMails(mails[1..], id) + (if mails[0].accepted && mails[0].id == id then 1 else 0)
  }

  lemma {:induction false} AcceptedMailsAdd(a: seq<Mail>, b: seq<Mail>, id: nat)
    ensures AcceptedMails(a + b, id) == AcceptedMails(a, id) + AcceptedMails(b, id)
  {
    if a == [] {
      assert a + b == b;
    } else {
      assert (a + b)[1..] == a[1..] + b;
      AcceptedMailsAdd(a[1..], b, id);
    }
  }

  lemma ClaimAccepts(cfg: Config, c: Core, now: real, skipped: set<nat>, e: Circumstances, id: nat)
    requires c.up && c.worker.Idle?
    ensures Acceptances(AfterClaiming(cfg, c, now, skipped, e), id) == Acceptances(c, id)
    ensures |AfterClaiming(cfg, c, now, skipped, e).logs| == |c.logs|
  {
    RequestsRun(cfg, Step(cfg, c, Claim(now, skipped, e.claim)), e.beforeGuard);
  }

  lemma SendAccepts(cfg: Config, c: Core, e: Circumstances, id: nat)
    requires InPhase(c, Delivering) && c.worker.id < |c.logs|
    ensures var c1 := if e.connectionLost then Step(cfg, c, ConnectionLost) else c;
            var c' := Step(cfg, Step(cfg, c1, SmtpAnswers(e.accepts)), CommitSent(e.sent));
            && |c'.logs| == |c.logs|
            && Acceptances(c', id) == Acceptances(c, id) + (if e.accepts && c.worker.id == id then 1 else 0)
  {
    var c1 := if e.connectionLost then Step(cfg, c, ConnectionLost) else c;
    var c2 := Step(cfg, c1, SmtpAnswers(e.accepts));
    assert Acceptances(c2, id) == Acceptances(c, id) + (if e.accepts && c.worker.id == id then 1 else 0);
    SentAccepts(cfg, c2, e.sent, id);
  }

  lemma SentAccepts(cfg: Config, c: Core, outcome: Outcome, id: nat)
    ensures Acceptances(Step(cfg, c, CommitSent(outcome)), id) == Acceptances(c, id)
    ensures |Step(cfg, c, CommitSent(outcome)).logs| == |c.logs|
  {
  }

  lemma EnteringAccepts(cfg: Config, c: Core, e: Circumstances, id: nat)
    requires InPhase(c, Held) && c.worker.id < |c.logs|
    ensures var c' := Step(cfg, c, if e.guardBreaks then GuardBreaks else EnterGuard(e.guard));
            && Acceptances(c', id) == Acceptances(c, id) && |c'.logs| == |c.logs|
            && (if !e.guardBreaks && Allowed(c.db, c.worker.id)
                then InPhase(c', Delivering) && c'.worker.id == c.worker.id
                else c'.worker.Busy? ==> c'.worker.phase == Failed)
  {
  }

  /** The history counts an acceptance exactly when an accepted mail goes out. */
  lemma GuardAccepts(cfg: Config, c: Core, e: Circumstances, id: nat)
    requires InPhase(c, Held) && c.worker.id < |c.logs|
    ensures var taken := !e.guardBreaks && Allowed(c.db, c.worker.id) && e.accepts && c.worker.id == id;
            && |AfterGuarding(cfg, c, e).logs| == |c.logs|
            && Acceptances(AfterGuarding(cfg, c, e), id) == Acceptances(c, id) + (if taken then 1 else 0)
  {
    var c1 := Step(cfg, c, if e.guardBreaks then GuardBreaks else EnterGuard(e.guard));
    EnteringAccepts(cfg, c, e, id);
    if !e.guardBreaks && Allowed(c.db, c.worker.id) {
      SendAccepts(cfg, c1, e, id);
    } else {
      assert AfterGuarding(cfg, c, e) == c1;
    }
  }

  lemma PostponeAccepts(cfg: Config, c: Core, e: Circumstances, id: nat)
    requires c.up && (c.worker.Busy? ==> c.worker.phase == Failed)
    ensures Acceptances(AfterPostponing(cfg, c, e), id) == Acceptances(c, id)
    ensures |AfterPostponing(cfg, c, e).logs| == |c.logs|
  {
    RequestsRun(cfg, c, e.afterGuard);
  }

  /** The calls that one process_once makes to the mailer: at most one, for the job it claimed. */
  function CallMails(db: Db, now: real, skipped: set<nat>, e: Circumstances): seq<Mail> {
    var due := FirstDue(db.queue, now, skipped);
    if due.None? || e.claim != Clean then []
    else
      var row := db.queue[due.value];
      MailsFor(ServedAll(ClaimedTables(db, due, e), e.beforeGuard),
               NotificationJob(due.value, row.hb, row.kind, row.attempts), e)
  }

  /** The acceptances in the history of a call's run are the mails it had accepted. */
  lemma CallAccepts(cfg: Config, c: Core, now: real, skipped: set<nat>, e: Circumstances, id: nat)
    requires c.up && c.worker.Idle? && |c.logs| == |c.db.queue|
    ensures var c' := Run(cfg, c, Script(now, skipped, e));
            && |c'.logs| == |c.logs|
            && Acceptances(c', id) == Acceptances(c, id) + AcceptedMails(CallMails(c.db, now, skipped, e), id)
  {
    var c1 := AfterClaiming(cfg, c, now, skipped, e);
    ScriptRuns(cfg, c, now, skipped, e);
    ClaimRuns(cfg, c, now, skipped, e);
    ClaimAccepts(cfg, c, now, skipped, e, id);
    if FirstDue(c.db.queue, now, skipped).Some? && e.claim == Clean {
      ClaimedAccepts(cfg, c1, e, id);
    } else {
      UnclaimedAccepts(cfg, c1, e, id);
    }
  }

  lemma UnclaimedAccepts(cfg: Config, c: Core, e: Circumstances, id: nat)
    requires c.up && c.worker.Idle?
    ensures var c' := AfterPostponing(cfg, AfterGuarding(cfg, c, e), e);
            |c'.logs| == |c.logs| && Acceptances(c', id) == Acceptances(c, id)
  {
    assert AfterGuarding(cfg, c, e) == c;
    PostponeAccepts(cfg, c, e, id);
  }

  lemma ClaimedAccepts(cfg: Config, c: Core, e: Circumstances, id: nat)
    requires InPhase(c, Held) && c.worker.id < |c.logs|
    ensures var taken := !e.guardBreaks && Allowed(c.db, c.worker.id) && e.accepts && c.worker.id == id;
            var c' := AfterPostponing(cfg, AfterGuarding(cfg, c, e), e);
            && |c'.logs| == |c.logs| && Acceptances(c', id) == Acceptances(c, id) + (if taken then 1 else 0)
  {
    GuardRuns(cfg, c, e);
    GuardAccepts(cfg, c, e, id);
    PostponeAccepts(cfg, AfterGuarding(cfg, c, e), e, id);
  }

  /** Where the run of a whole call ends, with a job or without. */
  lemma CallEnds(cfg: Config, c: Core, now: real, skipped: set<nat>, e: Circumstances)
    requires c.up && c.worker.Idle?
    ensures var c', due := Run(cfg, c, Script(now, skipped, e)), FirstDue(c.db.queue, now, skipped);
            var db1 := ServedAll(ClaimedTables(c.db, due, e), e.beforeGuard);
            && c'.worker == Idle && c'.up
            && (if due.None? || e.claim != Clean
                then c'.db == ServedAll(db1, e.afterGuard) && c'.completed == c.completed
                else
                  && c'.db == HandledTables(cfg, db1, due.value, c.db.queue[due.value].attempts, now, e)
                  && c'.completed
                     == c.completed + (if GuardFails(db1, due.value, e) && e.failure.Broken? then 0 else 1))
  {
    if FirstDue(c.db.queue, now, skipped).Some? && e.claim == Clean {
      CallRuns(cfg, c, now, skipped, e);
    } else {
      EmptyCallRuns(cfg, c, now, skipped, e);
    }
  }

  /** One call more: what was made before and what it makes account for what was SENT and accepted. */
  lemma CallMailed(cfg: Config, c: Core, g: Core, made: seq<Mail>, call: Call)
    requires g.up && g.worker.Idle? && |c.logs| == |c.db.queue| && |g.logs| == |c.logs|
    requires SentByMail(c.db.queue, g.db.queue, made)
    requires forall id: nat :: Acceptances(g, id) == Acceptances(c, id) + AcceptedMails(made, id)
    requires var g' := Run(cfg, g, Script(call.now, call.skipped, call.around));
             SentByMail(g.db.queue, g'.db.queue, CallMails(g.db, call.now, call.skipped, call.around))
    ensures var g' := Run(cfg, g, Script(call.now, call.skipped, call.around));
            var all := made + CallMails(g.db, call.now, call.skipped, call.around);
            && |g'.logs| == |c.logs| && SentByMail(c.db.queue, g'.db.queue, all)
            && forall id: nat :: Acceptances(g', id) == Acceptances(c, id) + AcceptedMails(all, id)
  {
    var mails := CallMails(g.db, call.now, call.skipped, call.around);
    var g' := Run(cfg, g, Script(call.now, call.skipped, call.around));
    forall id: nat
      ensures |g'.logs| == |c.logs| && Acceptances(g', id) == Acceptances(c, id) + AcceptedMails(made + mails, id)
    {
      CallAccepts(cfg, g, call.now, call.skipped, call.around, id);
      AcceptedMailsAdd(made, mails, id);
    }
    CallAccepts(cfg, g, call.now, call.skipped, call.around, 0);
  }

  /** The mailer keeps every call it was asked to make. */
  class SmtpMailer {
    var calls: seq<Mail>

    constructor ()
      ensures calls == []
    {
      calls := [];
    }

    method SendHeartbeat(job: NotificationJob, accepts: bool) returns (accepted: bool)
      modifies this
      ensures calls == old(calls) + [Mail(job.id, job.hb, job.kind, accepts)] && accepted == accepts
    {
      calls := calls + [Mail(job.id, job.hb, job.kind, accepts)];
      accepted := accepts;
    }
  }

  class MailNotificationWorker {
    const cfg: Config
    const repo: PostgresRepository
    const mailer: SmtpMailer

    constructor (cfg: Config, db: Database, mailer: SmtpMailer)
      ensures this.cfg == cfg && repo.db == db && this.mailer == mailer && !repo.current && fresh(repo)
    {
      this.cfg := cfg;
      this.mailer := mailer;
      repo := new PostgresRepository(db);
    }

    /** Requests served by the API while the worker holds no lock. */
    method Meanwhile(rs: seq<Request>)
      requires repo.db.Valid()
      modifies repo.db
      ensures repo.db.Valid() && repo.db.Tables() == ServedAll(old(repo.db.Tables()), rs)
      ensures SentByMail(old(repo.db.queue), repo.db.queue, [])
    {
      RequestsSendNothing(repo.db.Tables(), rs);
      var i := 0;
      while i < |rs|
        invariant 0 <= i <= |rs| && repo.db.Valid()
        invariant ServedAll(repo.db.Tables(), rs[i..]) == ServedAll(old(repo.db.Tables()), rs)
      {
        var api := new ManagementApi(repo.db);
        var _ := api.Serve(rs[i]);
        assert rs[i..][1..] == rs[i + 1..];
        i := i + 1;
      }
    }

    /** The SMTP call. It may only be made where a send is safe: inside the guard's transaction, with the device's
        advisory lock held, the device active and the job SENDING. */
    method SendHeartbeat(job: NotificationJob, accepts: bool) returns (accepted: bool)
      requires repo.current && job.hb.device in repo.held && Allowed(repo.db.Tables(), job.id)
      modifies mailer
      ensures mailer.calls == old(mailer.calls) + [Mail(job.id, job.hb, job.kind, accepts)] && accepted == accepts
    {
      accepted := mailer.SendHeartbeat(job, accepts);
    }

    /** Guard, send and mark_sent; true when the block is left by an exception. One mail goes out exactly if the
        guard finds the device enabled and not deleted and the row SENDING. */
    method Deliver(job: NotificationJob, e: Circumstances) returns (failed: bool)
      requires !repo.current && repo.db.Valid()
      requires job.id < |repo.db.queue| && repo.db.queue[job.id].hb == job.hb
      modifies repo, repo.db, mailer
      ensures !repo.current && repo.db.Valid()
      ensures repo.db.Tables() == GuardedTables(old(repo.db.Tables()), job.id, e)
      ensures failed == GuardFails(old(repo.db.Tables()), job.id, e)
      ensures mailer.calls == old(mailer.calls) + MailsFor(old(repo.db.Tables()), job, e)
      ensures var d, row := job.hb.device, old(repo.db.queue)[job.id];
              var goes := row.status == Sending && d in old(repo.db.devices)
                          && old(repo.db.devices)[d].enabled && !old(repo.db.devices)[d].deleted;
              && mailer.calls
                 == (if !e.guardBreaks && goes
                     then old(mailer.calls) + [Mail(job.id, job.hb, job.kind, e.accepts)] else old(mailer.calls))
              && (failed <==>
                    e.guardBreaks
                    || (if goes then e.connectionLost || !e.accepts || e.sent.Broken? else e.guard.Broken?))
              && (goes && !failed ==> repo.db.queue == old(repo.db.queue)[job.id := row.(status := Sent)])
              && (goes && (!e.accepts || e.connectionLost) ==> repo.db.queue == old(repo.db.queue))
      ensures old(repo.db.queue)[job.id].kind == job.kind ==>
                SentByMail(old(repo.db.queue), repo.db.queue, MailsFor(old(repo.db.Tables()), job, e))
    {
      if e.guardBreaks {
        return true;
      }
      var allowed := repo.EnterGuard(job);
      if !allowed {
        failed := repo.Commit(true, e.guard);
        return;
      }
      var accepted := SendHeartbeat(job, e.accepts);
      if e.connectionLost || !accepted {
        repo.RollBack(true);
        failed := true;
      } else {
        repo.MarkSent(job.id);
        failed := repo.Commit(true, e.sent);
      }
    }

    /** mark_failed with the attempt's backoff. */
    method Postpone(job: NotificationJob, now: real, commit: Outcome) returns (raised: bool)
      requires !repo.current && repo.db.Valid()
      modifies repo, repo.db
      ensures !repo.current && repo.db.Valid() && raised == commit.Broken?
      ensures var attempts := job.attempts + 1;
              repo.db.Tables()
              == if commit == Broken(false) then old(repo.db.Tables())
                 else old(repo.db.Tables()).(queue :=
                   MarkedFailed(old(repo.db.queue), job.id, now + Delay(cfg, attempts), attempts >= cfg.maxAttempts))
      ensures SentByMail(old(repo.db.queue), repo.db.queue, [])
      ensures var q := old(repo.db.queue);
              job.id < |q| && q[job.id].status == Sending && commit != Broken(false) ==>
                repo.db.queue
                == q[job.id := q[job.id].(status := if job.attempts + 1 < cfg.maxAttempts then Retry else Dead,
                                          attempts := q[job.id].attempts + 1,
                                          nextAt := now + RetryDelay(cfg, job.attempts))]
    {
      var attempts := job.attempts + 1;
      var dead := attempts >= cfg.maxAttempts;
      var delay := cfg.retryInitial * PowerOfTwo(attempts - 1);
      if delay > cfg.retryMax {
        delay := cfg.retryMax;
      }
      assert attempts - 1 == job.attempts && delay == RetryDelay(cfg, job.attempts);
      DelayIsRetryDelay(cfg, job.attempts);
      raised := repo.MarkFailed(job.id, now + delay, dead, commit);
    }

    /** Everything after the claim, for a job that was claimed. */
    method Handle(job: NotificationJob, now: real, e: Circumstances) returns (raised: bool)
      requires !repo.current && repo.db.Valid()
      requires job.id < |repo.db.queue| && repo.db.queue[job.id].hb == job.hb
      modifies repo, repo.db, mailer
      ensures !repo.current && repo.db.Valid()
      ensures repo.db.Tables() == HandledTables(cfg, old(repo.db.Tables()), job.id, job.attempts, now, e)
      ensures raised == (GuardFails(old(repo.db.Tables()), job.id, e) && e.failure.Broken?)
      ensures mailer.calls == old(mailer.calls) + MailsFor(old(repo.db.Tables()), job, e)
      ensures old(repo.db.queue)[job.id].kind == job.kind ==>
                SentByMail(old(repo.db.queue), repo.db.queue, MailsFor(old(repo.db.Tables()), job, e))
    {
      var failed := Deliver(job, e);
      Meanwhile(e.afterGuard);
      raised := false;
      if failed {
        raised := Postpone(job, now, e.failure);
      }
    }

    /** Whatever the circumstances, a call leaves the tables as its run of the protocol does, from any state
        of the protocol with these tables; it returns True exactly when that run completes a call. It makes one
        mail exactly if it claims a job and the guard finds its device enabled and not deleted and its row SENDING,
        and a job is SENT by the call only with an accepted mail of its own. */
    method ProcessOnce(now: real, skipped: set<nat>, e: Circumstances, ghost c: Core) returns (result: Result)
      requires !repo.current && repo.db.Valid() && c.db == repo.db.Tables() && c.up && c.worker.Idle?
      modifies repo, repo.db, mailer
      ensures !repo.current && repo.db.Valid()
      ensures var c' := Run(cfg, c, Script(now, skipped, e));
              && repo.db.Tables() == c'.db
              && c'.worker == Idle && c'.up
              && c'.completed == c.completed + (if result == Processed then 1 else 0)
      ensures result == NothingDue <==> FirstDue(old(repo.db.queue), now, skipped).None?
      ensures mailer.calls == old(mailer.calls) + CallMails(old(repo.db.Tables()), now, skipped, e)
      ensures var due := FirstDue(old(repo.db.queue), now, skipped);
              if due.None? || e.claim != Clean then mailer.calls == old(mailer.calls)
              else
                var id, row := due.value, old(repo.db.queue)[due.value];
                var found := ServedAll(old(repo.db.Tables()).(queue :=
                               old(repo.db.queue)[id := row.(status := Sending)]), e.beforeGuard);
                && |found.queue| == |old(repo.db.queue)|
                && mailer.calls
                   == if !e.guardBreaks && found.queue[id].status == Sending && row.hb.device in found.devices
                         && found.devices[row.hb.device].enabled && !found.devices[row.hb.device].deleted
                      then old(mailer.calls) + [Mail(id, row.hb, row.kind, e.accepts)] else old(mailer.calls)
      ensures SentByMail(old(repo.db.queue), repo.db.queue, CallMails(old(repo.db.Tables()), now, skipped, e))
    {
      CallEnds(cfg, c, now, skipped, e);
      var job, raised := repo.ClaimNext(now, skipped, e.claim);
      Meanwhile(e.beforeGuard);
      if job.None? {
        Meanwhile(e.afterGuard);
        return if raised then Raised else NothingDue;
      }
      raised := Handle(job.value, now, e);
      result := if raised then Raised else Processed;
    }

    /** The first k calls are done, and the rest of the run leads from where they led. */
    ghost predicate Underway(calls: seq<Call>, k: nat, c: Core, g: Core, processed: nat)
      reads repo, repo.db
    {
      && k <= |calls| && !repo.current && repo.db.Valid()
      && g.db == repo.db.Tables() && g.up && g.worker == Idle
      && processed == g.completed - c.completed
      && Run(cfg, g, Scripts(calls[k..])) == Run(cfg, c, Scripts(calls))
    }

    /** The mails made since: every job that became SENT has one, and the history counts the accepted ones. */
    ghost predicate Mailed(before: seq<Mail>, c: Core, g: Core)
      reads mailer
    {
      && before <= mailer.calls && |g.logs| == |c.logs|
      && SentByMail(c.db.queue, g.db.queue, mailer.calls[|before|..])
      && forall id: nat :: Acceptances(g, id) == Acceptances(c, id) + AcceptedMails(mailer.calls[|before|..], id)
    }

    /** One more call: an exception counts as nothing processed. */
    method CallOn(calls: seq<Call>, k: nat, processed: nat, ghost before: seq<Mail>, ghost c: Core, ghost g: Core)
      returns (processed': nat, ghost g': Core)
      requires k < |calls| && Underway(calls, k, c, g, processed)
      requires |c.logs| == |c.db.queue| && Mailed(before, c, g)
      modifies repo, repo.db, mailer
      ensures Underway(calls, k + 1, c, g', processed') && Mailed(before, c, g')
    {
      NextScript(cfg, g, calls, k);
      ghost var made := mailer.calls[|before|..];
      var result := ProcessOnce(calls[k].now, calls[k].skipped, calls[k].around, g);
      g' := Run(cfg, g, Script(calls[k].now, calls[k].skipped, calls[k].around));
      processed' := if result == Processed then processed + 1 else processed;
      CallMailed(cfg, c, g, made, calls[k]);
      assert mailer.calls[|before|..] == made + CallMails(g.db, calls[k].now, calls[k].skipped, calls[k].around);
    }

    /** The worker's loop, until it is told to stop. A job is SENT by the loop only with an accepted mail of its own,
        and the history has exactly the acceptances of the mails made. */
    method RunLoop(calls: seq<Call>, ghost c: Core) returns (processed: nat)
      requires !repo.current && repo.db.Valid() && c.db == repo.db.Tables() && c.up && c.worker.Idle?
      requires |c.logs| == |c.db.queue|
      modifies repo, repo.db, mailer
      ensures !repo.current && repo.db.Valid()
      ensures var c' := Run(cfg, c, Scripts(calls));
              && repo.db.Tables() == c'.db && c'.worker == Idle && processed == c'.completed - c.completed
              && Mailed(old(mailer.calls), c, c')
    {
      processed := 0;
      var k := 0;
      ghost var g, before := c, mailer.calls;
      assert calls[0..] == calls;
      assert mailer.calls[|before|..] == [];
      while k < |calls|
        invariant 0 <= k <= |calls| && Underway(calls, k, c, g, processed) && Mailed(before, c, g)
      {
        processed, g := CallOn(calls, k, processed, before, c, g);
        k := k + 1;
      }
    }
  }
}
