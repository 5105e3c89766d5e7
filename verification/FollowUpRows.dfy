/** What a dispatch and a drain make of the stored rows, told row by row, and what a drain
    settles for the runs after it. */
module FollowUpRows {
  import opened Wrappers
  import opened FollowUp
  import opened FollowUpTheorems
  import opened FollowUpCounts

  // ----------------------------------------------------------------- dispatch

  /** The lead has answered since the job was due. */
  predicate AnsweredSince(db: Db, job: Job) {
    db.lastLead.Some? && db.lastLead.value > job.at
  }

  /** The step of the sequence exists, an index below zero counting from its end. */
  predicate HasStep(steps: int, attempt: int) {
    1 - steps <= attempt <= steps
  }

  /** A job is sent if and only if it is pending, unanswered, for a live flow with follow-ups on,
      and has a step; otherwise the verdict names the first of these that fails. */
  lemma VerdictExactly(cfg: Option<Config>, db: Db, j: nat)
    requires j < |db.jobs|
    ensures var job, live := db.jobs[j], db.flow == Live && IsOn(cfg) && !AnsweredSince(db, db.jobs[j]);
            && (Judge(cfg, db, j).NotPending? <==> job.status != Pending)
            && (Judge(cfg, db, j).Withdraw? <==> job.status == Pending && !live)
            && (Judge(cfg, db, j).OutOfRange? <==> job.status == Pending && live && !HasStep(cfg.value.steps, job.attempt))
            && (Judge(cfg, db, j).Send? <==> job.status == Pending && live && HasStep(cfg.value.steps, job.attempt))
  {
  }

  /** The status a dispatch of job `j` leaves job `k` with. */
  function StatusAfter(verdict: Verdict, error: Option<SendError>, j: nat, k: nat, status: JobStatus): JobStatus {
    match verdict
    case NotPending => status
    case Withdraw => if k == j then Cancelled else status
    case OutOfRange => if k == j then Failed else status
    case Send =>
      if k == j then if error.None? then Completed else Failed
      else if error == Some(Unreachable) && status.Pending? then Cancelled
      else status
  }

  /** A dispatch keeps every job but for its status, adds the chain's next attempt when a template
      went out before the last one, and makes the flow cold when it was the last one. */
  lemma DispatchRows(cfg: Option<Config>, db: Db, j: nat, error: Option<SendError>, nextAt: int)
    requires j < |db.jobs|
    ensures var after, verdict, job := Fired(cfg, db, j, error, nextAt), Judge(cfg, db, j), db.jobs[j];
            var sent := verdict.Send? && error.None?;
            && |after.jobs| == |db.jobs| + (if sent && job.attempt < cfg.value.max then 1 else 0)
            && (forall k | 0 <= k < |db.jobs| ::
                  after.jobs[k] == db.jobs[k].(status := StatusAfter(verdict, error, j, k, db.jobs[k].status)))
            && (sent && job.attempt < cfg.value.max ==>
                  after.jobs[|db.jobs|] == Job(job.attempt + 1, nextAt, job.chain, Pending))
            && (after.flow == if sent && job.attempt >= cfg.value.max then Cold else db.flow)
            && after.lastLead == db.lastLead
  {
    hide OffTheEnd;
  }

  // -------------------------------------------------------------------- drain

  /** One of the messages the drain went through ended the conversation. */
  predicate Ends(results: seq<ReplyResult>) {
    exists k :: 0 <= k < |results| && k <= Replies(results) && results[k].finished
  }

  /** The jobs the answered messages schedule: the first attempt of a chain each. */
  function Scheduled(cfg: Option<Config>, results: seq<ReplyResult>, chain: nat): (jobs: seq<Job>)
    decreases |results|
  {
    if !Schedules(cfg) || results == [] || results[0].NotAnswered? then []
    else [Job(1, results[0].nextAt, chain, Pending)] + Scheduled(cfg, results[1..], chain + 1)
  }

  /** When message `k` came, if it was answered. */
  function Received(results: seq<ReplyResult>, k: int): Option<int> {
    if 0 <= k < |results| && results[k].Answered? then Some(results[k].received) else None
  }

  lemma {:induction false} RepliesAreAnswered(results: seq<ReplyResult>)
    ensures Replies(results) <= |results| && forall k | 0 <= k < Replies(results) :: results[k].Answered?
    ensures Replies(results) < |results| ==> results[Replies(results)].NotAnswered?
  {
    if results != [] && results[0].Answered? {
      RepliesAreAnswered(results[1..]);
      assert forall k | 0 < k < |results| :: results[k] == results[1..][k - 1];
    }
  }

  lemma EndsCons(results: seq<ReplyResult>)
    requires results != [] && results[0].Answered?
    ensures Ends(results) <==> results[0].finished || Ends(results[1..])
  {
    if Ends(results[1..]) {
      var k :| 0 <= k < |results[1..]| && k <= Replies(results[1..]) && results[1..][k].finished;
      assert results[k + 1].finished;
    }
    if Ends(results) && !results[0].finished {
      var k :| 0 <= k < |results| && k <= Replies(results) && results[k].finished;
      assert results[1..][k - 1].finished;
    }
  }

  lemma {:induction false} AnswersRows(cfg: Option<Config>, db: Db, results: seq<ReplyResult>, chain: nat)
    ensures var after := Answers(cfg, db, results, chain);
            && after.jobs == db.jobs + Scheduled(cfg, results, chain)
            && after.lastLead == (if Replies(results) > 0 then Received(results, Replies(results) - 1) else db.lastLead)
            && after.flow == if Ends(results) then Done else db.flow
    decreases |results|
  {
    if results == [] {
      assert db.jobs + [] == db.jobs;
    } else if results[0].NotAnswered? {
      assert db.jobs + [] == db.jobs;
      assert Ends(results) <==> results[0].finished;
    } else {
      var r := results[0];
      AnswersRows(cfg, Replied(cfg, db, r.received, r.nextAt, chain, r.finished), results[1..],
                  if Schedules(cfg) then chain + 1 else chain);
      EndsCons(results);
      RepliesAreAnswered(results[1..]);
      assert forall k | 0 < k < |results| :: results[k] == results[1..][k - 1];
    }
  }

  /** A drain that found messages withdraws every pending job, schedules one first attempt for each
      message it answered, remembers when the last of them came, and leaves the flow done if it was
      done or one of the replies finished it, else live. */
  lemma DrainRows(cfg: Option<Config>, db: Db, results: seq<ReplyResult>, chain: nat)
    ensures var after, n := Answers(cfg, Begin(db), results, chain), Replies(results);
            && |after.jobs| == |db.jobs| + (if Schedules(cfg) then n else 0)
            && (forall k | 0 <= k < |db.jobs| ::
                  after.jobs[k] == db.jobs[k].(status := if db.jobs[k].status.Pending? then Cancelled else db.jobs[k].status))
            && (forall k | 0 <= k < n && Schedules(cfg) :: k < |results| && results[k].Answered?
                  && after.jobs[|db.jobs| + k] == Job(1, results[k].nextAt, chain + k, Pending))
            && (after.lastLead == if n > 0 then Received(results, n - 1) else db.lastLead)
            && (after.flow == if db.flow.Done? || Ends(results) then Done else Live)
  {
    AnswersRows(cfg, Begin(db), results, chain);
    RepliesAreAnswered(results);
    ScheduledCount(cfg, results, chain);
    forall k | 0 <= k < Replies(results) && Schedules(cfg)
      ensures Answers(cfg, Begin(db), results, chain).jobs[|db.jobs| + k] == Job(1, results[k].nextAt, chain + k, Pending)
    {
      ScheduledJob(cfg, results, chain, k);
    }
  }

  lemma {:induction false} ScheduledCount(cfg: Option<Config>, results: seq<ReplyResult>, chain: nat)
    ensures |Scheduled(cfg, results, chain)| == if Schedules(cfg) then Replies(results) else 0
    decreases |results|
  {
    if Schedules(cfg) && results != [] && results[0].Answered? {
      ScheduledCount(cfg, results[1..], chain + 1);
    }
  }

  lemma {:induction false} ScheduledJob(cfg: Option<Config>, results: seq<ReplyResult>, chain: nat, k: nat)
    requires Schedules(cfg) && k < Replies(results) <= |results| && k < |Scheduled(cfg, results, chain)|
    requires results[k].Answered?
    ensures Scheduled(cfg, results, chain)[k] == Job(1, results[k].nextAt, chain + k, Pending)
    decreases k
  {
    if k > 0 {
      assert results[1..][k - 1] == results[k];
      ScheduledJob(cfg, results[1..], chain + 1, k - 1);
    }
  }

  // ------------------------------------------------------------- the protocol

  /** The command-line cancel withdraws the pending jobs and nothing else; the steps by which locks
      are taken and given up, and a crash, write no row. */
  lemma OtherStepsKeepRows(cfg: Option<Config>, w: World, s: Step)
    requires Enabled(w, s) && !s.action.ScanFire? && !s.action.ScanCommit? && !s.action.DrainMessage?
    ensures var db := Do(cfg, w, s).db;
            && db.flow == w.db.flow && db.lastLead == w.db.lastLead && |db.jobs| == |w.db.jobs|
            && forall k | 0 <= k < |db.jobs| :: db.jobs[k] == w.db.jobs[k].(status :=
                  if s.action.CliCancel? && w.db.jobs[k].status.Pending? then Cancelled else w.db.jobs[k].status)
  {
  }

  /** The jobs of its batch a scanner has still to look at. */
  function ToFire(w: World, a: Actor): seq<nat> {
    if a !in w.actors then [] else
      match w.actors[a]
      case Scanning(left) => left
      case ScanLocked(j, left) => [j] + left
      case ScanSent(j, left) => [j] + left
      case Draining(_) => []
  }

  /** A scanner takes the jobs of its batch one by one, in order. It passes over a job only when
      somebody holds the lead's lock; with the lock it is done with the job once it withdrew it,
      failed, gave up, or committed its send. */
  lemma ScannerTakesEachInTurn(cfg: Option<Config>, w: World, s: Step)
    requires Enabled(w, s) && !s.action.DrainMessage? && !s.action.DrainEnd? && !s.action.Crash?
    ensures var after, a := Do(cfg, w, s), s.actor;
            match s.action
            case ScanRead(batch) => ToFire(after, a) == batch
            case ScanTryLock =>
              if w.lock.None? then after.actors[a].ScanLocked? && after.lock == Some(a) && ToFire(after, a) == ToFire(w, a)
              else after == w.(actors := after.actors) && ToFire(after, a) == ToFire(w, a)[1..]
            case ScanFire(error) =>
              if Judge(cfg, w.db, w.actors[a].job).Send? && error.None? then after.actors[a].ScanSent? && ToFire(after, a) == ToFire(w, a)
              else after.lock.None? && ToFire(after, a) == ToFire(w, a)[1..]
            case ScanCommit(_) => after.lock.None? && ToFire(after, a) == ToFire(w, a)[1..]
            case ScanGiveUp => after.lock.None? && after.db == w.db && ToFire(after, a) == ToFire(w, a)[1..]
            case _ => ToFire(after, a) == ToFire(w, a)
    ensures forall b | b != s.actor :: ToFire(Do(cfg, w, s), b) == ToFire(w, b)
  {
    hide Delivered, Undelivered, CancelPending, Judge;
  }

  // -------------------------------------------------------- flows that are not live

  predicate IsReply(s: Step) {
    s.action.DrainMessage?
  }

  /** A finished flow, or a cold one the lead does not wake, is sent nothing and stays as it is. */
  lemma StepKeepsQuiet(cfg: Option<Config>, w: World, s: Step)
    requires Pinned(cfg) && Inv(cfg, w) && Enabled(w, s) && !w.db.flow.Live? && (w.db.flow.Done? || !IsReply(s))
    ensures var after := Do(cfg, w, s);
            && after.db.flow == w.db.flow && w.log <= after.log
            && forall k | |w.log| <= k < |after.log| :: !after.log[k].Sent?
  {
    hide Attempts, GoodLog, Upto, OnePerChain, JobOk, ChainOk;
    assert InFlight(w).None?;
    if s.action.ScanCommit? || s.action.ScanFire? {
      HolderAlone(w, s.actor);
    }
  }

  lemma {:induction false} RunKeepsQuiet(cfg: Option<Config>, w: World, steps: seq<Step>)
    requires Pinned(cfg) && Inv(cfg, w) && Run(cfg, w, steps).Some?
    requires !w.db.flow.Live? && (w.db.flow.Done? || forall s | s in steps :: !IsReply(s))
    ensures var end := Run(cfg, w, steps).value;
            && end.db.flow == w.db.flow && w.log <= end.log
            && forall k | |w.log| <= k < |end.log| :: !end.log[k].Sent?
    decreases |steps|
  {
    hide Inv, Do;
    if steps != [] {
      StepKeepsQuiet(cfg, w, steps[0]);
      StepKeepsInv(cfg, w, steps[0]);
      RunKeepsQuiet(cfg, Do(cfg, w, steps[0]), steps[1..]);
    }
  }

  /** Once a reply finished the conversation, no template is sent any more, whatever happens. */
  lemma FinishedIsFinal(cfg: Option<Config>, w: World, a: Actor, result: ReplyResult, rest: seq<Step>, k: nat)
    requires Pinned(cfg) && Reachable(cfg, w) && Enabled(w, Step(a, DrainMessage(result))) && result.finished
    requires Run(cfg, Do(cfg, w, Step(a, DrainMessage(result))), rest).Some?
    ensures var end := Run(cfg, Do(cfg, w, Step(a, DrainMessage(result))), rest).value;
            |w.log| <= k < |end.log| ==> !end.log[k].Sent?
  {
    var s := Step(a, DrainMessage(result));
    ReachableIsGood(cfg, w);
    StepKeepsInv(cfg, w, s);
    assert Do(cfg, w, s).db.flow.Done?;
    RunKeepsQuiet(cfg, Do(cfg, w, s), rest);
  }

  /** Once the last template of a sequence is out and committed, none follows before a reply. */
  lemma LastAttemptIsFinal(cfg: Option<Config>, w: World, a: Actor, nextAt: int, rest: seq<Step>, k: nat)
    requires Pinned(cfg) && Reachable(cfg, w) && Enabled(w, Step(a, ScanCommit(nextAt))) && IsOn(cfg)
    requires w.db.jobs[w.actors[a].job].attempt >= cfg.value.max
    requires Run(cfg, Do(cfg, w, Step(a, ScanCommit(nextAt))), rest).Some? && forall s | s in rest :: !IsReply(s)
    ensures var end := Run(cfg, Do(cfg, w, Step(a, ScanCommit(nextAt))), rest).value;
            |w.log| <= k < |end.log| ==> !end.log[k].Sent?
  {
    var s := Step(a, ScanCommit(nextAt));
    ReachableIsGood(cfg, w);
    StepKeepsInv(cfg, w, s);
    assert Do(cfg, w, s).db.flow.Cold?;
    RunKeepsQuiet(cfg, Do(cfg, w, s), rest);
  }

  // ------------------------------------------------------- what the lead said last

  predicate Answering(s: Step) {
    s.action.DrainMessage? && s.action.result.Answered?
  }

  lemma {:induction false} RunRemembers(cfg: Option<Config>, w: World, steps: seq<Step>)
    requires Run(cfg, w, steps).Some? && forall s | s in steps :: !Answering(s)
    ensures Run(cfg, w, steps).value.db.lastLead == w.db.lastLead
    decreases |steps|
  {
    if steps != [] {
      assert !Answering(steps[0]);
      assert Do(cfg, w, steps[0]).db.lastLead == w.db.lastLead;
      RunRemembers(cfg, Do(cfg, w, steps[0]), steps[1..]);
    }
  }

  /** After an answered message, and until the next one, no template goes out for a job that was
      due before the message came. */
  lemma SentAfterTheAnswer(cfg: Option<Config>, w: World, a: Actor, result: ReplyResult, rest: seq<Step>, s: Step, j: nat,
                           chain: nat, attempt: int)
    requires Pinned(cfg) && Reachable(cfg, w) && Enabled(w, Step(a, DrainMessage(result))) && result.Answered?
    requires Run(cfg, Do(cfg, w, Step(a, DrainMessage(result))), rest).Some? && forall r | r in rest :: !Answering(r)
    requires var v := Run(cfg, Do(cfg, w, Step(a, DrainMessage(result))), rest).value;
             Enabled(v, s) && Do(cfg, v, s).log == v.log + [Sent(j, chain, attempt)]
    ensures var v := Run(cfg, Do(cfg, w, Step(a, DrainMessage(result))), rest).value;
            j < |v.db.jobs| && v.db.jobs[j].at >= result.received
  {
    var m := Step(a, DrainMessage(result));
    var after := Do(cfg, w, m);
    var v := Run(cfg, after, rest).value;
    RunRemembers(cfg, after, rest);
    var before :| Run(cfg, START, before) == Some(w);
    RunSnoc(cfg, START, before, m);
    RunConcat(cfg, START, before + [m], rest);
    assert Reachable(cfg, v);
    SentJobIsDue(cfg, v, s, j, chain, attempt);
    assert after.db.lastLead == Some(result.received);
  }

  lemma {:induction false} RunConcat(cfg: Option<Config>, w: World, a: seq<Step>, b: seq<Step>)
    requires Run(cfg, w, a).Some?
    ensures Run(cfg, w, a + b) == Run(cfg, Run(cfg, w, a).value, b)
    decreases |a|
  {
    hide Enabled, Do;
    if a == [] {
      assert a + b == b;
    } else {
      assert (a + b)[1..] == a[1..] + b;
      RunConcat(cfg, Do(cfg, w, a[0]), a[1..], b);
    }
  }
}
