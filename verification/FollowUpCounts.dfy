/** Counting over runs of the follow-up protocol: how often a job is sent, how many sends the
    replies allow, and how many jobs are pending. */
module FollowUpCounts {
  import opened Wrappers
  import opened FollowUp
  import opened FollowUpTheorems

  // ------------------------------------------------------- the sends of one job

  function SendsOf(log: seq<Event>, j: nat): nat {
    if log == [] then 0
    else
      var e := log[|log| - 1];
      SendsOf(log[..|log| - 1], j) + if e.Sent? && e.job == j then 1 else 0
  }

  lemma SendsOfSnoc(log: seq<Event>, e: Event, j: nat)
    ensures SendsOf(log + [e], j) == SendsOf(log, j) + if e.Sent? && e.job == j then 1 else 0
  {
    assert (log + [e])[..|log|] == log;
  }

  function Flying(w: World, j: nat): nat {
    if InFlight(w) == Some(j) then 1 else 0
  }

  predicate AtSent(w: World, a: Actor, j: nat) {
    a in w.actors && w.actors[a].ScanSent? && w.actors[a].job == j
  }

  function Crashes(w: World, s: Step, j: nat): nat {
    if s.action.Crash? && AtSent(w, s.actor, j) then 1 else 0
  }

  function Commits(w: World, s: Step, j: nat): nat {
    if s.action.ScanCommit? && AtSent(w, s.actor, j) then 1 else 0
  }

  function CrashesIn(cfg: Option<Config>, w: World, steps: seq<Step>, j: nat): nat
    requires Run(cfg, w, steps).Some?
    decreases |steps|
  {
    if steps == [] then 0 else Crashes(w, steps[0], j) + CrashesIn(cfg, Do(cfg, w, steps[0]), steps[1..], j)
  }

  function CommitsIn(cfg: Option<Config>, w: World, steps: seq<Step>, j: nat): nat
    requires Run(cfg, w, steps).Some?
    decreases |steps|
  {
    if steps == [] then 0 else Commits(w, steps[0], j) + CommitsIn(cfg, Do(cfg, w, steps[0]), steps[1..], j)
  }

  /** Neither pending nor in flight: such a job is done with for good. */
  predicate Settled(w: World, j: nat) {
    j < |w.db.jobs| && !w.db.jobs[j].status.Pending? && InFlight(w) != Some(j)
  }

  lemma ScanAccounts(cfg: Option<Config>, w: World, s: Step, j: nat)
    requires LockInv(w) && Enabled(w, s)
    requires s.action.ScanTryLock? || s.action.ScanFire? || s.action.ScanCommit? || s.action.ScanGiveUp?
    ensures var after := Do(cfg, w, s);
            && SendsOf(after.log, j) + Flying(w, j) == SendsOf(w.log, j) + Flying(after, j) + Crashes(w, s, j) + Commits(w, s, j)
            && (Settled(w, j) ==> Settled(after, j))
            && (Commits(w, s, j) == 1 && cfg.Some? && j < |w.db.jobs| ==> Settled(after, j))
  {
    var a, after := s.actor, Do(cfg, w, s);
    if s.action.ScanTryLock? {
      assert InFlight(after) == InFlight(w);
      return;
    }
    HolderAlone(w, a);
    if s.action.ScanFire? {
      var k := w.actors[a].job;
      SendsOfSnoc(w.log, Sent(k, w.db.jobs[k].chain, w.db.jobs[k].attempt), j);
    }
    hide SendsOf, LockInv;
    assert after.actors[a].Scanning? ==> InFlight(after).None?;
  }

  /** Every send of a job is in flight until it ends in a commit or a crash. */
  lemma StepAccounts(cfg: Option<Config>, w: World, s: Step, j: nat)
    requires LockInv(w) && Enabled(w, s)
    ensures var after := Do(cfg, w, s);
            && SendsOf(after.log, j) + Flying(w, j) == SendsOf(w.log, j) + Flying(after, j) + Crashes(w, s, j) + Commits(w, s, j)
            && (Settled(w, j) ==> Settled(after, j))
            && (Commits(w, s, j) == 1 && cfg.Some? && j < |w.db.jobs| ==> Settled(after, j))
  {
    var after := Do(cfg, w, s);
    match s.action
    case DrainMessage(result) =>
      HolderAlone(w, s.actor);
      SendsOfSnoc(w.log, DrainCancelled(PendingJobs(w.db)), j);
      hide SendsOf, LockInv, PendingJobs;
      assert InFlight(after).None?;
    case ScanRead(_) => assert InFlight(after) == InFlight(w);
    case DrainTryLock => assert InFlight(after) == InFlight(w);
    case CliCancel => assert InFlight(after) == InFlight(w);
    case DrainEnd =>
      HolderAlone(w, s.actor);
      assert InFlight(after).None?;
    case Crash =>
      HolderAlone(w, s.actor);
      assert InFlight(after).None?;
    case ScanTryLock => ScanAccounts(cfg, w, s, j);
    case ScanFire(_) => ScanAccounts(cfg, w, s, j);
    case ScanCommit(_) => ScanAccounts(cfg, w, s, j);
    case ScanGiveUp => ScanAccounts(cfg, w, s, j);
  }

  lemma {:induction false} RunAccounts(cfg: Option<Config>, w: World, steps: seq<Step>, j: nat)
    requires Pinned(cfg) && Inv(cfg, w) && Run(cfg, w, steps).Some?
    ensures var end := Run(cfg, w, steps).value;
            && SendsOf(end.log, j) + Flying(w, j)
               == SendsOf(w.log, j) + Flying(end, j) + CrashesIn(cfg, w, steps, j) + CommitsIn(cfg, w, steps, j)
            && CommitsIn(cfg, w, steps, j) + Flying(end, j) <= 1
            && (Settled(w, j) ==> Settled(end, j) && CommitsIn(cfg, w, steps, j) == CrashesIn(cfg, w, steps, j) == 0)
    decreases |steps|
  {
    hide Inv, Do, Enabled, SendsOf;
    if steps != [] {
      var after := Do(cfg, w, steps[0]);
      StepAccountsInv(cfg, w, steps[0], j);
      RunAccounts(cfg, after, steps[1..], j);
    }
  }

  lemma StepAccountsInv(cfg: Option<Config>, w: World, s: Step, j: nat)
    requires Pinned(cfg) && Inv(cfg, w) && Enabled(w, s)
    ensures Inv(cfg, Do(cfg, w, s))
    ensures var after := Do(cfg, w, s);
            && SendsOf(after.log, j) + Flying(w, j) == SendsOf(w.log, j) + Flying(after, j) + Crashes(w, s, j) + Commits(w, s, j)
            && (Settled(w, j) ==> Settled(after, j) && Commits(w, s, j) == Crashes(w, s, j) == 0)
            && (Commits(w, s, j) == 1 ==> Settled(after, j))
  {
    StepKeepsInv(cfg, w, s);
    StepAccounts(cfg, w, s, j);
    if AtSent(w, s.actor, j) {
      HolderAlone(w, s.actor);
    }
  }

  /** Over any run from the start, each send of a job has ended in its one commit, in a crash
      with the job in flight, or is still in flight. */
  lemma SendsAreAccounted(cfg: Option<Config>, steps: seq<Step>, j: nat)
    requires Pinned(cfg) && Run(cfg, START, steps).Some?
    ensures var end := Run(cfg, START, steps).value;
            && SendsOf(end.log, j) == CrashesIn(cfg, START, steps, j) + CommitsIn(cfg, START, steps, j) + Flying(end, j)
            && CommitsIn(cfg, START, steps, j) + Flying(end, j) <= 1
  {
    StartIsGood(cfg);
    RunAccounts(cfg, START, steps, j);
  }

  lemma StartIsGood(cfg: Option<Config>)
    ensures Inv(cfg, START)
  {
  }

  /** So a job is sent at most once more than it crashed, and a second send needs a crash. */
  lemma SentOnce(cfg: Option<Config>, steps: seq<Step>, j: nat)
    requires Pinned(cfg) && Run(cfg, START, steps).Some?
    ensures SendsOf(Run(cfg, START, steps).value.log, j) <= 1 + CrashesIn(cfg, START, steps, j)
  {
    SendsAreAccounted(cfg, steps, j);
  }

  ghost predicate SentAgain(cfg: Option<Config>, w: World, rest: seq<Step>, j: nat) {
    Run(cfg, w, rest).Some? && SendsOf(Run(cfg, w, rest).value.log, j) > SendsOf(w.log, j)
  }

  lemma SettledIsNeverSent(cfg: Option<Config>, w: World, rest: seq<Step>, j: nat)
    requires Pinned(cfg) && Inv(cfg, w) && Settled(w, j)
    ensures !SentAgain(cfg, w, rest, j)
  {
    if Run(cfg, w, rest).Some? {
      RunAccounts(cfg, w, rest, j);
    }
  }

  /** A crash between a send and its commit has the same job sent again in some continuation
      exactly when no command-line cancel came in between: when the job is still pending. */
  lemma CrashResendsExactly(cfg: Option<Config>, w: World, a: Actor, j: nat)
    requires Pinned(cfg) && Reachable(cfg, w) && AtSent(w, a, j)
    ensures j < |w.db.jobs|
    ensures (exists rest :: SentAgain(cfg, Do(cfg, w, Step(a, Crash)), rest, j)) <==> w.db.jobs[j].status.Pending?
  {
    ReachableIsGood(cfg, w);
    HolderAlone(w, a);
    assert Enabled(w, Step(a, Crash));
    var after := Do(cfg, w, Step(a, Crash));
    StepKeepsInv(cfg, w, Step(a, Crash));
    if w.db.jobs[j].status.Pending? {
      assert JobOk(cfg, DataOf(w), j);
      hide Inv;
      SendsNext(cfg, after, a, j);
    } else {
      forall rest ensures !SentAgain(cfg, after, rest, j) {
        SettledIsNeverSent(cfg, after, rest, j);
      }
    }
  }

  lemma SendsNext(cfg: Option<Config>, w: World, a: Actor, j: nat)
    requires w.lock.None? && a !in w.actors && j < |w.db.jobs| && Judge(cfg, w.db, j).Send?
    ensures exists rest :: SentAgain(cfg, w, rest, j)
  {
    var r, t, f := Step(a, ScanRead([j])), Step(a, ScanTryLock), Step(a, ScanFire(None));
    RunSnoc(cfg, w, [], r);
    RunSnoc(cfg, w, [r], t);
    RunSnoc(cfg, w, [r] + [t], f);
    SendsOfSnoc(w.log, Sent(j, w.db.jobs[j].chain, w.db.jobs[j].attempt), j);
    assert SentAgain(cfg, w, [r] + [t] + [f], j);
  }

  // ------------------------------------------------------------ pending jobs

  function PendingCount(jobs: seq<Job>): nat {
    if jobs == [] then 0
    else PendingCount(jobs[..|jobs| - 1]) + if jobs[|jobs| - 1].status.Pending? then 1 else 0
  }

  lemma PendingSnoc(jobs: seq<Job>, job: Job)
    ensures PendingCount(jobs + [job]) == PendingCount(jobs) + if job.status.Pending? then 1 else 0
  {
    assert (jobs + [job])[..|jobs|] == jobs;
  }

  lemma {:induction false} PendingUpdate(jobs: seq<Job>, j: nat, job: Job)
    requires j < |jobs|
    ensures PendingCount(jobs[j := job])
         == PendingCount(jobs) - (if jobs[j].status.Pending? then 1 else 0) + (if job.status.Pending? then 1 else 0)
    decreases |jobs|
  {
    var n := |jobs| - 1;
    if j == n {
      assert jobs[j := job][..n] == jobs[..n];
    } else {
      assert jobs[j := job][..n] == jobs[..n][j := job];
      PendingUpdate(jobs[..n], j, job);
    }
  }

  lemma {:induction false} NonePending(jobs: seq<Job>)
    requires forall i | 0 <= i < |jobs| :: !jobs[i].status.Pending?
    ensures PendingCount(jobs) == 0
    decreases |jobs|
  {
    if jobs != [] {
      NonePending(jobs[..|jobs| - 1]);
    }
  }

  /** The messages a drain answers before the first it cannot. */
  function Replies(results: seq<ReplyResult>): nat {
    if results == [] || results[0].NotAnswered? then 0 else 1 + Replies(results[1..])
  }

  lemma {:induction false} AnswersPend(cfg: Option<Config>, db: Db, results: seq<ReplyResult>, chain: nat)
    ensures PendingCount(Answers(cfg, db, results, chain).jobs)
         == PendingCount(db.jobs) + if Schedules(cfg) then Replies(results) else 0
    decreases |results|
  {
    if results != [] && results[0].Answered? {
      var r := results[0];
      PendingSnoc(db.jobs, Job(1, r.nextAt, chain, Pending));
      AnswersPend(cfg, Replied(cfg, db, r.received, r.nextAt, chain, r.finished), results[1..],
                  if Schedules(cfg) then chain + 1 else chain);
    }
  }

  /** A drain that found messages leaves one pending job for each it answered, when follow-ups
      are on, and none otherwise. */
  lemma DrainLeavesPending(cfg: Option<Config>, db: Db, results: seq<ReplyResult>, chain: nat)
    ensures PendingCount(Answers(cfg, Begin(db), results, chain).jobs) == if Schedules(cfg) then Replies(results) else 0
  {
    NonePending(Begin(db).jobs);
    AnswersPend(cfg, Begin(db), results, chain);
  }

  /** The pending jobs and the cancelled one that is in flight, if any. */
  function OpenCount(w: World): nat {
    PendingCount(w.db.jobs)
    + if InFlight(w).Some? && InFlight(w).value < |w.db.jobs| && !w.db.jobs[InFlight(w).value].status.Pending? then 1 else 0
  }

  lemma FireOpensNone(cfg: Option<Config>, w: World, a: Actor, error: Option<SendError>)
    requires Inv(cfg, w) && Enabled(w, Step(a, ScanFire(error)))
    ensures OpenCount(Do(cfg, w, Step(a, ScanFire(error)))) <= OpenCount(w)
  {
    HolderAlone(w, a);
    var j, after := w.actors[a].job, Do(cfg, w, Step(a, ScanFire(error)));
    var job := w.db.jobs[j];
    hide Inv, PendingCount, CancelPending;
    PendingUpdate(w.db.jobs, j, job.(status := Cancelled));
    PendingUpdate(w.db.jobs, j, job.(status := Failed));
    if Judge(cfg, w.db, j).Send? && error.Some? && error.value.Unreachable? {
      NoneLeft(w.db, j);
    }
  }

  lemma NoneLeft(db: Db, j: nat)
    requires j < |db.jobs|
    ensures PendingCount(Undelivered(db, j, Unreachable).jobs) == 0
  {
    NonePending(Undelivered(db, j, Unreachable).jobs);
  }

  lemma CommitOpensNone(cfg: Option<Config>, w: World, a: Actor, nextAt: int)
    requires Inv(cfg, w) && Enabled(w, Step(a, ScanCommit(nextAt)))
    ensures OpenCount(Do(cfg, w, Step(a, ScanCommit(nextAt)))) <= OpenCount(w)
  {
    HolderAlone(w, a);
    var jobs, j := w.db.jobs, w.actors[a].job;
    var done := jobs[j].(status := Completed);
    hide Inv, PendingCount;
    PendingUpdate(jobs, j, done);
    PendingSnoc(jobs[j := done], Job(jobs[j].attempt + 1, nextAt, jobs[j].chain, Pending));
    assert InFlight(Do(cfg, w, Step(a, ScanCommit(nextAt)))).None?;
  }

  /** Only a drain's reply adds a job to those pending or in flight. */
  lemma OnlyRepliesOpen(cfg: Option<Config>, w: World, s: Step)
    requires Inv(cfg, w) && Enabled(w, s) && !s.action.DrainMessage?
    ensures OpenCount(Do(cfg, w, s)) <= OpenCount(w)
  {
    var after := Do(cfg, w, s);
    match s.action
    case ScanFire(error) => FireOpensNone(cfg, w, s.actor, error);
    case ScanCommit(nextAt) => CommitOpensNone(cfg, w, s.actor, nextAt);
    case CliCancel => CancelOpensNone(cfg, w, s);
    case Crash =>
      HolderAlone(w, s.actor);
      assert InFlight(after).None?;
    case ScanGiveUp =>
      HolderAlone(w, s.actor);
      assert InFlight(after).None?;
    case DrainEnd =>
      HolderAlone(w, s.actor);
      assert InFlight(after).None?;
    case ScanTryLock => assert InFlight(after) == InFlight(w);
    case ScanRead(_) => assert InFlight(after) == InFlight(w);
    case DrainTryLock => assert InFlight(after) == InFlight(w);
  }

  lemma CancelOpensNone(cfg: Option<Config>, w: World, s: Step)
    requires s.action.CliCancel?
    ensures OpenCount(Do(cfg, w, s)) <= OpenCount(w)
  {
    NonePending(CancelPending(w.db).jobs);
    if InFlight(w).Some? && InFlight(w).value < |w.db.jobs| {
      var j := InFlight(w).value;
      PendingUpdate(w.db.jobs, j, w.db.jobs[j].(status := Cancelled));
    }
  }

  predicate NoReplies(steps: seq<Step>) {
    forall s | s in steps :: !s.action.DrainMessage?
  }

  lemma {:induction false} RunOpensNone(cfg: Option<Config>, w: World, steps: seq<Step>)
    requires Pinned(cfg) && Inv(cfg, w) && NoReplies(steps) && Run(cfg, w, steps).Some?
    ensures OpenCount(Run(cfg, w, steps).value) <= OpenCount(w)
    decreases |steps|
  {
    hide Inv, Do, Enabled, OpenCount;
    if steps != [] {
      StepKeepsInv(cfg, w, steps[0]);
      OnlyRepliesOpen(cfg, w, steps[0]);
      RunOpensNone(cfg, Do(cfg, w, steps[0]), steps[1..]);
    }
  }

  /** The state a drain that found `results` ends in. */
  function Drained(cfg: Option<Config>, w: World, a: Actor, results: seq<ReplyResult>): (end: World)
    requires w.lock.None? && a !in w.actors
    ensures Run(cfg, w, [Step(a, DrainTryLock)] + MessageSteps(a, results)) == Some(end)
  {
    DrainIsItsSteps(cfg, w, a, results);
    Run(cfg, w, [Step(a, DrainTryLock)] + MessageSteps(a, results)).value
  }

  ghost predicate OnePendingUntilReply(cfg: Option<Config>, w: World) {
    forall rest | NoReplies(rest) && Run(cfg, w, rest).Some? :: PendingCount(Run(cfg, w, rest).value.db.jobs) <= 1
  }

  /** After a drain, at most one job is pending until the next reply, whatever scanners, crashes
      and command-line cancels do, exactly when it answered at most one message or follow-ups
      are off. */
  lemma OnePendingExactly(cfg: Option<Config>, w: World, a: Actor, results: seq<ReplyResult>)
    requires Pinned(cfg) && Reachable(cfg, w) && w.lock.None? && a !in w.actors && results != []
    ensures OnePendingUntilReply(cfg, Drained(cfg, w, a, results)) <==> !Schedules(cfg) || Replies(results) <= 1
  {
    var end := Drained(cfg, w, a, results);
    ReachableIsGood(cfg, w);
    RunKeepsInv(cfg, w, [Step(a, DrainTryLock)] + MessageSteps(a, results));
    DrainIsItsSteps(cfg, w, a, results);
    DrainLeavesPending(cfg, w.db, results, w.chains);
    hide Inv, PendingCount, Answers, Drained;
    assert InFlight(end).None?;
    assert Run(cfg, end, []) == Some(end) && NoReplies([]);
    forall rest | NoReplies(rest) && Run(cfg, end, rest).Some?
      ensures PendingCount(Run(cfg, end, rest).value.db.jobs) <= PendingCount(end.db.jobs)
    {
      RunOpensNone(cfg, end, rest);
    }
  }

  // ------------------------------------------------ the command-line cancel

  /** No job of the chain is pending, and none in flight would be followed up. */
  ghost predicate Ended(cfg: Option<Config>, w: World, c: nat) {
    && c < w.chains
    && forall i | 0 <= i < |w.db.jobs| && w.db.jobs[i].chain == c ::
         && !w.db.jobs[i].status.Pending?
         && (InFlight(w) == Some(i) && cfg.Some? ==> w.db.jobs[i].attempt >= cfg.value.max)
  }

  ghost predicate PendsIn(cfg: Option<Config>, w: World, rest: seq<Step>, c: nat) {
    Run(cfg, w, rest).Some? && exists job | job in Run(cfg, w, rest).value.db.jobs :: job.chain == c && job.status.Pending?
  }

  lemma ScanKeepsEnded(cfg: Option<Config>, w: World, s: Step, c: nat)
    requires LockInv(w) && Enabled(w, s) && Ended(cfg, w, c)
    requires s.action.ScanFire? || s.action.ScanCommit? || s.action.ScanGiveUp? || s.action.ScanTryLock?
    ensures Ended(cfg, Do(cfg, w, s), c)
  {
    var a, after := s.actor, Do(cfg, w, s);
    if s.action.ScanTryLock? {
      assert InFlight(after) == InFlight(w);
      return;
    }
    HolderAlone(w, a);
    hide LockInv;
    assert after.actors[a].Scanning? ==> InFlight(after).None?;
    forall i | 0 <= i < |after.db.jobs| && after.db.jobs[i].chain == c
      ensures !after.db.jobs[i].status.Pending?
      ensures InFlight(after) == Some(i) && cfg.Some? ==> after.db.jobs[i].attempt >= cfg.value.max
    {
      if i < |w.db.jobs| {
        assert w.db.jobs[i].chain == c;
      }
    }
  }

  lemma MessageKeepsEnded(cfg: Option<Config>, w: World, a: Actor, result: ReplyResult, c: nat)
    requires LockInv(w) && Enabled(w, Step(a, DrainMessage(result))) && Ended(cfg, w, c)
    ensures Ended(cfg, Do(cfg, w, Step(a, DrainMessage(result))), c)
  {
    HolderAlone(w, a);
    hide LockInv, PendingJobs;
    assert InFlight(Do(cfg, w, Step(a, DrainMessage(result)))).None?;
  }

  lemma StepKeepsEnded(cfg: Option<Config>, w: World, s: Step, c: nat)
    requires LockInv(w) && Enabled(w, s) && Ended(cfg, w, c)
    ensures Ended(cfg, Do(cfg, w, s), c)
  {
    var after := Do(cfg, w, s);
    match s.action
    case DrainMessage(result) => MessageKeepsEnded(cfg, w, s.actor, result, c);
    case DrainEnd =>
      HolderAlone(w, s.actor);
      assert InFlight(after).None?;
    case Crash =>
      HolderAlone(w, s.actor);
      assert InFlight(after).None?;
    case ScanRead(_) => assert InFlight(after) == InFlight(w);
    case DrainTryLock => assert InFlight(after) == InFlight(w);
    case CliCancel => assert InFlight(after) == InFlight(w);
    case ScanTryLock => ScanKeepsEnded(cfg, w, s, c);
    case ScanFire(_) => ScanKeepsEnded(cfg, w, s, c);
    case ScanCommit(_) => ScanKeepsEnded(cfg, w, s, c);
    case ScanGiveUp => ScanKeepsEnded(cfg, w, s, c);
  }

  lemma {:induction false} EndedStaysEnded(cfg: Option<Config>, w: World, rest: seq<Step>, c: nat)
    requires Pinned(cfg) && Inv(cfg, w) && Ended(cfg, w, c)
    ensures !PendsIn(cfg, w, rest, c)
    decreases |rest|
  {
    hide DataInv, LockInv, Do, Enabled;
    if rest != [] && Enabled(w, rest[0]) {
      StepKeepsInv(cfg, w, rest[0]);
      StepKeepsEnded(cfg, w, rest[0], c);
      EndedStaysEnded(cfg, Do(cfg, w, rest[0]), rest[1..], c);
    }
  }

  /** After a command-line cancel, the chain of a job it cancelled goes on in some continuation
      exactly when the job was in flight and is not its chain's last. */
  lemma CliCancelMissesExactly(cfg: Option<Config>, w: World, s: Step, j: nat)
    requires Pinned(cfg) && Reachable(cfg, w) && s.action.CliCancel?
    requires j < |w.db.jobs| && w.db.jobs[j].status.Pending?
    ensures cfg.Some?
    ensures (exists rest :: PendsIn(cfg, Do(cfg, w, s), rest, w.db.jobs[j].chain))
       <==> InFlight(w) == Some(j) && w.db.jobs[j].attempt < cfg.value.max
  {
    ReachableIsGood(cfg, w);
    StepKeepsInv(cfg, w, s);
    var after, c := Do(cfg, w, s), w.db.jobs[j].chain;
    assert JobOk(cfg, DataOf(w), j);
    assert InFlight(after) == InFlight(w);
    if InFlight(w) == Some(j) && w.db.jobs[j].attempt < cfg.value.max {
      hide Inv;
      FlightGoesOn(cfg, after, w.lock.value, j);
    } else {
      EndedByCancel(cfg, w, j);
      forall rest ensures !PendsIn(cfg, after, rest, c) {
        EndedStaysEnded(cfg, after, rest, c);
      }
    }
  }

  lemma EndedByCancel(cfg: Option<Config>, w: World, j: nat)
    requires Inv(cfg, w) && j < |w.db.jobs| && w.db.jobs[j].status.Pending?
    requires InFlight(w) == Some(j) && cfg.Some? ==> w.db.jobs[j].attempt >= cfg.value.max
    ensures Ended(cfg, w.(db := CancelPending(w.db)), w.db.jobs[j].chain)
  {
    assert JobOk(cfg, DataOf(w), j);
    var after := w.(db := CancelPending(w.db));
    assert InFlight(after) == InFlight(w);
    forall i | 0 <= i < |w.db.jobs| && w.db.jobs[i].chain == w.db.jobs[j].chain
      ensures InFlight(w) == Some(i) ==> i == j
    {
      assert Open(DataOf(w), j);
      assert InFlight(w) == Some(i) ==> Open(DataOf(w), i);
    }
  }

  lemma FlightGoesOn(cfg: Option<Config>, w: World, a: Actor, j: nat)
    requires cfg.Some? && AtSent(w, a, j) && j < |w.db.jobs| && w.db.jobs[j].attempt < cfg.value.max
    ensures exists rest :: PendsIn(cfg, w, rest, w.db.jobs[j].chain)
  {
    var k := Step(a, ScanCommit(0));
    RunSnoc(cfg, w, [], k);
    var next := Job(w.db.jobs[j].attempt + 1, 0, w.db.jobs[j].chain, Pending);
    assert next in Run(cfg, w, [] + [k]).value.db.jobs by {
      var jobs := Run(cfg, w, [] + [k]).value.db.jobs;
      assert jobs[|w.db.jobs|] == next;
    }
    assert PendsIn(cfg, w, [] + [k], w.db.jobs[j].chain);
  }

  // ------------------------------------------------------------ three runs

  /** A drain that answers one message, run to its end. */
  lemma OneReply(cfg: Option<Config>) returns (steps: seq<Step>, w: World)
    requires Schedules(cfg)
    ensures Run(cfg, START, steps) == Some(w)
    ensures w == World(Db([Job(1, 10, 0, Pending)], Live, Some(5)), None, map[], 1, [DrainCancelled({})])
  {
    var s1, s2, s3 := Step(1, DrainTryLock), Step(1, DrainMessage(Answered(5, 10, false))), Step(1, DrainEnd);
    RunSnoc(cfg, START, [], s1);
    RunSnoc(cfg, START, [s1], s2);
    RunSnoc(cfg, START, [s1] + [s2], s3);
    steps, w := [s1] + [s2] + [s3], Run(cfg, START, [s1] + [s2] + [s3]).value;
    assert PendingJobs(START.db) == {} && Begin(START.db) == START.db;
    assert w.actors == map[] && w.log == [DrainCancelled({})] && w.db.jobs == [Job(1, 10, 0, Pending)];
  }

  /** "At most one pending follow-up per lead" is false: a drain schedules a first attempt
      for every message it answers. */
  lemma TwoMessagesLeaveTwoPending(cfg: Option<Config>) returns (w: World)
    requires Schedules(cfg)
    ensures Reachable(cfg, w)
    ensures |w.db.jobs| == 2 && w.db.jobs[0].status.Pending? && w.db.jobs[1].status.Pending?
  {
    var s1, s2 := Step(1, DrainTryLock), Step(1, DrainMessage(Answered(5, 10, false)));
    RunSnoc(cfg, START, [], s1);
    RunSnoc(cfg, START, [s1], s2);
    RunSnoc(cfg, START, [s1] + [s2], s2);
    w := Run(cfg, START, [s1] + [s2] + [s2]).value;
  }

  /** A crash after the send and before its commit leaves the job pending: it goes out again. */
  lemma CrashResends(cfg: Option<Config>) returns (steps: seq<Step>, w: World)
    requires Pinned(cfg) && Schedules(cfg)
    ensures Run(cfg, START, steps) == Some(w)
    ensures w.log == [DrainCancelled({}), Sent(0, 0, 1), Sent(0, 0, 1)]
  {
    var replied, w0 := OneReply(cfg);
    var r, t, f, c := Step(2, ScanRead([0])), Step(2, ScanTryLock), Step(2, ScanFire(None)), Step(2, Crash);
    RunSnoc(cfg, START, replied, r);
    RunSnoc(cfg, START, replied + [r], t);
    RunSnoc(cfg, START, replied + [r] + [t], f);
    RunSnoc(cfg, START, replied + [r] + [t] + [f], c);
    var once := replied + [r] + [t] + [f] + [c];
    RunSnoc(cfg, START, once, r);
    RunSnoc(cfg, START, once + [r], t);
    RunSnoc(cfg, START, once + [r] + [t], f);
    steps := once + [r] + [t] + [f];
    w := Run(cfg, START, steps).value;
  }

  /** The command-line cancel takes no lock: a dispatch under way overwrites it and the chain
      goes on. */
  lemma {:induction false} CliCancelIsOverwritten(cfg: Option<Config>) returns (steps: seq<Step>, w: World)
    requires Pinned(cfg) && Schedules(cfg) && cfg.value.max > 1
    ensures steps != [] && Run(cfg, START, steps[..|steps| - 1]).Some?
    ensures PendingJobs(Run(cfg, START, steps[..|steps| - 1]).value.db) == {}
    ensures Run(cfg, START, steps) == Some(w) && w.db.jobs == [Job(1, 10, 0, Completed), Job(2, 20, 0, Pending)]
  {
    var replied, w0 := OneReply(cfg);
    var r, t, f := Step(2, ScanRead([0])), Step(2, ScanTryLock), Step(2, ScanFire(None));
    var c, k := Step(3, CliCancel), Step(2, ScanCommit(20));
    RunSnoc(cfg, START, replied, r);
    RunSnoc(cfg, START, replied + [r], t);
    RunSnoc(cfg, START, replied + [r] + [t], f);
    RunSnoc(cfg, START, replied + [r] + [t] + [f], c);
    var cancelled := replied + [r] + [t] + [f] + [c];
    RunSnoc(cfg, START, cancelled, k);
    steps := cancelled + [k];
    assert steps[..|steps| - 1] == cancelled;
    w := Run(cfg, START, steps).value;
  }
}
