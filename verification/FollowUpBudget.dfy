/** The budget of follow-up sends: what the pending jobs owe, what the replies allow, and what
    crashes add. */
module FollowUpBudget {
  import opened Wrappers
  import opened FollowUp
  import opened FollowUpTheorems

  // --------------------------------------------------------- the send budget

  function Due(max: int, job: Job): int {
    if job.status.Pending? then max - job.attempt + 1 else 0
  }

  /** The sends still owed to the pending jobs and their successors. */
  function Owed(max: int, jobs: seq<Job>): int {
    if jobs == [] then 0 else Owed(max, jobs[..|jobs| - 1]) + Due(max, jobs[|jobs| - 1])
  }

  function Max(cfg: Option<Config>): int {
    if cfg.Some? then cfg.value.max else 0
  }

  function Sends(log: seq<Event>): nat {
    if log == [] then 0 else Sends(log[..|log| - 1]) + if log[|log| - 1].Sent? then 1 else 0
  }

  /** What the job in flight adds: it is not owed a second time, and if a command-line cancel
      took it out of the pending jobs, its successors still are. */
  function FlightDue(cfg: Option<Config>, d: Data): int {
    if d.flight.None? || d.flight.value >= |d.db.jobs| then 0
    else if d.db.jobs[d.flight.value].status.Pending? then -1
    else Max(cfg) - d.db.jobs[d.flight.value].attempt
  }

  /** The sends still to come from the jobs there are. */
  function Outstanding(cfg: Option<Config>, d: Data): int {
    Owed(Max(cfg), d.db.jobs) + FlightDue(cfg, d)
  }

  function Spent(cfg: Option<Config>, d: Data): int {
    Sends(d.log) + Outstanding(cfg, d)
  }

  lemma SendsSnoc(log: seq<Event>, e: Event)
    ensures Sends(log + [e]) == Sends(log) + if e.Sent? then 1 else 0
  {
    assert (log + [e])[..|log|] == log;
  }

  lemma OwedSnoc(max: int, jobs: seq<Job>, job: Job)
    ensures Owed(max, jobs + [job]) == Owed(max, jobs) + Due(max, job)
  {
    assert (jobs + [job])[..|jobs|] == jobs;
  }

  lemma {:induction false} OwedUpdate(max: int, jobs: seq<Job>, j: nat, job: Job)
    requires j < |jobs|
    ensures Owed(max, jobs[j := job]) == Owed(max, jobs) - Due(max, jobs[j]) + Due(max, job)
    decreases |jobs|
  {
    var n := |jobs| - 1;
    if j == n {
      assert jobs[j := job][..n] == jobs[..n];
    } else {
      assert jobs[j := job][..n] == jobs[..n][j := job];
      OwedUpdate(max, jobs[..n], j, job);
    }
  }

  predicate Affordable(max: int, jobs: seq<Job>) {
    forall i | 0 <= i < |jobs| && jobs[i].status.Pending? :: jobs[i].attempt <= max
  }

  lemma {:induction false} OwedIsNeverNegative(max: int, jobs: seq<Job>)
    requires Affordable(max, jobs)
    ensures 0 <= Owed(max, jobs)
    decreases |jobs|
  {
    if jobs != [] {
      OwedIsNeverNegative(max, jobs[..|jobs| - 1]);
    }
  }

  lemma {:induction false} NonePendingOwesNothing(max: int, jobs: seq<Job>)
    requires forall i | 0 <= i < |jobs| :: !jobs[i].status.Pending?
    ensures Owed(max, jobs) == 0
    decreases |jobs|
  {
    if jobs != [] {
      NonePendingOwesNothing(max, jobs[..|jobs| - 1]);
    }
  }

  lemma InvIsAffordable(cfg: Option<Config>, d: Data)
    requires DataInv(cfg, d)
    ensures Affordable(Max(cfg), d.db.jobs)
  {
    forall i | 0 <= i < |d.db.jobs| && d.db.jobs[i].status.Pending? ensures d.db.jobs[i].attempt <= Max(cfg) {
      assert JobOk(cfg, d, i);
    }
  }

  lemma UndeliveredSpends(max: int, db: Db, j: nat, e: SendError)
    requires j < |db.jobs| && db.jobs[j].status.Pending? && Affordable(max, db.jobs)
    ensures 0 <= Owed(max, Undelivered(db, j, e).jobs) < Owed(max, db.jobs)
  {
    var failed := db.jobs[j].(status := Failed);
    OwedUpdate(max, db.jobs, j, failed);
    OwedIsNeverNegative(max, db.jobs[j := failed]);
    if e.Unreachable? {
      NonePendingOwesNothing(max, Undelivered(db, j, e).jobs);
    }
  }

  lemma MarkedSpends(max: int, db: Db, j: nat, status: JobStatus)
    requires j < |db.jobs| && db.jobs[j].status.Pending? && Affordable(max, db.jobs) && !status.Pending?
    ensures 0 <= Owed(max, Mark(db, j, status).jobs) < Owed(max, db.jobs)
  {
    OwedUpdate(max, db.jobs, j, db.jobs[j].(status := status));
    OwedIsNeverNegative(max, db.jobs[j := db.jobs[j].(status := status)]);
  }

  lemma DeliveredSpends(cfg: Config, db: Db, j: nat, nextAt: int)
    requires j < |db.jobs| && db.jobs[j].status.Pending? && Affordable(cfg.max, db.jobs)
    ensures 0 <= Owed(cfg.max, Delivered(cfg, db, j, nextAt).jobs) == Owed(cfg.max, db.jobs) - 1
  {
    var job := db.jobs[j];
    var completed := job.(status := Completed);
    MarkedSpends(cfg.max, db, j, Completed);
    OwedUpdate(cfg.max, db.jobs, j, completed);
    OwedSnoc(cfg.max, db.jobs[j := completed], Job(job.attempt + 1, nextAt, job.chain, Pending));
  }

  /** Every dispatch the scanner commits lowers what is owed, and a delivered one by exactly
      the send it made: the chain goes on, but shorter. */
  lemma DispatchSpends(cfg: Option<Config>, d: Data, j: nat, error: Option<SendError>, nextAt: int)
    requires DataInv(cfg, d) && j < |d.db.jobs|
    ensures var owed, left := Owed(Max(cfg), d.db.jobs), Owed(Max(cfg), Fired(cfg, d.db, j, error, nextAt).jobs);
            && 0 <= left
            && (d.db.jobs[j].status.Pending? ==> left < owed)
            && (!d.db.jobs[j].status.Pending? ==> left == owed)
            && (Judge(cfg, d.db, j).Send? && error.None? ==> left == owed - 1)
  {
    hide DataInv, Owed, Undelivered, Mark, Delivered;
    InvIsAffordable(cfg, d);
    OwedIsNeverNegative(Max(cfg), d.db.jobs);
    if d.db.jobs[j].status.Pending? {
      if !Judge(cfg, d.db, j).Send? {
        MarkedSpends(Max(cfg), d.db, j, if Judge(cfg, d.db, j).Withdraw? then Cancelled else Failed);
      } else if error.None? {
        DeliveredSpends(cfg.value, d.db, j, nextAt);
      } else {
        UndeliveredSpends(Max(cfg), d.db, j, error.value);
      }
    }
  }

  /** One full sequence for each reply that scheduled a follow-up. */
  function Allowance(cfg: Option<Config>, chains: nat): int {
    Max(cfg) * chains
  }

  lemma AllowanceBetween(cfg: Option<Config>, before: nat, after: nat)
    ensures Allowance(cfg, after) - Allowance(cfg, before) == Max(cfg) * (after - before)
  {
  }

  /** What the replies so far allow beyond what is spent. */
  function Credit(cfg: Option<Config>, d: Data): int {
    Allowance(cfg, d.chains) - Spent(cfg, d)
  }

  lemma FireKeepsCredit(cfg: Option<Config>, w: World, a: Actor, error: Option<SendError>)
    requires Inv(cfg, w) && Enabled(w, Step(a, ScanFire(error)))
    ensures Credit(cfg, DataOf(w)) <= Credit(cfg, DataOf(DoScan(cfg, w, a, ScanFire(error))))
  {
    HolderAlone(w, a);
    var pc, d, after := w.actors[a], DataOf(w), DoScan(cfg, w, a, ScanFire(error));
    DispatchSpends(cfg, d, pc.job, error, 0);
    hide DataInv, LockInv, Owed, Sends, Allowance;
    if Judge(cfg, w.db, pc.job).Send? && error.None? {
      SendsSnoc(w.log, Sent(pc.job, d.db.jobs[pc.job].chain, d.db.jobs[pc.job].attempt));
      assert InFlight(after) == Some(pc.job);
    } else {
      assert after.db == Fired(cfg, w.db, pc.job, error, 0) && InFlight(after).None?;
    }
  }

  lemma CommitKeepsCredit(cfg: Option<Config>, w: World, a: Actor, nextAt: int)
    requires Inv(cfg, w) && Enabled(w, Step(a, ScanCommit(nextAt)))
    ensures Credit(cfg, DataOf(w)) <= Credit(cfg, DataOf(DoScan(cfg, w, a, ScanCommit(nextAt))))
  {
    HolderAlone(w, a);
    var jobs, j := w.db.jobs, w.actors[a].job;
    var done := jobs[j].(status := Completed);
    assert JobOk(cfg, DataOf(w), j);
    hide DataInv, LockInv, Owed, Sends, Allowance, Attempts, WasSent;
    OwedUpdate(Max(cfg), jobs, j, done);
    OwedSnoc(Max(cfg), jobs[j := done], Job(jobs[j].attempt + 1, nextAt, jobs[j].chain, Pending));
    assert InFlight(DoScan(cfg, w, a, ScanCommit(nextAt))).None?;
  }

  lemma OutstandingIsNeverNegative(cfg: Option<Config>, d: Data)
    requires DataInv(cfg, d)
    ensures 0 <= Outstanding(cfg, d)
  {
    var max, jobs := Max(cfg), d.db.jobs;
    InvIsAffordable(cfg, d);
    OwedIsNeverNegative(max, jobs);
    if d.flight.Some? {
      var j := d.flight.value;
      assert JobOk(cfg, d, j);
      OwedUpdate(max, jobs, j, jobs[j].(status := Completed));
      OwedIsNeverNegative(max, jobs[j := jobs[j].(status := Completed)]);
    }
  }

  lemma CancelKeepsCredit(cfg: Option<Config>, d: Data)
    requires DataInv(cfg, d)
    ensures Credit(cfg, d) <= Credit(cfg, d.(db := CancelPending(d.db)))
  {
    InvIsAffordable(cfg, d);
    OutstandingIsNeverNegative(cfg, d);
    NonePendingOwesNothing(Max(cfg), CancelPending(d.db).jobs);
    if d.flight.Some? {
      var j := d.flight.value;
      assert JobOk(cfg, d, j);
      hide DataInv, Owed, Sends, Attempts, WasSent;
      OwedUpdate(Max(cfg), d.db.jobs, j, d.db.jobs[j].(status := Cancelled));
      OwedIsNeverNegative(Max(cfg), d.db.jobs[j := d.db.jobs[j].(status := Cancelled)]);
    } else {
      OwedIsNeverNegative(Max(cfg), d.db.jobs);
    }
  }

  /** A crash costs at most one further send. */
  lemma CrashCostsOne(cfg: Option<Config>, d: Data)
    requires DataInv(cfg, d)
    ensures Credit(cfg, d) - 1 <= Credit(cfg, d.(flight := None))
  {
    if d.flight.Some? {
      assert JobOk(cfg, d, d.flight.value);
    }
  }

  /** The preamble cancels everything owed. */
  lemma BegunKeepsCredit(cfg: Option<Config>, w: World, began: bool)
    requires Inv(cfg, w) && InFlight(w).None?
    ensures Credit(cfg, DataOf(w)) <= Credit(cfg, DataOf(Begun(w, began)))
    ensures !began ==> Credit(cfg, DataOf(Begun(w, began))) == Allowance(cfg, w.chains) - Sends(w.log)
  {
    InvIsAffordable(cfg, DataOf(w));
    hide DataInv, LockInv;
    OwedIsNeverNegative(Max(cfg), w.db.jobs);
    NonePendingOwesNothing(Max(cfg), Begin(w.db).jobs);
    SendsSnoc(w.log, DrainCancelled(PendingJobs(w.db)));
  }

  lemma CreditAtRest(cfg: Option<Config>, w: World)
    requires InFlight(w).None?
    ensures Credit(cfg, DataOf(w)) == Allowance(cfg, w.chains) - Sends(w.log) - Owed(Max(cfg), w.db.jobs)
  {
  }

  /** What a message adds to the rows the preamble left. */
  lemma MessageAdds(cfg: Option<Config>, w: World, a: Actor, result: ReplyResult)
    requires Inv(cfg, w) && Enabled(w, Step(a, DrainMessage(result)))
    ensures InFlight(w).None? && InFlight(Do(cfg, w, Step(a, DrainMessage(result)))).None?
    ensures InFlight(Begun(w, w.actors[a].began)).None?
    ensures var begun, after := Begun(w, w.actors[a].began), Do(cfg, w, Step(a, DrainMessage(result)));
            && after.log == begun.log && begun.chains == w.chains
            && if result.Answered? && Schedules(cfg)
               then after.chains == w.chains + 1 && after.db.jobs == begun.db.jobs + [Job(1, result.nextAt, w.chains, Pending)]
               else after.chains == w.chains && after.db.jobs == begun.db.jobs
  {
    HolderAlone(w, a);
    hide DataInv, LockInv, CancelPending, PendingJobs;
  }

  lemma FirstAttemptCosts(cfg: Option<Config>, jobs: seq<Job>, at: int, chain: nat)
    ensures Owed(Max(cfg), jobs + [Job(1, at, chain, Pending)]) - Owed(Max(cfg), jobs) == Allowance(cfg, chain + 1) - Allowance(cfg, chain)
  {
    OwedSnoc(Max(cfg), jobs, Job(1, at, chain, Pending));
    AllowanceBetween(cfg, chain, chain + 1);
  }

  lemma MessageKeepsCredit(cfg: Option<Config>, w: World, a: Actor, result: ReplyResult)
    requires Inv(cfg, w) && Enabled(w, Step(a, DrainMessage(result)))
    ensures Credit(cfg, DataOf(w)) <= Credit(cfg, DataOf(Do(cfg, w, Step(a, DrainMessage(result)))))
    ensures !w.actors[a].began ==>
              Allowance(cfg, w.chains) - Sends(w.log) <= Credit(cfg, DataOf(Do(cfg, w, Step(a, DrainMessage(result)))))
  {
    hide Inv, Do, Begun, Credit, Spent, DataOf, InFlight, Owed, Sends, Allowance, Due, Max;
    var after, begun := Do(cfg, w, Step(a, DrainMessage(result))), Begun(w, w.actors[a].began);
    MessageAdds(cfg, w, a, result);
    BegunKeepsCredit(cfg, w, w.actors[a].began);
    CreditAtRest(cfg, begun);
    CreditAtRest(cfg, after);
    if result.Answered? && Schedules(cfg) {
      FirstAttemptCosts(cfg, begun.db.jobs, result.nextAt, w.chains);
    }
  }

  predicate IsCrash(s: Step) {
    s.action.Crash?
  }

  function CrashCount(steps: seq<Step>): nat {
    if steps == [] then 0 else (if IsCrash(steps[0]) then 1 else 0) + CrashCount(steps[1..])
  }

  lemma StepKeepsCredit(cfg: Option<Config>, w: World, s: Step)
    requires Inv(cfg, w) && Enabled(w, s)
    ensures Credit(cfg, DataOf(w)) - (if IsCrash(s) then 1 else 0) <= Credit(cfg, DataOf(Do(cfg, w, s)))
  {
    hide DataInv, Credit;
    match s.action
    case DrainMessage(result) => MessageKeepsCredit(cfg, w, s.actor, result);
    case ScanFire(error) => FireKeepsCredit(cfg, w, s.actor, error);
    case ScanCommit(nextAt) => CommitKeepsCredit(cfg, w, s.actor, nextAt);
    case CliCancel =>
      CancelKeepsCredit(cfg, DataOf(w));
      assert DataOf(Do(cfg, w, s)) == DataOf(w).(db := CancelPending(w.db));
    case Crash =>
      HolderAlone(w, s.actor);
      CrashCostsOne(cfg, DataOf(w));
      assert DataOf(Do(cfg, w, s)) == DataOf(w).(flight := None);
    case ScanGiveUp =>
      HolderAlone(w, s.actor);
      assert DataOf(Do(cfg, w, s)) == DataOf(w);
    case DrainEnd =>
      HolderAlone(w, s.actor);
      assert DataOf(Do(cfg, w, s)) == DataOf(w);
    case ScanTryLock => assert DataOf(Do(cfg, w, s)) == DataOf(w);
    case ScanRead(_) => assert DataOf(Do(cfg, w, s)) == DataOf(w);
    case DrainTryLock => assert DataOf(Do(cfg, w, s)) == DataOf(w);
  }

  lemma {:induction false} RunKeepsCredit(cfg: Option<Config>, w: World, steps: seq<Step>)
    requires Pinned(cfg) && Inv(cfg, w) && Run(cfg, w, steps).Some?
    ensures Credit(cfg, DataOf(w)) - CrashCount(steps) <= Credit(cfg, DataOf(Run(cfg, w, steps).value))
    decreases |steps|
  {
    hide Inv, Do, Credit, IsCrash;
    if steps != [] {
      StepKeepsInv(cfg, w, steps[0]);
      StepKeepsCredit(cfg, w, steps[0]);
      RunKeepsCredit(cfg, Do(cfg, w, steps[0]), steps[1..]);
    }
  }

  lemma CreditBoundsSends(cfg: Option<Config>, w: World)
    requires Inv(cfg, w)
    ensures Credit(cfg, DataOf(w)) <= Allowance(cfg, w.chains) - Sends(w.log)
    ensures Allowance(cfg, w.chains) - Sends(w.log) - Outstanding(cfg, DataOf(w)) == Credit(cfg, DataOf(w))
  {
    OutstandingIsNeverNegative(cfg, DataOf(w));
  }

  /** From any reachable state on, however scanners, drains and command-line cancels
      interleave, the sends are at most what the jobs there are can still cause, one full
      sequence for each reply that scheduled one, and one for each crash. */
  lemma SendsAreBounded(cfg: Option<Config>, w: World, steps: seq<Step>)
    requires Pinned(cfg) && Reachable(cfg, w) && Run(cfg, w, steps).Some?
    ensures var end := Run(cfg, w, steps).value;
            Sends(end.log) <= Sends(w.log) + Outstanding(cfg, DataOf(w)) + Allowance(cfg, end.chains) - Allowance(cfg, w.chains) + CrashCount(steps)
  {
    ReachableIsGood(cfg, w);
    hide Inv, Reachable, Run, Sends, Owed, Spent, Credit, Allowance, Outstanding, CrashCount;
    RunKeepsInv(cfg, w, steps);
    RunKeepsCredit(cfg, w, steps);
    var end := Run(cfg, w, steps).value;
    CreditBoundsSends(cfg, w);
    CreditBoundsSends(cfg, end);
  }

  /** From the first commit of a drain on, only the replies made since, and crashes, can cause
      sends. */
  lemma SendsSinceInbound(cfg: Option<Config>, w: World, a: Actor, result: ReplyResult, rest: seq<Step>)
    requires Pinned(cfg) && Reachable(cfg, w) && Enabled(w, Step(a, DrainMessage(result))) && !w.actors[a].began
    requires Run(cfg, Do(cfg, w, Step(a, DrainMessage(result))), rest).Some?
    ensures var end := Run(cfg, Do(cfg, w, Step(a, DrainMessage(result))), rest).value;
            Sends(end.log) <= Sends(w.log) + Allowance(cfg, end.chains) - Allowance(cfg, w.chains) + CrashCount(rest)
  {
    ReachableIsGood(cfg, w);
    hide Inv, Reachable, Run, Sends, Owed, Spent, Credit, Allowance, Do, DataOf, Outstanding, CrashCount;
    var s := Step(a, DrainMessage(result));
    var after := Do(cfg, w, s);
    StepKeepsInv(cfg, w, s);
    MessageKeepsCredit(cfg, w, a, result);
    RunKeepsInv(cfg, after, rest);
    RunKeepsCredit(cfg, after, rest);
    var end := Run(cfg, after, rest).value;
    CreditBoundsSends(cfg, end);
  }
}
