/** What every run of the follow-up protocol keeps, crashes and the unlocked command-line
    cancel included: only due jobs are sent, never after a drain cancelled them, and the
    steps of a chain go out in order. */
module FollowUpTheorems {
  import opened Wrappers
  import opened FollowUp

  predicate Pinned(cfg: Option<Config>) {
    cfg.None? || Validated(cfg.value)
  }

  // ------------------------------------------------------- one step keeps Inv

  lemma HolderAlone(w: World, a: Actor)
    requires LockInv(w) && a in w.actors && Holds(w.actors[a])
    ensures w.lock == Some(a)
    ensures InFlight(w) == if w.actors[a].ScanSent? then Some(w.actors[a].job) else None
  {
  }

  /** The holder lets go, with the rows changed meanwhile. */
  lemma ReleaseKeepsLock(w: World, a: Actor, db: Db, left: seq<nat>)
    requires LockInv(w) && w.lock == Some(a) && |w.db.jobs| <= |db.jobs|
    requires forall j | j in left :: j < |db.jobs|
    ensures LockInv(Unlocked(w.(db := db), a, left)) && InFlight(Unlocked(w.(db := db), a, left)).None?
    ensures LockInv(Leave(w.(db := db), a)) && InFlight(Leave(w.(db := db), a)).None?
  {
  }

  lemma FireKeepsInv(cfg: Option<Config>, w: World, a: Actor, error: Option<SendError>)
    requires Inv(cfg, w) && Enabled(w, Step(a, ScanFire(error)))
    ensures Inv(cfg, DoScan(cfg, w, a, ScanFire(error)))
  {
    HolderAlone(w, a);
    var pc, d, after := w.actors[a], DataOf(w), DoScan(cfg, w, a, ScanFire(error));
    hide DataInv, Delivered, CancelPending;
    match Judge(cfg, w.db, pc.job)
    case NotPending =>
      ReleaseKeepsLock(w, a, w.db, pc.left);
      assert DataOf(after) == d;
    case Withdraw =>
      ReleaseKeepsLock(w, a, Mark(w.db, pc.job, Cancelled), pc.left);
      MarkKeeps(cfg, d, pc.job, Cancelled);
      assert DataOf(after) == d.(db := Mark(d.db, pc.job, Cancelled));
    case OutOfRange =>
      ReleaseKeepsLock(w, a, Mark(w.db, pc.job, Failed), pc.left);
      MarkKeeps(cfg, d, pc.job, Failed);
      assert DataOf(after) == d.(db := Mark(d.db, pc.job, Failed));
    case Send =>
      if error.Some? {
        CancelSize(w.db);
        ReleaseKeepsLock(w, a, Undelivered(w.db, pc.job, error.value), pc.left);
        UndeliveredKeeps(cfg, d, pc.job, error.value);
        assert DataOf(after) == d.(db := Undelivered(d.db, pc.job, error.value));
      } else {
        SendKeeps(cfg, d, pc.job);
        var job := d.db.jobs[pc.job];
        assert DataOf(after) == d.(log := d.log + [Sent(pc.job, job.chain, job.attempt)], flight := Some(pc.job));
      }
  }

  lemma CancelSize(db: Db)
    ensures |CancelPending(db).jobs| == |db.jobs|
  {
  }

  lemma CommitKeepsInv(cfg: Option<Config>, w: World, a: Actor, nextAt: int)
    requires Inv(cfg, w) && Enabled(w, Step(a, ScanCommit(nextAt)))
    ensures Inv(cfg, DoScan(cfg, w, a, ScanCommit(nextAt)))
  {
    HolderAlone(w, a);
    var pc, d, after := w.actors[a], DataOf(w), DoScan(cfg, w, a, ScanCommit(nextAt));
    assert IsOn(cfg);
    hide DataInv;
    ReleaseKeepsLock(w, a, Delivered(cfg.value, w.db, pc.job, nextAt), pc.left);
    DeliveredKeeps(cfg, d, nextAt);
    assert DataOf(after) == d.(db := Delivered(cfg.value, d.db, pc.job, nextAt), flight := None);
  }

  lemma ScanKeepsInv(cfg: Option<Config>, w: World, a: Actor, action: Action)
    requires Inv(cfg, w) && Enabled(w, Step(a, action))
    requires action.ScanTryLock? || action.ScanFire? || action.ScanCommit? || action.ScanGiveUp?
    ensures Inv(cfg, DoScan(cfg, w, a, action))
  {
    hide DataInv;
    match action
    case ScanTryLock =>
      var left := w.actors[a].left;
      assert left[0] in left;
      assert forall j | j in left[1..] :: j in left;
      assert DataOf(DoScan(cfg, w, a, action)) == DataOf(w);
    case ScanFire(error) => FireKeepsInv(cfg, w, a, error);
    case ScanCommit(nextAt) => CommitKeepsInv(cfg, w, a, nextAt);
    case ScanGiveUp =>
      HolderAlone(w, a);
      ReleaseKeepsLock(w, a, w.db, w.actors[a].left);
      assert DataOf(DoScan(cfg, w, a, action)) == DataOf(w);
  }

  /** The drain's first commit of the preamble. */
  lemma BegunKeepsInv(cfg: Option<Config>, w: World, a: Actor, began: bool)
    requires Inv(cfg, w) && w.lock == Some(a) && InFlight(w).None?
    ensures Inv(cfg, Begun(w, began)) && InFlight(Begun(w, began)).None?
  {
    hide DataInv;
    CancelSize(w.db);
    if !began {
      BeginKeeps(cfg, DataOf(w));
      assert DataOf(Begun(w, began)) == DataOf(w).(db := Begin(w.db), log := w.log + [DrainCancelled(PendingJobs(w.db))]);
    }
  }

  lemma MessageKeepsInv(cfg: Option<Config>, w: World, a: Actor, result: ReplyResult)
    requires Pinned(cfg) && Inv(cfg, w) && Enabled(w, Step(a, DrainMessage(result)))
    ensures Inv(cfg, DoDrain(cfg, w, a, DrainMessage(result)))
  {
    HolderAlone(w, a);
    BegunKeepsInv(cfg, w, a, w.actors[a].began);
    hide DataInv, Begin;
    var begun, after := Begun(w, w.actors[a].began), DoDrain(cfg, w, a, DrainMessage(result));
    var d := DataOf(begun);
    var last := if result.Answered? then Some(result.received) else begun.db.lastLead;
    var noted := Finish(begun.db, result.finished).(lastLead := last);
    FlowKeeps(cfg, d, noted.flow, last);
    var d1 := d.(db := noted);
    assert d1 == d.(db := d.db.(flow := noted.flow, lastLead := last));
    if result.NotAnswered? {
      ReleaseKeepsLock(begun, a, noted, []);
      assert DataOf(after) == d1;
    } else if Schedules(cfg) {
      ScheduleKeeps(cfg, d1, result.nextAt);
      assert DataOf(after) == d1.(db := Schedule(d1.db, 1, result.nextAt, d1.chains), chains := d1.chains + 1);
    } else {
      assert DataOf(after) == d1;
    }
  }

  lemma StepKeepsInv(cfg: Option<Config>, w: World, s: Step)
    requires Pinned(cfg) && Inv(cfg, w) && Enabled(w, s)
    ensures Inv(cfg, Do(cfg, w, s))
  {
    hide DataInv, DoScan;
    match s.action
    case Crash =>
      HolderAlone(w, s.actor);
      ReleaseKeepsLock(w, s.actor, w.db, []);
      CrashKeeps(cfg, DataOf(w));
      assert DataOf(Do(cfg, w, s)) == DataOf(w).(flight := None);
    case CliCancel =>
      CancelSize(w.db);
      CancelKeeps(cfg, DataOf(w));
      assert DataOf(Do(cfg, w, s)) == DataOf(w).(db := CancelPending(w.db));
    case DrainMessage(result) => MessageKeepsInv(cfg, w, s.actor, result);
    case ScanRead(_) => assert DataOf(Do(cfg, w, s)) == DataOf(w);
    case DrainTryLock => assert DataOf(Do(cfg, w, s)) == DataOf(w);
    case DrainEnd =>
      HolderAlone(w, s.actor);
      ReleaseKeepsLock(w, s.actor, w.db, []);
      assert DataOf(Do(cfg, w, s)) == DataOf(w);
    case _ => ScanKeepsInv(cfg, w, s.actor, s.action);
  }

  // ------------------------------------------------------------- whole runs

  lemma {:induction false} RunKeepsInv(cfg: Option<Config>, w: World, steps: seq<Step>)
    requires Pinned(cfg) && Inv(cfg, w) && Run(cfg, w, steps).Some?
    ensures Inv(cfg, Run(cfg, w, steps).value)
    decreases |steps|
  {
    hide Inv, Do;
    if steps != [] {
      StepKeepsInv(cfg, w, steps[0]);
      RunKeepsInv(cfg, Do(cfg, w, steps[0]), steps[1..]);
    }
  }

  /** Some run leads from the empty tables to `w`. */
  ghost predicate Reachable(cfg: Option<Config>, w: World) {
    exists steps :: Run(cfg, START, steps) == Some(w)
  }

  lemma ReachableIsGood(cfg: Option<Config>, w: World)
    requires Pinned(cfg) && Reachable(cfg, w)
    ensures Inv(cfg, w)
  {
    var steps :| Run(cfg, START, steps) == Some(w);
    RunKeepsInv(cfg, START, steps);
  }

  lemma {:induction false} RunExtendsLog(cfg: Option<Config>, w: World, steps: seq<Step>)
    requires Run(cfg, w, steps).Some?
    ensures w.log <= Run(cfg, w, steps).value.log
    decreases |steps|
  {
    if steps != [] {
      RunExtendsLog(cfg, Do(cfg, w, steps[0]), steps[1..]);
    }
  }

  lemma {:induction false} RunSnoc(cfg: Option<Config>, w: World, steps: seq<Step>, s: Step)
    requires Run(cfg, w, steps).Some? && Enabled(Run(cfg, w, steps).value, s)
    ensures Run(cfg, w, steps + [s]) == Some(Do(cfg, Run(cfg, w, steps).value, s))
    decreases |steps|
  {
    if steps == [] {
      var after := Do(cfg, w, s);
      assert Run(cfg, after, []) == Some(after);
      assert ([] + [s])[1..] == [];
    } else {
      RunSnoc(cfg, Do(cfg, w, steps[0]), steps[1..], s);
      assert (steps + [s])[1..] == steps[1..] + [s];
    }
  }

  // ------------------------------------------------------- sent, and to whom

  /** A template goes out only under the lead's lock, for a job still pending, to a live flow
      whose lead has not answered since; its step is the chain's next one, unless this very
      job went out before. */
  lemma SentJobIsDue(cfg: Option<Config>, w: World, s: Step, j: nat, chain: nat, attempt: int)
    requires Pinned(cfg) && Reachable(cfg, w) && Enabled(w, s)
    requires Do(cfg, w, s).log == w.log + [Sent(j, chain, attempt)]
    ensures w.lock == Some(s.actor)
    ensures j < |w.db.jobs| && w.db.jobs[j].status.Pending? && w.db.flow.Live?
    ensures w.db.lastLead.Some? ==> w.db.lastLead.value <= w.db.jobs[j].at
    ensures IsOn(cfg) && 1 <= attempt <= cfg.value.max <= cfg.value.steps
    ensures attempt == |Attempts(w.log, chain)| + if WasSent(w.log, j) then 0 else 1
  {
    ReachableIsGood(cfg, w);
    var after := Do(cfg, w, s);
    assert |after.log| == |w.log| + 1 && after.log[|w.log|] == Sent(j, chain, attempt);
    assert s.action.ScanFire?;
    HolderAlone(w, s.actor);
    assert JobOk(cfg, DataOf(w), j);
  }

  /** The jobs a committed drain cancelled are never sent afterwards, whatever else happens,
      even by a scanner that read them into its batch before. */
  lemma CancelledIsNeverSent(cfg: Option<Config>, w: World, a: Actor, result: ReplyResult, rest: seq<Step>, k: nat)
    requires Pinned(cfg) && Reachable(cfg, w) && Enabled(w, Step(a, DrainMessage(result))) && !w.actors[a].began
    requires Run(cfg, Do(cfg, w, Step(a, DrainMessage(result))), rest).Some?
    ensures var end := Run(cfg, Do(cfg, w, Step(a, DrainMessage(result))), rest).value;
            |w.log| <= k < |end.log| && end.log[k].Sent? ==> end.log[k].job !in PendingJobs(w.db)
  {
    var s := Step(a, DrainMessage(result));
    var after := Do(cfg, w, s);
    ReachableIsGood(cfg, w);
    StepKeepsInv(cfg, w, s);
    RunKeepsInv(cfg, after, rest);
    RunExtendsLog(cfg, after, rest);
    var end := Run(cfg, after, rest).value;
    assert after.log == w.log + [DrainCancelled(PendingJobs(w.db))];
    assert end.log[|w.log|] == DrainCancelled(PendingJobs(w.db));
  }

  /** Repeated sends of a job left aside, a chain sends step 1, 2, ... in order and stays within the limit. */
  lemma ChainsRunInOrder(cfg: Option<Config>, w: World, chain: nat)
    requires Pinned(cfg) && Reachable(cfg, w)
    ensures exists k: nat :: Attempts(w.log, chain) == Upto(k) && (k > 0 ==> IsOn(cfg) && k <= cfg.value.max <= cfg.value.steps)
  {
    ReachableIsGood(cfg, w);
    assert ChainOk(cfg, DataOf(w), chain);
    assert Attempts(w.log, chain) == Upto(|Attempts(w.log, chain)|);
  }

  /** The scanner's out-of-range branch is dead. */
  lemma PendingAttemptIsInRange(cfg: Option<Config>, w: World, j: nat)
    requires Pinned(cfg) && Reachable(cfg, w) && j < |w.db.jobs|
    ensures IsOn(cfg) && 1 <= w.db.jobs[j].attempt <= cfg.value.max <= cfg.value.steps
    ensures !Judge(cfg, w.db, j).OutOfRange?
  {
    ReachableIsGood(cfg, w);
    assert JobOk(cfg, DataOf(w), j);
  }

  // ------------------------------------------- the stored rows take these steps

  /** Firing a job is the protocol's send followed by its commit. */
  lemma FireIsSendThenCommit(cfg: Option<Config>, w: World, a: Actor, error: Option<SendError>, nextAt: int)
    requires Enabled(w, Step(a, ScanFire(error)))
    ensures var sent := DoScan(cfg, w, a, ScanFire(error));
            var end := if sent.actors[a].ScanSent? then DoScan(cfg, sent, a, ScanCommit(nextAt)) else sent;
            end.db == Fired(cfg, w.db, w.actors[a].job, error, nextAt) && end.lock.None?
  {
  }

  function MessageSteps(a: Actor, results: seq<ReplyResult>): seq<Step>
    decreases |results|
  {
    if results == [] then [Step(a, DrainEnd)]
    else if results[0].NotAnswered? then [Step(a, DrainMessage(results[0]))]
    else [Step(a, DrainMessage(results[0]))] + MessageSteps(a, results[1..])
  }

  lemma {:induction false} MessagesAnswer(cfg: Option<Config>, w: World, a: Actor, results: seq<ReplyResult>)
    requires a in w.actors && w.actors[a].Draining? && (results == [] ==> w.actors[a].began)
    ensures var end := Run(cfg, w, MessageSteps(a, results));
            && end.Some? && end.value.lock.None?
            && end.value.db == Answers(cfg, if w.actors[a].began then w.db else Begin(w.db), results, w.chains)
    decreases |results|
  {
    var s := MessageSteps(a, results)[0];
    var after := Do(cfg, w, s);
    assert Run(cfg, w, MessageSteps(a, results)) == Run(cfg, after, MessageSteps(a, results)[1..]);
    if results == [] || results[0].NotAnswered? {
      assert MessageSteps(a, results)[1..] == [];
      return;
    }
    assert MessageSteps(a, results)[1..] == MessageSteps(a, results[1..]);
    MessagesAnswer(cfg, after, a, results[1..]);
  }

  /** A drain that found messages is the protocol's run of one drain. */
  lemma DrainIsItsSteps(cfg: Option<Config>, w: World, a: Actor, results: seq<ReplyResult>)
    requires w.lock.None? && a !in w.actors
    ensures var end := Run(cfg, w, [Step(a, DrainTryLock)] + MessageSteps(a, results));
            && end.Some? && end.value.lock.None?
            && end.value.db == if results == [] then w.db else Answers(cfg, Begin(w.db), results, w.chains)
  {
    var s := Step(a, DrainTryLock);
    var locked := Do(cfg, w, s);
    assert ([s] + MessageSteps(a, results))[1..] == MessageSteps(a, results);
    if results != [] {
      MessagesAnswer(cfg, locked, a, results);
      return;
    }
    var end := Do(cfg, locked, Step(a, DrainEnd));
    assert Run(cfg, end, []) == Some(end);
    assert Run(cfg, locked, [Step(a, DrainEnd)]) == Run(cfg, end, [Step(a, DrainEnd)][1..]);
  }
}
