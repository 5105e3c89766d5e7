/** Follow-ups of one lead: the scheduler (src/ai_sdr/follow_up/scheduler.py), the
    scanner (src/ai_sdr/worker/jobs/follow_up_scanner.py) and the v1 inbox drain
    (src/ai_sdr/worker/jobs/inbound.py), which serialize on the lead's advisory lock.

    Every step is atomic; the scanner reads its batch without the lock and sends before
    it commits. Clock readings, replies and provider results are arbitrary. */
module FollowUp {
  import opened Wrappers

  type Actor = nat

  datatype JobStatus = Pending | Completed | Cancelled | Failed

  /** `chain` numbers the reply the job descends from; it is not a column. */
  datatype Job = Job(attempt: int, at: int, chain: nat, status: JobStatus)

  datatype FlowStatus = Live | Cold | Done

  /** The `follow_up` block pinned to the talkflow; `steps` is the sequence's length. */
  datatype Config = Config(enabled: bool, max: int, steps: nat)

  /** What the schema validator accepts. */
  predicate Validated(cfg: Config) {
    1 <= cfg.max <= 10 && (cfg.enabled ==> cfg.max <= cfg.steps)
  }

  /** The committed rows. */
  datatype Db = Db(jobs: seq<Job>, flow: FlowStatus, lastLead: Option<int>)

  datatype Verdict = NotPending | Withdraw | OutOfRange | Send

  /** Python's `sequence[attempt - 1]` raises: an index below zero counts from the end. */
  predicate OffTheEnd(attempt: int, steps: nat) {
    attempt - 1 >= steps || attempt - 1 + steps < 0
  }

  /** The checks `_fire_follow_up` makes under the lock. */
  function Judge(cfg: Option<Config>, db: Db, j: nat): Verdict
    requires j < |db.jobs|
  {
    var job := db.jobs[j];
    if !job.status.Pending? then NotPending
    else if db.lastLead.Some? && db.lastLead.value > job.at then Withdraw
    else if !db.flow.Live? then Withdraw
    else if cfg.None? || !cfg.value.enabled then Withdraw
    else if OffTheEnd(job.attempt, cfg.value.steps) then OutOfRange
    else Send
  }

  function Mark(db: Db, j: nat, status: JobStatus): Db
    requires j < |db.jobs|
  {
    db.(jobs := db.jobs[j := db.jobs[j].(status := status)])
  }

  function CancelPending(db: Db): Db {
    db.(jobs := seq(|db.jobs|, i requires 0 <= i < |db.jobs| =>
                  if db.jobs[i].status.Pending? then db.jobs[i].(status := Cancelled) else db.jobs[i]))
  }

  function Schedule(db: Db, attempt: int, at: int, chain: nat): Db {
    db.(jobs := db.jobs + [Job(attempt, at, chain, Pending)])
  }

  /** A delivered template: the job is done, and either the flow goes cold or the next
      attempt is scheduled. */
  function Delivered(cfg: Config, db: Db, j: nat, nextAt: int): Db
    requires j < |db.jobs|
  {
    var job, marked := db.jobs[j], Mark(db, j, Completed);
    if job.attempt >= cfg.max then marked.(flow := Cold)
    else Schedule(marked, job.attempt + 1, nextAt, job.chain)
  }

  datatype SendError = Unreachable | Rejected

  function Undelivered(db: Db, j: nat, e: SendError): Db
    requires j < |db.jobs|
  {
    Mark(if e.Unreachable? then CancelPending(db) else db, j, Failed)
  }

  /** The drain's preamble: cancel what is pending, wake a cold flow. */
  function Begin(db: Db): Db {
    CancelPending(db).(flow := if db.flow.Cold? then Live else db.flow)
  }

  function Finish(db: Db, finished: bool): Db {
    db.(flow := if finished then Done else db.flow)
  }

  /** A reply the provider took; `finished` when the conversation reached its end. */
  function Replied(cfg: Option<Config>, db: Db, received: int, at: int, chain: nat, finished: bool): Db {
    var noted := Finish(db, finished).(lastLead := Some(received));
    if Schedules(cfg) then Schedule(noted, 1, at, chain) else noted
  }

  predicate Schedules(cfg: Option<Config>) {
    cfg.Some? && cfg.value.enabled && cfg.value.steps > 0
  }

  /** What became of one queued message; the drain stops at the first it cannot answer. */
  datatype ReplyResult = Answered(received: int, nextAt: int, finished: bool) | NotAnswered(finished: bool)

  /** The rows once a drain has gone through `results`; `chain` numbers its first reply. */
  function Answers(cfg: Option<Config>, db: Db, results: seq<ReplyResult>, chain: nat): Db
    decreases |results|
  {
    if results == [] then db
    else if results[0].NotAnswered? then Finish(db, results[0].finished)
    else
      var r := results[0];
      Answers(cfg, Replied(cfg, db, r.received, r.nextAt, chain, r.finished), results[1..],
              if Schedules(cfg) then chain + 1 else chain)
  }

  /** What one dispatch under the lock makes of the rows. */
  function Fired(cfg: Option<Config>, db: Db, j: nat, error: Option<SendError>, nextAt: int): Db
    requires j < |db.jobs|
  {
    match Judge(cfg, db, j)
    case NotPending => db
    case Withdraw => Mark(db, j, Cancelled)
    case OutOfRange => Mark(db, j, Failed)
    case Send =>
      if error.Some? then Undelivered(db, j, error.value) else Delivered(cfg.value, db, j, nextAt)
  }

  /** The same steps on the stored rows. */
  class FollowUpStore {
    var jobs: seq<Job>
    var flow: FlowStatus
    var lastLead: Option<int>

    constructor ()
      ensures Rows() == Db([], Live, None)
    {
      jobs, flow, lastLead := [], Live, None;
    }

    function Rows(): Db
      reads this
    {
      Db(jobs, flow, lastLead)
    }

    method CancelAllPending() returns (n: nat)
      modifies this`jobs
      ensures Rows() == CancelPending(old(Rows()))
      ensures n == 0 <==> forall i | 0 <= i < |old(jobs)| :: !old(jobs)[i].status.Pending?
    {
      n := 0;
      ghost var before := jobs;
      for i := 0 to |jobs|
        invariant |jobs| == |before|
        invariant forall k | 0 <= k < i :: jobs[k] == if before[k].status.Pending? then before[k].(status := Cancelled) else before[k]
        invariant forall k | i <= k < |jobs| :: jobs[k] == before[k]
        invariant n == 0 <==> forall k | 0 <= k < i :: !before[k].status.Pending?
      {
        if jobs[i].status.Pending? {
          jobs := jobs[i := jobs[i].(status := Cancelled)];
          n := n + 1;
        }
      }
    }

    method SetStatus(j: nat, status: JobStatus)
      requires j < |jobs|
      modifies this`jobs
      ensures Rows() == Mark(old(Rows()), j, status)
    {
      jobs := jobs[j := jobs[j].(status := status)];
    }

    /** `_fire_follow_up` once it holds the lock; `error` is what the provider says. */
    method Fire(cfg: Option<Config>, j: nat, error: Option<SendError>, nextAt: int) returns (sent: bool)
      requires j < |jobs|
      modifies this
      ensures sent <==> Judge(cfg, old(Rows()), j).Send? && error.None?
      ensures Rows() == Fired(cfg, old(Rows()), j, error, nextAt)
    {
      if !jobs[j].status.Pending? {
        return false;
      }
      if (lastLead.Some? && lastLead.value > jobs[j].at) || !flow.Live? || cfg.None? || !cfg.value.enabled {
        SetStatus(j, Cancelled);
        return false;
      }
      var job := jobs[j];
      if OffTheEnd(job.attempt, cfg.value.steps) {
        SetStatus(j, Failed);
        return false;
      }
      if error.Some? {
        if error.value.Unreachable? {
          var _ := CancelAllPending();
        }
        SetStatus(j, Failed);
        return false;
      }
      SetStatus(j, Completed);
      var becameCold := MarkColdIfExhausted(cfg.value, job.attempt);
      if !becameCold {
        ScheduleNext(job.attempt + 1, nextAt, job.chain);
      }
      return true;
    }

    method MarkColdIfExhausted(cfg: Config, lastAttempt: int) returns (cold: bool)
      modifies this`flow
      ensures cold <==> lastAttempt >= cfg.max
      ensures flow == if cold then Cold else old(flow)
    {
      if lastAttempt >= cfg.max {
        flow := Cold;
        return true;
      }
      return false;
    }

    method ScheduleNext(attempt: int, at: int, chain: nat)
      modifies this`jobs
      ensures Rows() == Schedule(old(Rows()), attempt, at, chain)
    {
      jobs := jobs + [Job(attempt, at, chain, Pending)];
    }

    /** `process_lead_inbox` under the lock: nothing is committed unless a message was there. */
    method Drain(cfg: Option<Config>, results: seq<ReplyResult>, chain: nat)
      modifies this
      ensures Rows() == if results == [] then old(Rows()) else Answers(cfg, Begin(old(Rows())), results, chain)
    {
      var jobsBefore, flowBefore := jobs, flow;
      var _ := CancelAllPending();
      if flow.Cold? {
        flow := Live;
      }
      if results == [] {
        jobs, flow := jobsBefore, flowBefore;
        return;
      }
      ghost var start := Rows();
      var i, c := 0, chain;
      while i < |results|
        invariant 0 <= i <= |results|
        invariant Answers(cfg, Rows(), results[i..], c) == Answers(cfg, start, results, chain)
      {
        var r := results[i];
        assert results[i..][1..] == results[i + 1..];
        if r.finished {
          flow := Done;
        }
        if r.NotAnswered? {
          return;
        }
        lastLead := Some(r.received);
        if Schedules(cfg) {
          ScheduleNext(1, r.nextAt, c);
          c := c + 1;
        }
        i := i + 1;
      }
    }
  }

  // ---------------------------------------------------------------- protocol

  datatype Pc =
    | Scanning(left: seq<nat>)
    | ScanLocked(job: nat, left: seq<nat>)
    | ScanSent(job: nat, left: seq<nat>)
    | Draining(began: bool)

  datatype Event = Sent(job: nat, chain: nat, attempt: int) | DrainCancelled(jobs: set<nat>)

  datatype World = World(db: Db, lock: Option<Actor>, actors: map<Actor, Pc>, chains: nat, log: seq<Event>)

  const START := World(Db([], Live, None), None, map[], 0, [])

  datatype Action =
    /** The unlocked batch of due jobs. */
    | ScanRead(batch: seq<nat>)
    | ScanTryLock
    | ScanFire(error: Option<SendError>)
    | ScanCommit(nextAt: int)
    /** An exception before anything was sent. */
    | ScanGiveUp
    | DrainTryLock
    | DrainMessage(result: ReplyResult)
    | DrainEnd
    /** A crash between sending and committing. */
    | Crash
    /** The command-line cancel, which takes no lock. */
    | CliCancel

  datatype Step = Step(actor: Actor, action: Action)

  predicate At(w: World, a: Actor) {
    a in w.actors
  }

  predicate Enabled(w: World, s: Step) {
    var a := s.actor;
    match s.action
    case ScanRead(batch) => a !in w.actors && forall j | j in batch :: j < |w.db.jobs| && w.db.jobs[j].status.Pending?
    case ScanTryLock => At(w, a) && w.actors[a].Scanning? && w.actors[a].left != []
    case ScanFire(_) => At(w, a) && w.actors[a].ScanLocked? && w.actors[a].job < |w.db.jobs|
    case ScanCommit(_) => At(w, a) && w.actors[a].ScanSent? && w.actors[a].job < |w.db.jobs|
    case ScanGiveUp => At(w, a) && w.actors[a].ScanLocked?
    case DrainTryLock => a !in w.actors
    case DrainMessage(_) => At(w, a) && w.actors[a].Draining?
    case DrainEnd => At(w, a) && w.actors[a].Draining?
    case Crash => At(w, a) && w.actors[a].ScanSent?
    case CliCancel => true
  }

  function SetPc(w: World, a: Actor, pc: Pc): World {
    w.(actors := w.actors[a := pc])
  }

  function Unlocked(w: World, a: Actor, left: seq<nat>): World {
    SetPc(w.(lock := None), a, Scanning(left))
  }

  function Leave(w: World, a: Actor): World {
    w.(lock := None, actors := w.actors - {a})
  }

  function PendingJobs(db: Db): set<nat> {
    set i | 0 <= i < |db.jobs| && db.jobs[i].status.Pending?
  }

  function DoScan(cfg: Option<Config>, w: World, a: Actor, action: Action): World
    requires Enabled(w, Step(a, action))
    requires action.ScanTryLock? || action.ScanFire? || action.ScanCommit? || action.ScanGiveUp?
  {
    var pc := w.actors[a];
    match action
    case ScanTryLock =>
      if w.lock.None? then SetPc(w.(lock := Some(a)), a, ScanLocked(pc.left[0], pc.left[1..]))
      else SetPc(w, a, Scanning(pc.left[1..]))
    case ScanFire(error) =>
      (match Judge(cfg, w.db, pc.job)
       case NotPending => Unlocked(w, a, pc.left)
       case Withdraw => Unlocked(w.(db := Mark(w.db, pc.job, Cancelled)), a, pc.left)
       case OutOfRange => Unlocked(w.(db := Mark(w.db, pc.job, Failed)), a, pc.left)
       case Send =>
         if error.Some? then Unlocked(w.(db := Undelivered(w.db, pc.job, error.value)), a, pc.left)
         else
           var job := w.db.jobs[pc.job];
           SetPc(w.(log := w.log + [Sent(pc.job, job.chain, job.attempt)]), a, ScanSent(pc.job, pc.left)))
    case ScanCommit(nextAt) =>
      if cfg.None? then Unlocked(w, a, pc.left)
      else Unlocked(w.(db := Delivered(cfg.value, w.db, pc.job, nextAt)), a, pc.left)
    case ScanGiveUp => Unlocked(w, a, pc.left)
  }

  /** The first commit of a drain also commits its preamble. */
  function Begun(w: World, began: bool): World {
    if began then w else w.(db := Begin(w.db), log := w.log + [DrainCancelled(PendingJobs(w.db))])
  }

  function DoDrain(cfg: Option<Config>, w: World, a: Actor, action: Action): World
    requires Enabled(w, Step(a, action))
    requires action.DrainTryLock? || action.DrainMessage? || action.DrainEnd?
  {
    match action
    case DrainTryLock => if w.lock.None? then SetPc(w.(lock := Some(a)), a, Draining(false)) else w
    case DrainMessage(result) =>
      var begun := Begun(w, w.actors[a].began);
      (match result
       case NotAnswered(finished) => Leave(begun.(db := Finish(begun.db, finished)), a)
       case Answered(received, nextAt, finished) =>
         SetPc(begun.(db := Replied(cfg, begun.db, received, nextAt, w.chains, finished),
                      chains := if Schedules(cfg) then w.chains + 1 else w.chains), a, Draining(true)))
    case DrainEnd => Leave(w, a)
  }

  function Do(cfg: Option<Config>, w: World, s: Step): World
    requires Enabled(w, s)
  {
    match s.action
    case ScanRead(batch) => SetPc(w, s.actor, Scanning(batch))
    case DrainTryLock => DoDrain(cfg, w, s.actor, s.action)
    case DrainMessage(_) => DoDrain(cfg, w, s.actor, s.action)
    case DrainEnd => DoDrain(cfg, w, s.actor, s.action)
    case Crash => Leave(w, s.actor)
    case CliCancel => w.(db := CancelPending(w.db))
    case _ => DoScan(cfg, w, s.actor, s.action)
  }

  function Run(cfg: Option<Config>, w: World, steps: seq<Step>): Option<World>
    decreases |steps|
  {
    if steps == [] then Some(w)
    else if Enabled(w, steps[0]) then Run(cfg, Do(cfg, w, steps[0]), steps[1..])
    else None
  }

  // -------------------------------------------------------------- invariant

  predicate WasSent(log: seq<Event>, j: nat) {
    exists e | e in log :: e.Sent? && e.job == j
  }

  /** The attempts sent within a chain, in order, leaving out repeated sends of a job. */
  ghost function Attempts(log: seq<Event>, chain: nat): (r: seq<int>) {
    if log == [] then []
    else
      var e, before := log[|log| - 1], log[..|log| - 1];
      if e.Sent? && e.chain == chain && !WasSent(before, e.job) then Attempts(before, chain) + [e.attempt]
      else Attempts(before, chain)
  }

  ghost function Upto(k: nat): (r: seq<int>) {
    seq(k, i requires 0 <= i < k => i + 1)
  }

  /** The stored rows, the events, and the job whose template is out but not committed. */
  datatype Data = Data(db: Db, chains: nat, log: seq<Event>, flight: Option<nat>)

  function InFlight(w: World): Option<nat> {
    if w.lock.Some? && w.lock.value in w.actors && w.actors[w.lock.value].ScanSent?
    then Some(w.actors[w.lock.value].job) else None
  }

  function DataOf(w: World): Data {
    Data(w.db, w.chains, w.log, InFlight(w))
  }

  predicate IsOn(cfg: Option<Config>) {
    cfg.Some? && cfg.value.enabled
  }

  /** A job that may still be sent or committed. */
  predicate Open(d: Data, j: nat)
    requires j < |d.db.jobs|
  {
    d.db.jobs[j].status.Pending? || d.flight == Some(j)
  }

  /** An open job is the next attempt of its chain, or the last one if it went out already. */
  ghost predicate JobOk(cfg: Option<Config>, d: Data, j: nat)
    requires j < |d.db.jobs|
  {
    var job := d.db.jobs[j];
    && job.chain < d.chains && IsOn(cfg) && 1 <= job.attempt <= cfg.value.max
    && (Open(d, j) ==> job.attempt == |Attempts(d.log, job.chain)| + if WasSent(d.log, j) then 0 else 1)
  }

  ghost predicate ChainOk(cfg: Option<Config>, d: Data, c: nat) {
    && Attempts(d.log, c) == Upto(|Attempts(d.log, c)|)
    && (c >= d.chains ==> Attempts(d.log, c) == [])
    && (Attempts(d.log, c) != [] ==> IsOn(cfg) && |Attempts(d.log, c)| <= cfg.value.max)
  }

  ghost predicate EventOk(d: Data, e: Event) {
    match e
    case Sent(j, chain, attempt) => j < |d.db.jobs| && d.db.jobs[j].chain == chain && d.db.jobs[j].attempt == attempt
    case DrainCancelled(js) =>
      forall j | j in js :: j < |d.db.jobs| && d.db.jobs[j].status.Cancelled? && d.flight != Some(j)
  }

  ghost predicate OnePerChain(d: Data) {
    forall i, j | 0 <= i < |d.db.jobs| && 0 <= j < |d.db.jobs| && Open(d, i) && Open(d, j)
                  && d.db.jobs[i].chain == d.db.jobs[j].chain :: i == j
  }

  /** No job is sent after a drain cancelled it. */
  ghost predicate GoodLog(log: seq<Event>) {
    forall i, k | 0 <= i < k < |log| && log[i].DrainCancelled? && log[k].Sent? :: log[k].job !in log[i].jobs
  }

  ghost predicate DataInv(cfg: Option<Config>, d: Data) {
    && (forall j | 0 <= j < |d.db.jobs| :: JobOk(cfg, d, j))
    && OnePerChain(d)
    && (forall c: nat :: ChainOk(cfg, d, c))
    && (forall e | e in d.log :: EventOk(d, e))
    && GoodLog(d.log)
    && (d.flight.Some? ==>
          && d.flight.value < |d.db.jobs| && WasSent(d.log, d.flight.value)
          && d.db.flow.Live? && IsOn(cfg)
          && (d.db.lastLead.Some? ==> d.db.lastLead.value <= d.db.jobs[d.flight.value].at))
  }

  predicate Holds(pc: Pc) {
    pc.ScanLocked? || pc.ScanSent? || pc.Draining?
  }

  ghost predicate LockInv(w: World) {
    && (forall a | a in w.actors :: Holds(w.actors[a]) <==> w.lock == Some(a))
    && (w.lock.Some? ==> w.lock.value in w.actors)
    && (forall a | a in w.actors :: InRange(w.actors[a], |w.db.jobs|))
  }

  predicate InRange(pc: Pc, n: nat) {
    match pc
    case Scanning(left) => forall j | j in left :: j < n
    case ScanLocked(j, left) => j < n && forall i | i in left :: i < n
    case ScanSent(j, left) => j < n && forall i | i in left :: i < n
    case Draining(_) => true
  }

  ghost predicate Inv(cfg: Option<Config>, w: World) {
    LockInv(w) && DataInv(cfg, DataOf(w))
  }

  // ----------------------------------------------------- data transitions

  lemma WasSentSnoc(log: seq<Event>, e: Event, j: nat)
    ensures WasSent(log + [e], j) <==> WasSent(log, j) || (e.Sent? && e.job == j)
  {
    if WasSent(log, j) {
      var x :| x in log && x.Sent? && x.job == j;
      assert x in log + [e];
    }
    assert e in log + [e];
  }

  lemma AttemptsSnoc(log: seq<Event>, e: Event, c: nat)
    ensures Attempts(log + [e], c)
         == Attempts(log, c) + if e.Sent? && e.chain == c && !WasSent(log, e.job) then [e.attempt] else []
  {
    assert (log + [e])[..|log|] == log;
  }

  lemma UptoSnoc(k: nat)
    ensures Upto(k) + [k + 1] == Upto(k + 1)
  {
  }

  /** Closing jobs, and landing the one in flight, keeps everything. */
  lemma CloseKeeps(cfg: Option<Config>, d: Data, after: Data)
    requires DataInv(cfg, d)
    requires after.chains == d.chains && after.log == d.log && (after.flight == d.flight || after.flight.None?)
    requires |after.db.jobs| == |d.db.jobs|
    requires after.flight.Some? ==> after.db == d.db.(jobs := after.db.jobs)
    requires forall j | 0 <= j < |d.db.jobs| :: Closes(d, after, j)
    ensures DataInv(cfg, after)
  {
    hide GoodLog, Attempts, Upto, WasSent;
    forall j | 0 <= j < |after.db.jobs| ensures JobOk(cfg, after, j) {
      assert JobOk(cfg, d, j) && Closes(d, after, j);
    }
    forall i, j | 0 <= i < |after.db.jobs| && 0 <= j < |after.db.jobs| && Open(after, i) && Open(after, j)
                  && after.db.jobs[i].chain == after.db.jobs[j].chain
      ensures i == j
    {
      assert Closes(d, after, i) && Closes(d, after, j);
    }
    forall e | e in after.log ensures EventOk(after, e) {
      assert EventOk(d, e);
      if e.Sent? {
        assert Closes(d, after, e.job);
      } else {
        assert forall j | j in e.jobs :: Closes(d, after, j);
      }
    }
    forall c: nat ensures ChainOk(cfg, after, c) {
      assert ChainOk(cfg, d, c);
    }
    if after.flight.Some? {
      assert Closes(d, after, after.flight.value);
    }
  }

  /** Job `j` changes at most its status, to one that is not pending, and stays cancelled. */
  predicate Closes(d: Data, after: Data, j: nat)
    requires j < |d.db.jobs| && j < |after.db.jobs|
  {
    && after.db.jobs[j] == d.db.jobs[j].(status := after.db.jobs[j].status)
    && (after.db.jobs[j].status.Pending? ==> d.db.jobs[j].status.Pending?)
    && (d.db.jobs[j].status.Cancelled? && d.flight != Some(j) ==> after.db.jobs[j].status.Cancelled?)
  }

  lemma MarkKeeps(cfg: Option<Config>, d: Data, j: nat, status: JobStatus)
    requires DataInv(cfg, d) && d.flight.None?
    requires j < |d.db.jobs| && d.db.jobs[j].status.Pending? && !status.Pending?
    ensures DataInv(cfg, d.(db := Mark(d.db, j, status)))
  {
    CloseKeeps(cfg, d, d.(db := Mark(d.db, j, status)));
  }

  lemma CancelKeeps(cfg: Option<Config>, d: Data)
    requires DataInv(cfg, d)
    ensures DataInv(cfg, d.(db := CancelPending(d.db)))
  {
    CloseKeeps(cfg, d, d.(db := CancelPending(d.db)));
  }

  lemma FlowKeeps(cfg: Option<Config>, d: Data, flow: FlowStatus, lastLead: Option<int>)
    requires DataInv(cfg, d) && d.flight.None?
    ensures DataInv(cfg, d.(db := d.db.(flow := flow, lastLead := lastLead)))
  {
    CloseKeeps(cfg, d, d.(db := d.db.(flow := flow, lastLead := lastLead)));
  }

  lemma UndeliveredKeeps(cfg: Option<Config>, d: Data, j: nat, e: SendError)
    requires DataInv(cfg, d) && d.flight.None? && j < |d.db.jobs| && d.db.jobs[j].status.Pending?
    ensures DataInv(cfg, d.(db := Undelivered(d.db, j, e)))
  {
    MarkKeeps(cfg, d, j, Failed);
    if e.Unreachable? {
      CancelKeeps(cfg, d.(db := Mark(d.db, j, Failed)));
      assert CancelPending(Mark(d.db, j, Failed)) == Mark(CancelPending(d.db), j, Failed);
    }
  }

  lemma CrashKeeps(cfg: Option<Config>, d: Data)
    requires DataInv(cfg, d)
    ensures DataInv(cfg, d.(flight := None))
  {
    CloseKeeps(cfg, d, d.(flight := None));
  }

  lemma SendKeeps(cfg: Option<Config>, d: Data, j: nat)
    requires DataInv(cfg, d) && d.flight.None? && j < |d.db.jobs| && Judge(cfg, d.db, j).Send?
    ensures var job := d.db.jobs[j];
            DataInv(cfg, d.(log := d.log + [Sent(j, job.chain, job.attempt)], flight := Some(j)))
  {
    var job := d.db.jobs[j];
    var e := Sent(j, job.chain, job.attempt);
    var after := d.(log := d.log + [e], flight := Some(j));
    assert JobOk(cfg, d, j);
    hide Attempts, Upto, WasSent;
    forall c: nat ensures ChainOk(cfg, after, c) {
      AttemptsSnoc(d.log, e, c);
      assert ChainOk(cfg, d, c);
      UptoSnoc(|Attempts(d.log, c)|);
    }
    forall i | 0 <= i < |d.db.jobs| ensures JobOk(cfg, after, i) {
      assert JobOk(cfg, d, i);
      AttemptsSnoc(d.log, e, d.db.jobs[i].chain);
      WasSentSnoc(d.log, e, i);
    }
    forall x | x in after.log ensures EventOk(after, x) {
      assert x != e ==> EventOk(d, x);
    }
    WasSentSnoc(d.log, e, j);
    SendKeepsLog(d, j);
  }

  lemma SendKeepsLog(d: Data, j: nat)
    requires (forall e | e in d.log :: EventOk(d, e)) && GoodLog(d.log)
    requires j < |d.db.jobs| && d.db.jobs[j].status.Pending?
    ensures GoodLog(d.log + [Sent(j, d.db.jobs[j].chain, d.db.jobs[j].attempt)])
  {
    assert forall i | 0 <= i < |d.log| :: d.log[i] in d.log;
  }

  lemma NewJobIsUnsent(cfg: Option<Config>, d: Data)
    requires DataInv(cfg, d)
    ensures !WasSent(d.log, |d.db.jobs|)
  {
    forall e | e in d.log ensures e.Sent? ==> e.job < |d.db.jobs| {
      assert EventOk(d, e);
    }
  }

  /** A further job, alone open in its chain and the chain's next attempt. */
  lemma AppendKeeps(cfg: Option<Config>, d: Data, job: Job, chains: nat)
    requires DataInv(cfg, d) && d.flight.None? && d.chains <= chains
    requires job.status.Pending? && job.chain < chains && IsOn(cfg) && 1 <= job.attempt <= cfg.value.max
    requires job.attempt == |Attempts(d.log, job.chain)| + 1
    requires forall i | 0 <= i < |d.db.jobs| && d.db.jobs[i].status.Pending? :: d.db.jobs[i].chain != job.chain
    ensures DataInv(cfg, d.(db := d.db.(jobs := d.db.jobs + [job]), chains := chains))
  {
    NewJobIsUnsent(cfg, d);
    hide GoodLog, Attempts, Upto, WasSent;
    var after := d.(db := d.db.(jobs := d.db.jobs + [job]), chains := chains);
    forall i | 0 <= i < |after.db.jobs| ensures JobOk(cfg, after, i) {
      if i < |d.db.jobs| {
        assert JobOk(cfg, d, i);
      }
    }
    forall e | e in after.log ensures EventOk(after, e) {
      assert EventOk(d, e);
    }
    forall c: nat ensures ChainOk(cfg, after, c) {
      assert ChainOk(cfg, d, c);
    }
  }

  lemma DeliveredKeeps(cfg: Option<Config>, d: Data, nextAt: int)
    requires DataInv(cfg, d) && d.flight.Some?
    ensures DataInv(cfg, d.(db := Delivered(cfg.value, d.db, d.flight.value, nextAt), flight := None))
  {
    var j := d.flight.value;
    var job := d.db.jobs[j];
    var marked := Mark(d.db, j, Completed);
    var after := d.(db := Delivered(cfg.value, d.db, j, nextAt), flight := None);
    assert JobOk(cfg, d, j);
    hide GoodLog, Attempts, Upto, WasSent;
    if job.attempt >= cfg.value.max {
      CloseKeeps(cfg, d, after);
      return;
    }
    var landed := d.(db := marked, flight := None);
    CloseKeeps(cfg, d, landed);
    AppendKeeps(cfg, landed, Job(job.attempt + 1, nextAt, job.chain, Pending), d.chains);
  }

  lemma ScheduleKeeps(cfg: Option<Config>, d: Data, at: int)
    requires DataInv(cfg, d) && d.flight.None? && IsOn(cfg) && 1 <= cfg.value.max
    ensures DataInv(cfg, d.(db := Schedule(d.db, 1, at, d.chains), chains := d.chains + 1))
  {
    assert ChainOk(cfg, d, d.chains);
    forall i | 0 <= i < |d.db.jobs| ensures d.db.jobs[i].chain < d.chains {
      assert JobOk(cfg, d, i);
    }
    hide DataInv, Attempts;
    AppendKeeps(cfg, d, Job(1, at, d.chains, Pending), d.chains + 1);
  }

  /** The drain's preamble, logged as the set of jobs it cancelled. */
  lemma BeginKeeps(cfg: Option<Config>, d: Data)
    requires DataInv(cfg, d) && d.flight.None?
    ensures DataInv(cfg, d.(db := Begin(d.db), log := d.log + [DrainCancelled(PendingJobs(d.db))]))
  {
    var e := DrainCancelled(PendingJobs(d.db));
    var begun := d.(db := Begin(d.db));
    CloseKeeps(cfg, d, begun);
    var after := begun.(log := d.log + [e]);
    hide Attempts, Upto, WasSent;
    forall c: nat ensures ChainOk(cfg, after, c) {
      AttemptsSnoc(d.log, e, c);
      assert ChainOk(cfg, begun, c);
    }
    forall i | 0 <= i < |d.db.jobs| ensures JobOk(cfg, after, i) {
      assert JobOk(cfg, begun, i);
      AttemptsSnoc(d.log, e, begun.db.jobs[i].chain);
      WasSentSnoc(d.log, e, i);
    }
    forall x | x in after.log ensures EventOk(after, x) {
      assert x != e ==> EventOk(begun, x);
    }
  }
}
