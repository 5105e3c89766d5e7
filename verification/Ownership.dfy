/** Who owns a conversation: `run_turn` (src/ai_sdr/flowengine/pipeline.py), operator
    takeover and release (src/ai_sdr/api/routes/console_inbox.py) and the talk scanner
    (src/ai_sdr/worker/jobs/scan_talks.py) interleaving over one lead's talks.

    Every function below is one atomic step of one actor. `talks` holds committed rows,
    `lock` the lead's advisory lock, `rows` the talk rows with an uncommitted write. */
module Ownership {
  import opened Wrappers

  type Actor = nat

  type TalkId = nat

  datatype Mode = Ai | Human

  datatype Status = Active | RequiresReview | Closed

  datatype Talk = Talk(mode: Mode, status: Status)

  datatype Pc =
    | TurnChose(talk: TalkId) | TurnLocked(talk: TalkId) | TurnGated(talk: TalkId)
    | TakeChose(talk: TalkId) | TakeLocked(talk: TalkId) | TakeWrote(talk: TalkId)
    | FreeChose(talk: TalkId) | FreeWrote(talk: TalkId)
    | Scanning(left: seq<TalkId>, closed: nat) | ScanWrote(talk: TalkId, left: seq<TalkId>, closed: nat)
    | Finished(closed: nat)

  datatype Event = TookOver(talk: TalkId) | Released(talk: TalkId) | AiSent(talk: TalkId) | ScanClosed(talk: TalkId, scan: Actor)

  datatype World = World(
    talks: map<TalkId, Talk>, lock: Option<Actor>, rows: map<TalkId, Actor>, actors: map<Actor, Pc>, log: seq<Event>)

  const START := World(map[], None, map[], map[], [])

  datatype TurnAction =
    /** Preprocessing: pick the newest open talk, or open one when the lead has none. */
    | TurnOpen(talk: TalkId)
    | TurnLock
    /** Refresh the row under the lock; a human-held talk ends the turn. */
    | TurnGate
    | TurnSend
    /** `status` is what the turn writes, if anything. */
    | TurnCommit(status: Option<Status>)

  datatype TakeAction =
    | TakeSelect(talk: TalkId)
    | TakeLock
    /** The conditional update; a talk already in human hands ends the request. */
    | TakeUpdate
    | TakeCommit

  datatype FreeAction = FreeSelect(talk: TalkId) | FreeUpdate | FreeCommit

  datatype ScanAction =
    | ScanRead(candidates: seq<TalkId>)
    /** The candidate is not due, or its row is locked or no longer matches. */
    | ScanSkip
    | ScanLock
    | ScanCommit

  /** `Abort` is any failure: the transaction rolls back. */
  datatype Action = Turn(turn: TurnAction) | Take(take: TakeAction) | Free(free: FreeAction) | Scan(scan: ScanAction) | Abort

  datatype Step = Step(actor: Actor, action: Action)

  predicate IsOpen(w: World, t: TalkId) {
    t in w.talks && !w.talks[t].status.Closed?
  }

  /** The talk that lookups by creation time, newest first, find: ids follow creation. */
  predicate IsNewest(w: World, t: TalkId) {
    IsOpen(w, t) && forall u | u in w.talks && IsOpen(w, u) :: u <= t
  }

  predicate NoneOpen(w: World) {
    forall u | u in w.talks :: !IsOpen(w, u)
  }

  predicate IsNew(w: World, t: TalkId) {
    forall u | u in w.talks :: u < t
  }

  predicate At(w: World, a: Actor) {
    a in w.actors
  }

  predicate CanTurn(w: World, a: Actor, action: TurnAction) {
    match action
    case TurnOpen(t) => a !in w.actors && (IsNewest(w, t) || (NoneOpen(w) && IsNew(w, t)))
    case TurnLock => At(w, a) && w.actors[a].TurnChose? && w.lock.None?
    case TurnGate => At(w, a) && w.actors[a].TurnLocked?
    case TurnSend => At(w, a) && w.actors[a].TurnGated?
    case TurnCommit(status) =>
      At(w, a) && w.actors[a].TurnGated? && w.actors[a].talk !in w.rows && status != Some(Active)
  }

  predicate CanTake(w: World, a: Actor, action: TakeAction) {
    match action
    case TakeSelect(t) => a !in w.actors && IsNewest(w, t)
    case TakeLock => At(w, a) && w.actors[a].TakeChose? && w.lock.None?
    case TakeUpdate => At(w, a) && w.actors[a].TakeLocked? && w.actors[a].talk !in w.rows
    case TakeCommit => At(w, a) && w.actors[a].TakeWrote?
  }

  predicate CanFree(w: World, a: Actor, action: FreeAction) {
    match action
    case FreeSelect(t) => a !in w.actors && IsNewest(w, t)
    case FreeUpdate => At(w, a) && w.actors[a].FreeChose? && w.actors[a].talk !in w.rows
    case FreeCommit => At(w, a) && w.actors[a].FreeWrote?
  }

  predicate CanScan(w: World, a: Actor, action: ScanAction) {
    match action
    case ScanRead(ts) => a !in w.actors && forall t | t in ts :: t in w.talks && w.talks[t] == Talk(Ai, Active)
    case ScanSkip => At(w, a) && w.actors[a].Scanning?
    case ScanLock =>
      && At(w, a) && w.actors[a].Scanning? && w.actors[a].left != []
      && w.actors[a].left[0] !in w.rows
      && w.actors[a].left[0] in w.talks && w.talks[w.actors[a].left[0]] == Talk(Ai, Active)
    case ScanCommit => At(w, a) && w.actors[a].ScanWrote? && w.actors[a].talk in w.talks
  }

  predicate Enabled(w: World, s: Step) {
    match s.action
    case Turn(action) => CanTurn(w, s.actor, action)
    case Take(action) => CanTake(w, s.actor, action)
    case Free(action) => CanFree(w, s.actor, action)
    case Scan(action) => CanScan(w, s.actor, action)
    case Abort => At(w, s.actor) && !w.actors[s.actor].Finished?
  }

  function SetPc(w: World, a: Actor, pc: Pc): World {
    w.(actors := w.actors[a := pc])
  }

  function Unlock(w: World, a: Actor): World {
    w.(lock := if w.lock == Some(a) then None else w.lock)
  }

  /** The end of an actor's transaction: its locks go. */
  function End(w: World, a: Actor): World {
    Unlock(w, a).(rows := map t | t in w.rows && w.rows[t] != a :: w.rows[t], actors := w.actors - {a})
  }

  function Log(w: World, e: Event): World {
    w.(log := w.log + [e])
  }

  function SetTalk(w: World, t: TalkId, talk: Talk): World {
    w.(talks := w.talks[t := talk])
  }

  /** A committed takeover or release. */
  function HandOver(w: World, t: TalkId, mode: Mode): World {
    Log(if t in w.talks then SetTalk(w, t, w.talks[t].(mode := mode)) else w,
        if mode.Human? then TookOver(t) else Released(t))
  }

  function CloseTalk(w: World, t: TalkId, scan: Actor): World
    requires t in w.talks
  {
    Log(SetTalk(w, t, w.talks[t].(status := Closed)), ScanClosed(t, scan))
  }

  function Counted(pc: Pc): nat {
    if pc.Scanning? || pc.ScanWrote? || pc.Finished? then pc.closed else 0
  }

  /** A rolled-back scan keeps what it had committed before. */
  function Aborted(w: World, a: Actor): World
    requires a in w.actors
  {
    var pc := w.actors[a];
    if pc.Scanning? || pc.ScanWrote? then SetPc(End(w, a), a, Finished(pc.closed)) else End(w, a)
  }

  function DoTurn(w: World, a: Actor, action: TurnAction): World
    requires CanTurn(w, a, action)
  {
    match action
    case TurnOpen(t) => SetPc(if t in w.talks then w else SetTalk(w, t, Talk(Ai, Active)), a, TurnChose(t))
    case TurnLock => SetPc(w.(lock := Some(a)), a, TurnLocked(w.actors[a].talk))
    case TurnGate =>
      var t := w.actors[a].talk;
      if t in w.talks && w.talks[t].mode.Ai? then SetPc(w, a, TurnGated(t)) else End(w, a)
    case TurnSend => Log(w, AiSent(w.actors[a].talk))
    case TurnCommit(status) =>
      var t := w.actors[a].talk;
      End(if status.Some? && t in w.talks then SetTalk(w, t, w.talks[t].(status := status.value)) else w, a)
  }

  function DoTake(w: World, a: Actor, action: TakeAction): World
    requires CanTake(w, a, action)
  {
    match action
    case TakeSelect(t) => SetPc(w, a, TakeChose(t))
    case TakeLock => SetPc(w.(lock := Some(a)), a, TakeLocked(w.actors[a].talk))
    case TakeUpdate =>
      var t := w.actors[a].talk;
      if t in w.talks && w.talks[t].mode.Ai? then SetPc(w.(rows := w.rows[t := a]), a, TakeWrote(t)) else End(w, a)
    case TakeCommit => HandOver(End(w, a), w.actors[a].talk, Human)
  }

  function DoFree(w: World, a: Actor, action: FreeAction): World
    requires CanFree(w, a, action)
  {
    match action
    case FreeSelect(t) => SetPc(w, a, FreeChose(t))
    case FreeUpdate =>
      var t := w.actors[a].talk;
      if t in w.talks && w.talks[t].mode.Human? then SetPc(w.(rows := w.rows[t := a]), a, FreeWrote(t)) else End(w, a)
    case FreeCommit => HandOver(End(w, a), w.actors[a].talk, Ai)
  }

  function DoScan(w: World, a: Actor, action: ScanAction): World
    requires CanScan(w, a, action)
  {
    match action
    case ScanRead(ts) => SetPc(w, a, Scanning(ts, 0))
    case ScanSkip =>
      var pc := w.actors[a];
      SetPc(w, a, if pc.left == [] then Finished(pc.closed) else Scanning(pc.left[1..], pc.closed))
    case ScanLock =>
      var pc := w.actors[a];
      SetPc(w.(rows := w.rows[pc.left[0] := a]), a, ScanWrote(pc.left[0], pc.left[1..], pc.closed))
    case ScanCommit =>
      var pc := w.actors[a];
      SetPc(CloseTalk(End(w, a), pc.talk, a), a, Scanning(pc.left, pc.closed + 1))
  }

  function Do(w: World, s: Step): World
    requires Enabled(w, s)
  {
    match s.action
    case Turn(action) => DoTurn(w, s.actor, action)
    case Take(action) => DoTake(w, s.actor, action)
    case Free(action) => DoFree(w, s.actor, action)
    case Scan(action) => DoScan(w, s.actor, action)
    case Abort => Aborted(w, s.actor)
  }

  /** The state after a run, if every step was possible. */
  function Run(w: World, steps: seq<Step>): Option<World>
    decreases |steps|
  {
    if steps == [] then Some(w)
    else if Enabled(w, steps[0]) then Run(Do(w, steps[0]), steps[1..])
    else None
  }

  // -------------------------------------------------------------- invariant

  /** The mode the log says a talk is in: that of its last takeover or release. */
  function ModeAfter(log: seq<Event>, t: TalkId): Mode {
    if log == [] then Ai
    else
      var e := log[|log| - 1];
      if e == TookOver(t) then Human else if e == Released(t) then Ai else ModeAfter(log[..|log| - 1], t)
  }

  predicate WasScanned(log: seq<Event>, t: TalkId) {
    exists e | e in log :: e.ScanClosed? && e.talk == t
  }

  /** Replies go out on talks in AI hands; takeovers and releases find the other mode;
      no talk is closed by a scan twice. */
  ghost predicate Allowed(log: seq<Event>, e: Event) {
    match e
    case AiSent(t) => ModeAfter(log, t).Ai?
    case TookOver(t) => ModeAfter(log, t).Ai?
    case Released(t) => ModeAfter(log, t).Human?
    case ScanClosed(t, _) => ModeAfter(log, t).Ai? && !WasScanned(log, t)
  }

  ghost predicate GoodLog(log: seq<Event>) {
    forall i | 0 <= i < |log| :: Allowed(log[..i], log[i])
  }

  predicate HoldsLock(pc: Pc) {
    pc.TurnLocked? || pc.TurnGated? || pc.TakeLocked? || pc.TakeWrote?
  }

  predicate HoldsRow(pc: Pc) {
    pc.TakeWrote? || pc.FreeWrote? || pc.ScanWrote?
  }

  predicate SeesMode(pc: Pc, mode: Mode) {
    match pc
    case TurnGated(_) => mode.Ai?
    case TakeWrote(_) => mode.Ai?
    case FreeWrote(_) => mode.Human?
    case ScanWrote(_, _, _) => mode.Ai?
    case _ => true
  }

  ghost predicate ActorOk(w: World, a: Actor)
    requires a in w.actors
  {
    var pc := w.actors[a];
    && (HoldsLock(pc) <==> w.lock == Some(a))
    && (pc.Scanning? || pc.Finished? || pc.talk in w.talks)
    && (HoldsRow(pc) ==> pc.talk in w.rows && w.rows[pc.talk] == a)
    && (!pc.Scanning? && !pc.Finished? ==> SeesMode(pc, w.talks[pc.talk].mode))
    && (pc.ScanWrote? ==> w.talks[pc.talk].status.Active?)
  }

  ghost predicate RowOk(w: World, t: TalkId)
    requires t in w.rows
  {
    w.rows[t] in w.actors && HoldsRow(w.actors[w.rows[t]]) && w.actors[w.rows[t]].talk == t
  }

  ghost predicate TalkOk(w: World, t: TalkId)
    requires t in w.talks
  {
    && ModeAfter(w.log, t) == w.talks[t].mode
    && (WasScanned(w.log, t) ==> !w.talks[t].status.Active?)
  }

  ghost predicate Inv(w: World) {
    && (forall a | a in w.actors :: ActorOk(w, a))
    && (w.lock.Some? ==> w.lock.value in w.actors)
    && (forall t | t in w.rows :: RowOk(w, t))
    && (forall t | t in w.talks :: TalkOk(w, t))
    && (forall t | t !in w.talks :: ModeAfter(w.log, t).Ai? && !WasScanned(w.log, t))
    && GoodLog(w.log)
  }

  lemma LogSnoc(log: seq<Event>, e: Event)
    requires GoodLog(log) && Allowed(log, e)
    ensures GoodLog(log + [e])
    ensures forall t :: ModeAfter(log + [e], t)
              == if e == TookOver(t) then Human else if e == Released(t) then Ai else ModeAfter(log, t)
    ensures forall t :: WasScanned(log + [e], t) <==> WasScanned(log, t) || (e.ScanClosed? && e.talk == t)
  {
    var all := log + [e];
    assert all[..|log|] == log;
    forall i | 0 <= i < |all| ensures Allowed(all[..i], all[i]) {
      if i < |log| {
        assert all[..i] == log[..i];
      }
    }
    forall t ensures WasScanned(all, t) <==> WasScanned(log, t) || (e.ScanClosed? && e.talk == t) {
      assert e in all && forall x | x in log :: x in all;
    }
  }

  /** A step that only moves one actor on, without taking or dropping a lock. */
  lemma MoveKeepsInv(w: World, a: Actor, pc: Pc)
    requires Inv(w) && !HoldsRow(pc)
    requires if a in w.actors then HoldsLock(w.actors[a]) == HoldsLock(pc) && !HoldsRow(w.actors[a]) else !HoldsLock(pc)
    requires pc.Scanning? || pc.Finished? || (pc.talk in w.talks && SeesMode(pc, w.talks[pc.talk].mode))
    ensures Inv(SetPc(w, a, pc))
  {
  }

  lemma LockKeepsInv(w: World, a: Actor, pc: Pc)
    requires Inv(w) && w.lock.None? && a in w.actors && !HoldsRow(w.actors[a])
    requires (pc.TurnLocked? || pc.TakeLocked?) && pc.talk in w.talks
    ensures Inv(SetPc(w.(lock := Some(a)), a, pc))
  {
  }

  lemma RowKeepsInv(w: World, a: Actor, pc: Pc)
    requires Inv(w) && a in w.actors && !HoldsRow(w.actors[a]) && HoldsLock(w.actors[a]) == HoldsLock(pc)
    requires HoldsRow(pc) && pc.talk in w.talks && pc.talk !in w.rows && SeesMode(pc, w.talks[pc.talk].mode)
    requires pc.ScanWrote? ==> w.talks[pc.talk].status.Active?
    ensures Inv(SetPc(w.(rows := w.rows[pc.talk := a]), a, pc))
  {
    assert ActorOk(w, a);
    hide GoodLog, ModeAfter, WasScanned;
  }

  lemma EndKeepsInv(w: World, a: Actor)
    requires Inv(w) && a in w.actors
    ensures Inv(End(w, a))
  {
  }

  lemma OpenKeepsInv(w: World, t: TalkId)
    requires Inv(w) && t !in w.talks
    ensures Inv(SetTalk(w, t, Talk(Ai, Active)))
  {
  }

  lemma StatusKeepsInv(w: World, t: TalkId, status: Status)
    requires Inv(w) && t in w.talks && t !in w.rows && !status.Active?
    ensures Inv(SetTalk(w, t, w.talks[t].(status := status)))
  {
  }

  lemma SendKeepsInv(w: World, a: Actor)
    requires Inv(w) && a in w.actors && w.actors[a].TurnGated?
    ensures Inv(Log(w, AiSent(w.actors[a].talk)))
  {
    LogSnoc(w.log, AiSent(w.actors[a].talk));
    hide GoodLog, ModeAfter, WasScanned;
  }

  /** Committing a change of hands on a row nobody else is writing; towards the operator,
      also with no turn inside the lead lock. */
  lemma HandOverKeepsInv(w: World, t: TalkId, mode: Mode)
    requires Inv(w) && t in w.talks && t !in w.rows && w.talks[t].mode != mode
    requires mode.Human? ==> w.lock.None?
    ensures Inv(HandOver(w, t, mode))
  {
    var after := HandOver(w, t, mode);
    LogSnoc(w.log, if mode.Human? then TookOver(t) else Released(t));
    hide GoodLog, ModeAfter, WasScanned;
    forall a | a in after.actors ensures ActorOk(after, a) {
      assert ActorOk(w, a);
    }
  }

  lemma CloseKeepsInv(w: World, t: TalkId, scan: Actor)
    requires Inv(w) && t in w.talks && t !in w.rows && w.talks[t] == Talk(Ai, Active)
    ensures Inv(CloseTalk(w, t, scan))
  {
    LogSnoc(w.log, ScanClosed(t, scan));
    hide GoodLog, ModeAfter, WasScanned;
  }

  lemma EndFreesRow(w: World, a: Actor)
    requires Inv(w) && a in w.actors && HoldsRow(w.actors[a])
    ensures w.actors[a].talk in w.talks && w.actors[a].talk !in End(w, a).rows
    ensures HoldsLock(w.actors[a]) ==> End(w, a).lock.None?
    ensures SeesMode(w.actors[a], w.talks[w.actors[a].talk].mode)
    ensures w.actors[a].ScanWrote? ==> w.talks[w.actors[a].talk] == Talk(Ai, Active)
  {
    assert ActorOk(w, a);
  }

  lemma HandOverCommitKeepsInv(w: World, a: Actor, mode: Mode)
    requires Inv(w) && a in w.actors && (if mode.Human? then w.actors[a].TakeWrote? else w.actors[a].FreeWrote?)
    ensures Inv(HandOver(End(w, a), w.actors[a].talk, mode))
  {
    EndKeepsInv(w, a);
    EndFreesRow(w, a);
    hide Inv;
    HandOverKeepsInv(End(w, a), w.actors[a].talk, mode);
  }

  lemma EndedScan(w: World, a: Actor)
    requires Inv(w) && a in w.actors && w.actors[a].ScanWrote?
    ensures var t := w.actors[a].talk;
            && Inv(End(w, a)) && a !in End(w, a).actors
            && t in w.talks && End(w, a).talks == w.talks && w.talks[t] == Talk(Ai, Active) && t !in End(w, a).rows
  {
    EndKeepsInv(w, a);
    EndFreesRow(w, a);
  }

  lemma ScanCommitKeepsInv(w: World, a: Actor)
    requires Inv(w) && a in w.actors && w.actors[a].ScanWrote? && w.actors[a].talk in w.talks
    ensures Inv(SetPc(CloseTalk(End(w, a), w.actors[a].talk, a), a, Scanning(w.actors[a].left, w.actors[a].closed + 1)))
  {
    hide Inv, End;
    EndedScan(w, a);
    var pc := w.actors[a];
    CloseKeepsInv(End(w, a), pc.talk, a);
    MoveKeepsInv(CloseTalk(End(w, a), pc.talk, a), a, Scanning(pc.left, pc.closed + 1));
  }

  lemma AbortKeepsInv(w: World, a: Actor)
    requires Inv(w) && a in w.actors
    ensures Inv(Aborted(w, a))
  {
    EndKeepsInv(w, a);
    hide Inv;
    var pc := w.actors[a];
    if pc.Scanning? || pc.ScanWrote? {
      MoveKeepsInv(End(w, a), a, Finished(pc.closed));
    }
  }

  lemma TurnKeepsInv(w: World, a: Actor, action: TurnAction)
    requires Inv(w) && CanTurn(w, a, action)
    ensures Inv(DoTurn(w, a, action))
  {
    assert a in w.actors ==> ActorOk(w, a);
    hide Inv, End, Log;
    match action
    case TurnOpen(t) =>
      if t !in w.talks {
        OpenKeepsInv(w, t);
        MoveKeepsInv(SetTalk(w, t, Talk(Ai, Active)), a, TurnChose(t));
      } else {
        MoveKeepsInv(w, a, TurnChose(t));
      }
    case TurnLock => LockKeepsInv(w, a, TurnLocked(w.actors[a].talk));
    case TurnGate =>
      EndKeepsInv(w, a);
      if w.talks[w.actors[a].talk].mode.Ai? {
        MoveKeepsInv(w, a, TurnGated(w.actors[a].talk));
      }
    case TurnSend => SendKeepsInv(w, a);
    case TurnCommit(status) =>
      EndKeepsInv(w, a);
      if status.Some? {
        var t := w.actors[a].talk;
        StatusKeepsInv(w, t, status.value);
        EndKeepsInv(SetTalk(w, t, w.talks[t].(status := status.value)), a);
      }
  }

  lemma TakeKeepsInv(w: World, a: Actor, action: TakeAction)
    requires Inv(w) && CanTake(w, a, action)
    ensures Inv(DoTake(w, a, action))
  {
    assert a in w.actors ==> ActorOk(w, a);
    hide Inv, End, HandOver;
    match action
    case TakeSelect(t) => MoveKeepsInv(w, a, TakeChose(t));
    case TakeLock => LockKeepsInv(w, a, TakeLocked(w.actors[a].talk));
    case TakeUpdate =>
      EndKeepsInv(w, a);
      if w.talks[w.actors[a].talk].mode.Ai? {
        RowKeepsInv(w, a, TakeWrote(w.actors[a].talk));
      }
    case TakeCommit => HandOverCommitKeepsInv(w, a, Human);
  }

  lemma FreeKeepsInv(w: World, a: Actor, action: FreeAction)
    requires Inv(w) && CanFree(w, a, action)
    ensures Inv(DoFree(w, a, action))
  {
    assert a in w.actors ==> ActorOk(w, a);
    hide Inv, End, HandOver;
    match action
    case FreeSelect(t) => MoveKeepsInv(w, a, FreeChose(t));
    case FreeUpdate =>
      EndKeepsInv(w, a);
      if w.talks[w.actors[a].talk].mode.Human? {
        RowKeepsInv(w, a, FreeWrote(w.actors[a].talk));
      }
    case FreeCommit => HandOverCommitKeepsInv(w, a, Ai);
  }

  lemma ScanKeepsInv(w: World, a: Actor, action: ScanAction)
    requires Inv(w) && CanScan(w, a, action)
    ensures Inv(DoScan(w, a, action))
  {
    hide Inv, End, CloseTalk;
    match action
    case ScanRead(ts) => MoveKeepsInv(w, a, Scanning(ts, 0));
    case ScanSkip =>
      var pc := w.actors[a];
      MoveKeepsInv(w, a, if pc.left == [] then Finished(pc.closed) else Scanning(pc.left[1..], pc.closed));
    case ScanLock =>
      var pc := w.actors[a];
      RowKeepsInv(w, a, ScanWrote(pc.left[0], pc.left[1..], pc.closed));
    case ScanCommit => ScanCommitKeepsInv(w, a);
  }

  lemma StepKeepsInv(w: World, s: Step)
    requires Inv(w) && Enabled(w, s)
    ensures Inv(Do(w, s))
  {
    hide Inv, DoTurn, DoTake, DoFree, DoScan, CanTurn, CanTake, CanFree, CanScan, Aborted;
    match s.action
    case Turn(action) => TurnKeepsInv(w, s.actor, action);
    case Take(action) => TakeKeepsInv(w, s.actor, action);
    case Free(action) => FreeKeepsInv(w, s.actor, action);
    case Scan(action) => ScanKeepsInv(w, s.actor, action);
    case Abort => AbortKeepsInv(w, s.actor);
  }

  lemma {:induction false} RunKeepsInv(w: World, steps: seq<Step>)
    requires Inv(w)
    ensures Run(w, steps).Some? ==> Inv(Run(w, steps).value)
    decreases |steps|
  {
    hide Inv, Do, Enabled;
    if steps != [] && Enabled(w, steps[0]) {
      StepKeepsInv(w, steps[0]);
      RunKeepsInv(Do(w, steps[0]), steps[1..]);
    }
  }

  // ---------------------------------------------------------------- theorems

  ghost predicate Reachable(w: World) {
    exists steps :: Run(START, steps) == Some(w)
  }

  lemma ReachableIsGood(w: World)
    requires Reachable(w)
    ensures Inv(w)
  {
    var steps :| Run(START, steps) == Some(w);
    RunKeepsInv(START, steps);
  }

  lemma {:induction false} HumanUntilReleased(log: seq<Event>, t: TalkId, i: nat)
    requires i < |log| && log[i] == TookOver(t)
    requires forall k | i < k < |log| :: log[k] != Released(t)
    ensures ModeAfter(log, t).Human?
    decreases |log|
  {
    if i < |log| - 1 {
      HumanUntilReleased(log[..|log| - 1], t, i);
    }
  }

  lemma {:induction false} AiUntilTaken(log: seq<Event>, t: TalkId, i: nat)
    requires i < |log| && log[i] == Released(t)
    requires forall k | i < k < |log| :: log[k] != TookOver(t)
    ensures ModeAfter(log, t).Ai?
    decreases |log|
  {
    if i < |log| - 1 {
      AiUntilTaken(log[..|log| - 1], t, i);
    }
  }

  /** In every interleaving, no AI reply on a talk falls between a takeover's commit and
      the next release's. */
  lemma NoReplyWhileHuman(w: World, t: TalkId, i: nat, j: nat)
    requires Reachable(w) && i < j < |w.log|
    requires w.log[i] == TookOver(t) && w.log[j] == AiSent(t)
    ensures exists k :: i < k < j && w.log[k] == Released(t)
  {
    ReachableIsGood(w);
    assert Allowed(w.log[..j], w.log[j]);
    if forall k | i < k < j :: w.log[k] != Released(t) {
      HumanUntilReleased(w.log[..j], t, i);
    }
  }

  /** Successful takeovers and releases of a talk alternate, a takeover first. */
  lemma HandOversAlternate(w: World, t: TalkId, j: nat)
    requires Reachable(w) && j < |w.log|
    ensures w.log[j] == TookOver(t) ==>
              forall i | 0 <= i < j && w.log[i] == TookOver(t) :: exists k :: i < k < j && w.log[k] == Released(t)
    ensures w.log[j] == Released(t) ==>
              && (exists i :: 0 <= i < j && w.log[i] == TookOver(t))
              && forall i | 0 <= i < j && w.log[i] == Released(t) :: exists k :: i < k < j && w.log[k] == TookOver(t)
  {
    ReachableIsGood(w);
    assert Allowed(w.log[..j], w.log[j]);
    forall i | 0 <= i < j && w.log[i] == TookOver(t) == w.log[j] ensures exists k :: i < k < j && w.log[k] == Released(t) {
      if forall k | i < k < j :: w.log[k] != Released(t) {
        HumanUntilReleased(w.log[..j], t, i);
      }
    }
    forall i | 0 <= i < j && w.log[i] == Released(t) == w.log[j] ensures exists k :: i < k < j && w.log[k] == TookOver(t) {
      if forall k | i < k < j :: w.log[k] != TookOver(t) {
        AiUntilTaken(w.log[..j], t, i);
      }
    }
    if w.log[j] == Released(t) {
      HumanWasTaken(w.log[..j], t);
    }
  }

  lemma {:induction false} HumanWasTaken(log: seq<Event>, t: TalkId)
    requires ModeAfter(log, t).Human?
    ensures exists i :: 0 <= i < |log| && log[i] == TookOver(t)
    decreases |log|
  {
    var last := |log| - 1;
    if log[last] != TookOver(t) {
      HumanWasTaken(log[..last], t);
      var i :| 0 <= i < last && log[..last][i] == TookOver(t);
      assert log[i] == TookOver(t);
    }
  }

  /** Each talk is closed by at most one scan, and then while in AI hands. */
  lemma ScansCloseOnce(w: World, i: nat, j: nat)
    requires Reachable(w) && i < |w.log| && j < |w.log|
    requires w.log[i].ScanClosed? && w.log[j].ScanClosed? && w.log[i].talk == w.log[j].talk
    ensures i == j
  {
    ReachableIsGood(w);
    var lo, hi := if i < j then i else j, if i < j then j else i;
    assert Allowed(w.log[..hi], w.log[hi]);
    assert forall k | 0 <= k < hi :: w.log[..hi][k] in w.log[..hi];
  }

  ghost function ClosedBy(log: seq<Event>, scan: Actor): set<TalkId> {
    set e | e in log && e.ScanClosed? && e.scan == scan :: e.talk
  }

  function Count(w: World, a: Actor): nat {
    if a in w.actors then Counted(w.actors[a]) else 0
  }

  ghost predicate CountersAgree(w: World) {
    forall a :: |ClosedBy(w.log, a)| == Count(w, a)
  }

  lemma ClosedBySnoc(log: seq<Event>, e: Event, scan: Actor)
    ensures ClosedBy(log + [e], scan)
         == ClosedBy(log, scan) + (if e.ScanClosed? && e.scan == scan then {e.talk} else {})
    ensures e.ScanClosed? && !WasScanned(log, e.talk) ==> e.talk !in ClosedBy(log, scan)
  {
  }

  lemma TurnsKeepCount(w: World, a: Actor, action: TurnAction, b: Actor)
    requires CanTurn(w, a, action)
    ensures Count(DoTurn(w, a, action), b) == Count(w, b)
    ensures ClosedBy(DoTurn(w, a, action).log, b) == ClosedBy(w.log, b)
  {
    if action.TurnSend? {
      ClosedBySnoc(w.log, AiSent(w.actors[a].talk), b);
    }
    hide ClosedBy;
  }

  lemma TakesKeepCount(w: World, a: Actor, action: TakeAction, b: Actor)
    requires CanTake(w, a, action)
    ensures Count(DoTake(w, a, action), b) == Count(w, b)
    ensures ClosedBy(DoTake(w, a, action).log, b) == ClosedBy(w.log, b)
  {
    if action.TakeCommit? {
      ClosedBySnoc(w.log, TookOver(w.actors[a].talk), b);
    }
    hide ClosedBy;
  }

  lemma FreesKeepCount(w: World, a: Actor, action: FreeAction, b: Actor)
    requires CanFree(w, a, action)
    ensures Count(DoFree(w, a, action), b) == Count(w, b)
    ensures ClosedBy(DoFree(w, a, action).log, b) == ClosedBy(w.log, b)
  {
    if action.FreeCommit? {
      ClosedBySnoc(w.log, Released(w.actors[a].talk), b);
    }
    hide ClosedBy;
  }

  /** The counter of the closing scan and the set of talks it closed grow together. */
  lemma ScansCount(w: World, a: Actor, action: ScanAction, b: Actor)
    requires Inv(w) && CanScan(w, a, action)
    ensures Count(DoScan(w, a, action), b) == Count(w, b) + if a == b && action.ScanCommit? then 1 else 0
    ensures |ClosedBy(DoScan(w, a, action).log, b)| == |ClosedBy(w.log, b)| + if a == b && action.ScanCommit? then 1 else 0
  {
    if action.ScanCommit? {
      assert ActorOk(w, a) && TalkOk(w, w.actors[a].talk);
      ClosedBySnoc(w.log, ScanClosed(w.actors[a].talk, a), b);
    }
    hide ClosedBy, Inv;
  }

  lemma StepKeepsCounters(w: World, s: Step)
    requires Inv(w) && CountersAgree(w) && Enabled(w, s)
    ensures CountersAgree(Do(w, s))
  {
    hide Inv, ClosedBy, DoTurn, DoTake, DoFree, DoScan, CanTurn, CanTake, CanFree, CanScan;
    forall a ensures |ClosedBy(Do(w, s).log, a)| == Count(Do(w, s), a) {
      match s.action
      case Turn(action) => TurnsKeepCount(w, s.actor, action, a);
      case Take(action) => TakesKeepCount(w, s.actor, action, a);
      case Free(action) => FreesKeepCount(w, s.actor, action, a);
      case Scan(action) => ScansCount(w, s.actor, action, a);
      case Abort =>
    }
  }

  lemma {:induction false} RunKeepsCounters(w: World, steps: seq<Step>)
    requires Inv(w) && CountersAgree(w)
    ensures Run(w, steps).Some? ==> CountersAgree(Run(w, steps).value)
    decreases |steps|
  {
    hide Inv, Do, Enabled, CountersAgree;
    if steps != [] && Enabled(w, steps[0]) {
      StepKeepsInv(w, steps[0]);
      StepKeepsCounters(w, steps[0]);
      RunKeepsCounters(Do(w, steps[0]), steps[1..]);
    }
  }

  /** A scan's counter is the number of talks it closed; the sets of different scans are
      disjoint, so the counters add up to the talks closed by scans. */
  lemma CountersCountClosedTalks(w: World, a: Actor, b: Actor)
    requires Reachable(w) && a in w.actors
    ensures Counted(w.actors[a]) == |ClosedBy(w.log, a)|
    ensures a != b ==> ClosedBy(w.log, a) !! ClosedBy(w.log, b)
  {
    var steps :| Run(START, steps) == Some(w);
    RunKeepsCounters(START, steps);
    if a != b {
      forall t | t in ClosedBy(w.log, a) ensures t !in ClosedBy(w.log, b) {
        if t in ClosedBy(w.log, b) {
          var i :| 0 <= i < |w.log| && w.log[i] == ScanClosed(t, a);
          var j :| 0 <= j < |w.log| && w.log[j] == ScanClosed(t, b);
          ScansCloseOnce(w, i, j);
        }
      }
    }
  }

  ghost function Pick(s: set<Actor>): (a: Actor)
    requires s != {}
    ensures a in s
  {
    var a :| a in s; a
  }

  /** The sum of the scans' counters. */
  ghost function Total(w: World, scans: set<Actor>): nat
    requires scans <= w.actors.Keys
  {
    if scans == {} then 0 else Counted(w.actors[Pick(scans)]) + Total(w, scans - {Pick(scans)})
  }

  ghost function ClosedByAny(log: seq<Event>, scans: set<Actor>): set<TalkId> {
    set e | e in log && e.ScanClosed? && e.scan in scans :: e.talk
  }

  ghost function ScannedTalks(log: seq<Event>): set<TalkId> {
    set e | e in log && e.ScanClosed? :: e.talk
  }

  lemma {:induction false} TotalCounts(w: World, scans: set<Actor>)
    requires Reachable(w) && scans <= w.actors.Keys
    ensures Total(w, scans) == |ClosedByAny(w.log, scans)|
    decreases scans
  {
    hide Reachable, Counted;
    if scans != {} {
      var a := Pick(scans);
      TotalCounts(w, scans - {a});
      CountersCountClosedTalks(w, a, a);
      forall e | e in w.log && e.ScanClosed? && e.scan in scans - {a} ensures e.talk !in ClosedBy(w.log, a) {
        CountersCountClosedTalks(w, a, e.scan);
        assert e == ScanClosed(e.talk, e.scan);
        assert e.talk in ClosedBy(w.log, e.scan);
      }
      assert ClosedByAny(w.log, scans) == ClosedBy(w.log, a) + ClosedByAny(w.log, scans - {a}) by {
        assert forall e | e in w.log && e.ScanClosed? && e.scan == a :: e == ScanClosed(e.talk, a);
      }
    } else {
      assert ClosedByAny(w.log, scans) == {};
    }
  }

  /** The scans' counters add up to the number of talks scans closed. */
  lemma CountersSumToClosedTalks(w: World)
    requires Reachable(w)
    ensures Total(w, w.actors.Keys) == |ScannedTalks(w.log)|
  {
    TotalCounts(w, w.actors.Keys);
    var steps :| Run(START, steps) == Some(w);
    RunKeepsCounters(START, steps);
    forall e | e in w.log && e.ScanClosed? ensures e.scan in w.actors {
      assert e == ScanClosed(e.talk, e.scan);
      assert e.talk in ClosedBy(w.log, e.scan);
      assert |ClosedBy(w.log, e.scan)| == Count(w, e.scan);
    }
    assert ClosedByAny(w.log, w.actors.Keys) == ScannedTalks(w.log);
  }

  /** What a scan closes is active and in AI hands when it does. */
  lemma ScanClosesActiveTalk(w: World, a: Actor)
    requires Reachable(w) && Enabled(w, Step(a, Scan(ScanCommit)))
    ensures var t, after := w.actors[a].talk, Do(w, Step(a, Scan(ScanCommit)));
            && w.talks[t] == Talk(Ai, Active)
            && after.talks == w.talks[t := Talk(Ai, Closed)] && after.log == w.log + [ScanClosed(t, a)]
  {
    ReachableIsGood(w);
    EndedScan(w, a);
  }

  lemma {:induction false} RunSnoc(w: World, steps: seq<Step>, s: Step)
    requires Run(w, steps).Some? && Enabled(Run(w, steps).value, s)
    ensures Run(w, steps + [s]) == Some(Do(Run(w, steps).value, s))
    decreases |steps|
  {
    hide Do, Enabled;
    if steps == [] {
      assert (steps + [s])[1..] == [];
    } else {
      assert (steps + [s])[1..] == steps[1..] + [s];
      RunSnoc(Do(w, steps[0]), steps[1..], s);
    }
  }

  lemma ReachableStep(w: World, s: Step)
    requires Reachable(w) && Enabled(w, s)
    ensures Reachable(Do(w, s))
  {
    var steps :| Run(START, steps) == Some(w);
    RunSnoc(START, steps, s);
  }

  lemma FreshTurnReplies(w: World, a: Actor, t: TalkId) returns (after: World)
    requires Reachable(w) && w.lock.None? && a !in w.actors && NoneOpen(w) && IsNew(w, t)
    ensures Reachable(after) && after.log == w.log + [AiSent(t)]
    ensures after == w.(talks := w.talks[t := Talk(Ai, Active)], lock := Some(a), actors := w.actors[a := TurnGated(t)], log := after.log)
  {
    hide Reachable;
    ReachableStep(w, Step(a, Turn(TurnOpen(t))));
    var w1 := Do(w, Step(a, Turn(TurnOpen(t))));
    ReachableStep(w1, Step(a, Turn(TurnLock)));
    var w2 := Do(w1, Step(a, Turn(TurnLock)));
    ReachableStep(w2, Step(a, Turn(TurnGate)));
    var w3 := Do(w2, Step(a, Turn(TurnGate)));
    ReachableStep(w3, Step(a, Turn(TurnSend)));
    after := Do(w3, Step(a, Turn(TurnSend)));
    assert w3.actors == w.actors[a := TurnGated(t)];
  }

  lemma StartIsReachable()
    ensures Reachable(START)
  {
    assert Run(START, []) == Some(START);
  }

  /** The guarantee is per talk, not per lead: a takeover that selected a talk before it
      was closed still succeeds, and the lead's next talk is answered by the AI. */
  lemma StaleTakeoverMissesNewTalk() returns (w: World)
    ensures Reachable(w) && w.log == [AiSent(1), TookOver(1), AiSent(2)]
    ensures 1 in w.talks && w.talks[1] == Talk(Human, Closed)
  {
    StartIsReachable();
    hide Reachable;
    var w1 := FreshTurnReplies(START, 1, 1);
    ReachableStep(w1, Step(2, Take(TakeSelect(1))));
    var w2 := Do(w1, Step(2, Take(TakeSelect(1))));
    ReachableStep(w2, Step(1, Turn(TurnCommit(Some(Closed)))));
    var w3 := Do(w2, Step(1, Turn(TurnCommit(Some(Closed)))));
    ReachableStep(w3, Step(2, Take(TakeLock)));
    var w4 := Do(w3, Step(2, Take(TakeLock)));
    ReachableStep(w4, Step(2, Take(TakeUpdate)));
    var w5 := Do(w4, Step(2, Take(TakeUpdate)));
    ReachableStep(w5, Step(2, Take(TakeCommit)));
    var w6 := Do(w5, Step(2, Take(TakeCommit)));
    w := FreshTurnReplies(w6, 3, 2);
  }
}
