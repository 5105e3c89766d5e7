/** What each step of the ownership protocol writes, logs and lets happen next, and what the
    stored talks are after a run. */
module OwnershipSteps {
  import opened Wrappers
  import opened Ownership

  /** The step is taken for talk `t`. */
  predicate For(w: World, s: Step, t: TalkId) {
    s.actor in w.actors && !w.actors[s.actor].Scanning? && !w.actors[s.actor].Finished? && w.actors[s.actor].talk == t
  }

  /** The status a step writes to a talk: a turn's commit what the turn decided, a scan's commit
      Closed. */
  function StatusWritten(w: World, s: Step, t: TalkId): Option<Status> {
    if !For(w, s, t) then None
    else if s.action.Turn? && s.action.turn.TurnCommit? then s.action.turn.status
    else if s.action.Scan? && s.action.scan.ScanCommit? then Some(Closed)
    else None
  }

  /** The mode a step writes: a takeover's commit and a release's. */
  function ModeWritten(w: World, s: Step, t: TalkId): Option<Mode> {
    if !For(w, s, t) then None
    else if s.action == Take(TakeCommit) then Some(Human)
    else if s.action == Free(FreeCommit) then Some(Ai)
    else None
  }

  function EventOf(w: World, s: Step, t: TalkId): seq<Event> {
    if !For(w, s, t) then []
    else if s.action == Turn(TurnSend) then [AiSent(t)]
    else if s.action == Take(TakeCommit) then [TookOver(t)]
    else if s.action == Free(FreeCommit) then [Released(t)]
    else if s.action == Scan(ScanCommit) then [ScanClosed(t, s.actor)]
    else []
  }

  predicate Opens(w: World, s: Step, t: TalkId) {
    s.action == Turn(TurnOpen(t)) && t !in w.talks
  }

  /** Talk `t` is in `after` what the step makes of it. */
  predicate Written(w: World, s: Step, t: TalkId, after: World) {
    && (t in after.talks <==> t in w.talks || Opens(w, s, t))
    && (Opens(w, s, t) ==> NoneOpen(w) && after.talks[t] == Talk(Ai, Active))
    && (t in w.talks ==>
          && after.talks[t].mode == (if ModeWritten(w, s, t).Some? then ModeWritten(w, s, t).value else w.talks[t].mode)
          && after.talks[t].status == if StatusWritten(w, s, t).Some? then StatusWritten(w, s, t).value else w.talks[t].status)
  }

  lemma TurnWrites(w: World, a: Actor, action: TurnAction, t: TalkId)
    requires CanTurn(w, a, action)
    ensures Written(w, Step(a, Turn(action)), t, DoTurn(w, a, action))
  {
  }

  lemma HandOverWrites(w: World, s: Step, t: TalkId)
    requires Enabled(w, s) && (s.action.Take? || s.action.Free?)
    ensures Written(w, s, t, Do(w, s))
  {
  }

  lemma ScanWrites(w: World, a: Actor, action: ScanAction, t: TalkId)
    requires CanScan(w, a, action)
    ensures Written(w, Step(a, Scan(action)), t, DoScan(w, a, action))
  {
  }

  /** Every step of every actor: a talk is added only by a turn that found none open, active and in
      AI hands; its status and its mode change exactly as the step writes them; all other talks
      keep both. */
  lemma StepWritesExactly(w: World, s: Step, t: TalkId)
    requires Enabled(w, s)
    ensures Written(w, s, t, Do(w, s))
  {
    match s.action
    case Turn(action) =>
      TurnWrites(w, s.actor, action, t);
      hide Written, CanTurn, DoTurn;
    case Scan(action) =>
      ScanWrites(w, s.actor, action, t);
      hide Written, CanScan, DoScan;
    case Abort =>
    case _ =>
      HandOverWrites(w, s, t);
      hide Written, CanTake, DoTake, CanFree, DoFree;
  }

  /** The log grows by the event of the step's talk, and by nothing when it has none. */
  lemma StepLogsExactly(w: World, s: Step)
    requires Enabled(w, s)
    ensures Do(w, s).log == w.log || exists t :: EventOf(w, s, t) != [] && Do(w, s).log == w.log + EventOf(w, s, t)
    ensures forall t | EventOf(w, s, t) != [] :: Do(w, s).log == w.log + EventOf(w, s, t)
  {
    if Do(w, s).log != w.log {
      assert EventOf(w, s, w.actors[s.actor].talk) != [];
    }
  }

  /** The gates: a turn gets past the refresh, and a takeover past its update, if and only if the
      talk is in AI hands then; a release if and only if it is in human hands. Who does not get
      past is gone, and the lock is free again. */
  lemma GatesAreExact(w: World, s: Step, t: TalkId)
    requires Inv(w) && Enabled(w, s) && For(w, s, t)
    requires s.action == Turn(TurnGate) || s.action == Take(TakeUpdate) || s.action == Free(FreeUpdate)
    ensures var after, mode := Do(w, s), if s.action.Free? then Human else Ai;
            && t in w.talks
            && (w.talks[t].mode == mode ==>
                  && s.actor in after.actors && after.lock == w.lock
                  && after.actors[s.actor] == (match s.action
                     case Turn(_) => TurnGated(t)
                     case Take(_) => TakeWrote(t)
                     case _ => FreeWrote(t))
                  && (!s.action.Turn? ==> t in after.rows && after.rows[t] == s.actor))
            && (w.talks[t].mode != mode ==> s.actor !in after.actors && after.lock != Some(s.actor))
  {
    hide GoodLog, ModeAfter, WasScanned;
    assert ActorOk(w, s.actor);
  }

  /** The candidates a scan has still to look at. */
  function ToScan(w: World, a: Actor): seq<TalkId> {
    if a !in w.actors then [] else
      match w.actors[a]
      case Scanning(left, _) => left
      case ScanWrote(t, left, _) => [t] + left
      case _ => []
  }

  /** A scan takes its candidates one by one, in order: a skip and a commit drop the first, locking
      it and the other actors' steps drop none. */
  lemma ScanTakesEachInTurn(w: World, s: Step, a: Actor)
    requires Enabled(w, s) && a in w.actors && (w.actors[a].Scanning? || w.actors[a].ScanWrote?) && s.action != Abort
    ensures var done := s.actor == a && ToScan(w, a) != [] && (s.action == Scan(ScanSkip) || s.action == Scan(ScanCommit));
            ToScan(Do(w, s), a) == if done then ToScan(w, a)[1..] else ToScan(w, a)
    ensures s.actor == a && ToScan(w, a) == [] ==> Do(w, s).actors[a] == Finished(w.actors[a].closed)
  {
  }

  // -------------------------------------------------------------- over a run

  /** The last status the run writes to a talk. */
  function LastStatus(w: World, steps: seq<Step>, t: TalkId): Option<Status>
    decreases |steps|
  {
    if steps == [] || !Enabled(w, steps[0]) then None
    else
      var later := LastStatus(Do(w, steps[0]), steps[1..], t);
      if later.Some? then later else StatusWritten(w, steps[0], t)
  }

  /** What a turn or a scan commits stands: after any run a talk has the status last written to it,
      and the one it had if none was. */
  lemma {:induction false} LastStatusStands(w: World, steps: seq<Step>, t: TalkId)
    requires t in w.talks && Run(w, steps).Some?
    ensures t in Run(w, steps).value.talks
    ensures Run(w, steps).value.talks[t].status
         == if LastStatus(w, steps, t).Some? then LastStatus(w, steps, t).value else w.talks[t].status
    decreases |steps|
  {
    hide Do, Enabled, StatusWritten, ModeWritten, Opens;
    if steps != [] {
      StepWritesExactly(w, steps[0], t);
      LastStatusStands(Do(w, steps[0]), steps[1..], t);
    }
  }
}
