/** The takeover guarantee for a whole lead: exactly when the AI may still answer a lead after
    an operator took over one of its talks and did not release it. */
module LeadOwnership {
  import opened Wrappers
  import opened Ownership

  /** The log events `rest` adds hold a reply and no release of `t`. */
  ghost predicate AnswersLead(w: World, rest: seq<Step>, t: TalkId) {
    && Run(w, rest).Some?
    && var log := Run(w, rest).value.log;
    && (exists k :: |w.log| <= k < |log| && log[k].AiSent?)
    && (forall k | |w.log| <= k < |log| :: log[k] != Released(t))
  }

  predicate Chose(w: World, b: Actor, u: TalkId) {
    b in w.actors && w.actors[b] == TurnChose(u)
  }

  /** Some request is about to release the talk. */
  predicate Freeing(w: World, u: TalkId) {
    exists b | b in w.actors :: w.actors[b] == FreeChose(u) || w.actors[b] == FreeWrote(u)
  }

  /** `t` is not the lead's newest open talk, or a turn that chose another talk before still finds
      it in AI hands, or about to be released. */
  ghost predicate CanAnswer(w: World, t: TalkId) {
    || !IsNewest(w, t)
    || (exists b, u :: u != t && Chose(w, b, u) && u in w.talks && (w.talks[u].mode.Ai? || Freeing(w, u)))
  }

  // ---------------------------------------------------- silence is kept

  predicate SilentActor(w: World, b: Actor, t: TalkId)
    requires b in w.actors
  {
    match w.actors[b]
    case TurnGated(_) => false
    case TurnChose(u) => u == t || (u in w.talks && w.talks[u].mode.Human? && !Freeing(w, u))
    case TurnLocked(u) => u == t || (u in w.talks && w.talks[u].mode.Human? && !Freeing(w, u))
    case _ => true
  }

  ghost predicate Silent(w: World, t: TalkId) {
    && IsNewest(w, t) && w.talks[t].mode.Human?
    && (forall b | b in w.actors :: SilentActor(w, b, t))
  }

  lemma TurnKeepsSilent(w: World, a: Actor, action: TurnAction, t: TalkId)
    requires Inv(w) && Silent(w, t) && CanTurn(w, a, action)
    ensures Silent(DoTurn(w, a, action), t) && DoTurn(w, a, action).log == w.log
  {
    var after := DoTurn(w, a, action);
    assert a in w.actors ==> ActorOk(w, a) && SilentActor(w, a, t);
    hide Inv;
    forall b | b in after.actors ensures SilentActor(after, b, t) {
      if b in w.actors {
        assert SilentActor(w, b, t);
      }
      FreeingStays(w, after);
    }
  }

  /** No new release is under way. */
  lemma FreeingStays(w: World, after: World)
    requires forall b | b in after.actors && (after.actors[b].FreeChose? || after.actors[b].FreeWrote?) ::
               b in w.actors && (w.actors[b].FreeChose? || w.actors[b].FreeWrote?) && w.actors[b].talk == after.actors[b].talk
    ensures forall u | Freeing(after, u) :: Freeing(w, u)
  {
    forall u | Freeing(after, u) ensures Freeing(w, u) {
      var b :| b in after.actors && (after.actors[b] == FreeChose(u) || after.actors[b] == FreeWrote(u));
      assert w.actors[b] == FreeChose(u) || w.actors[b] == FreeWrote(u);
    }
  }

  /** What a request other than a turn may be doing while the lead is silent. */
  predicate Harmless(w: World, pc: Pc, t: TalkId) {
    && !pc.TurnChose? && !pc.TurnLocked? && !pc.TurnGated?
    && (pc.FreeChose? || pc.FreeWrote? ==> pc.talk == t || Freeing(w, pc.talk))
  }

  lemma ActorsKeepSilent(w: World, after: World, t: TalkId)
    requires Silent(w, t) && after.talks == w.talks
    requires forall b | b in after.actors ::
               (b in w.actors && after.actors[b] == w.actors[b]) || Harmless(w, after.actors[b], t)
    ensures Silent(after, t)
  {
    forall u | u != t && Freeing(after, u) ensures Freeing(w, u) {
      var c :| c in after.actors && (after.actors[c] == FreeChose(u) || after.actors[c] == FreeWrote(u));
      assert (c in w.actors && after.actors[c] == w.actors[c]) || Harmless(w, after.actors[c], t);
    }
    forall b | b in after.actors ensures SilentActor(after, b, t) {
      assert (b in w.actors && after.actors[b] == w.actors[b]) || Harmless(w, after.actors[b], t);
      assert b in w.actors ==> SilentActor(w, b, t);
    }
  }

  /** A takeover or release of another talk that no silent turn waits for. */
  lemma HandOverKeepsSilent(w: World, u: TalkId, mode: Mode, t: TalkId)
    requires Silent(w, t) && u in w.talks && (mode.Ai? ==> u != t)
    requires mode.Ai? ==> forall b | b in w.actors && (w.actors[b].TurnChose? || w.actors[b].TurnLocked?) :: w.actors[b].talk != u
    ensures Silent(HandOver(w, u, mode), t)
  {
    var after := HandOver(w, u, mode);
    forall b | b in after.actors ensures SilentActor(after, b, t) {
      assert SilentActor(w, b, t);
      FreeingStays(w, after);
    }
  }

  lemma EndKeepsSilent(w: World, a: Actor, t: TalkId)
    requires Silent(w, t)
    ensures Silent(End(w, a), t)
  {
    ActorsKeepSilent(w, End(w, a), t);
  }

  lemma TakeKeepsSilent(w: World, a: Actor, action: TakeAction, t: TalkId)
    requires Inv(w) && Silent(w, t) && CanTake(w, a, action)
    ensures Silent(DoTake(w, a, action), t)
    ensures DoTake(w, a, action).log == w.log || exists u :: DoTake(w, a, action).log == w.log + [TookOver(u)]
  {
    assert a in w.actors ==> ActorOk(w, a);
    hide Inv, Silent, HandOver;
    if action.TakeCommit? {
      EndKeepsSilent(w, a, t);
      HandOverKeepsSilent(End(w, a), w.actors[a].talk, Human, t);
      HandOverLogs(End(w, a), w.actors[a].talk, Human);
    } else {
      ActorsKeepSilent(w, DoTake(w, a, action), t);
    }
  }

  lemma HandOverLogs(w: World, u: TalkId, mode: Mode)
    ensures HandOver(w, u, mode).log == w.log + [if mode.Human? then TookOver(u) else Released(u)]
  {
  }

  lemma CloseKeepsSilent(w: World, u: TalkId, scan: Actor, t: TalkId)
    requires Silent(w, t) && u in w.talks && u != t
    ensures Silent(CloseTalk(w, u, scan), t)
    ensures CloseTalk(w, u, scan).log == w.log + [ScanClosed(u, scan)]
  {
    var after := CloseTalk(w, u, scan);
    FreeingStays(w, after);
    forall b | b in after.actors ensures SilentActor(after, b, t) {
      assert SilentActor(w, b, t);
    }
    forall v | v in after.talks && IsOpen(after, v) ensures v <= t {
      assert IsOpen(w, v);
    }
  }

  lemma ScanKeepsSilent(w: World, a: Actor, action: ScanAction, t: TalkId)
    requires Inv(w) && Silent(w, t) && CanScan(w, a, action)
    ensures Silent(DoScan(w, a, action), t)
    ensures DoScan(w, a, action).log == w.log || exists u, b :: DoScan(w, a, action).log == w.log + [ScanClosed(u, b)]
  {
    assert a in w.actors ==> ActorOk(w, a);
    hide Inv;
    if action.ScanCommit? {
      var pc := w.actors[a];
      assert pc.talk != t;
      hide Silent, CloseTalk;
      EndKeepsSilent(w, a, t);
      CloseKeepsSilent(End(w, a), pc.talk, a, t);
      ActorsKeepSilent(CloseTalk(End(w, a), pc.talk, a), DoScan(w, a, action), t);
    } else {
      hide Silent;
      ActorsKeepSilent(w, DoScan(w, a, action), t);
    }
  }

  lemma FreeKeepsSilent(w: World, a: Actor, action: FreeAction, t: TalkId)
    requires Inv(w) && Silent(w, t) && CanFree(w, a, action)
    ensures DoFree(w, a, action).log == w.log + [Released(t)]
         || (Silent(DoFree(w, a, action), t)
             && (DoFree(w, a, action).log == w.log || exists u :: DoFree(w, a, action).log == w.log + [Released(u)]))
  {
    assert a in w.actors ==> ActorOk(w, a);
    hide Inv, HandOver;
    match action
    case FreeCommit =>
      var u := w.actors[a].talk;
      HandOverLogs(End(w, a), u, Ai);
      if u != t {
        assert Freeing(w, u);
        forall b | b in End(w, a).actors && (w.actors[b].TurnChose? || w.actors[b].TurnLocked?) ensures w.actors[b].talk != u {
          assert SilentActor(w, b, t);
        }
        EndKeepsSilent(w, a, t);
        hide Silent;
        HandOverKeepsSilent(End(w, a), u, Ai, t);
      }
    case FreeSelect(u) =>
      assert u == t;
      ActorsKeepSilent(w, DoFree(w, a, action), t);
    case FreeUpdate =>
      assert Freeing(w, w.actors[a].talk);
      ActorsKeepSilent(w, DoFree(w, a, action), t);
  }

  lemma AbortKeepsSilent(w: World, a: Actor, t: TalkId)
    requires Silent(w, t) && a in w.actors
    ensures Silent(Aborted(w, a), t) && Aborted(w, a).log == w.log
  {
    var after := Aborted(w, a);
    FreeingStays(w, after);
    forall b | b in after.actors ensures SilentActor(after, b, t) {
      assert SilentActor(w, b, t);
    }
  }

  /** A silent lead gets no reply in the next step, and stays silent unless `t` is released. */
  lemma StepKeepsSilent(w: World, s: Step, t: TalkId)
    requires Inv(w) && Silent(w, t) && Enabled(w, s)
    ensures var after := Do(w, s);
            && (after.log == w.log || exists e :: after.log == w.log + [e] && !e.AiSent?)
            && (after.log == w.log + [Released(t)] || Silent(after, t))
  {
    hide Inv, Silent, DoTurn, DoTake, DoFree, DoScan, Aborted, CanTurn, CanTake, CanFree, CanScan;
    match s.action
    case Turn(action) => TurnKeepsSilent(w, s.actor, action, t);
    case Take(action) => TakeKeepsSilent(w, s.actor, action, t);
    case Free(action) => FreeKeepsSilent(w, s.actor, action, t);
    case Scan(action) => ScanKeepsSilent(w, s.actor, action, t);
    case Abort => AbortKeepsSilent(w, s.actor, t);
  }

  lemma {:induction false} LogGrows(w: World, steps: seq<Step>)
    requires Run(w, steps).Some?
    ensures w.log <= Run(w, steps).value.log
    decreases |steps|
  {
    if steps != [] {
      StepGrowsLog(w, steps[0]);
      hide Do, Enabled;
      LogGrows(Do(w, steps[0]), steps[1..]);
    }
  }

  lemma StepGrowsLog(w: World, s: Step)
    requires Enabled(w, s)
    ensures w.log <= Do(w, s).log
  {
  }

  lemma {:induction false} SilentIsNeverAnswered(w: World, rest: seq<Step>, t: TalkId)
    requires Inv(w) && Silent(w, t)
    ensures !AnswersLead(w, rest, t)
    decreases |rest|
  {
    hide Inv, Silent, Do, Enabled;
    if Run(w, rest).None? || rest == [] {
      return;
    }
    var after := Do(w, rest[0]);
    StepKeepsInv(w, rest[0]);
    StepKeepsSilent(w, rest[0], t);
    LogGrows(after, rest[1..]);
    var log := Run(w, rest).value.log;
    if after.log != w.log {
      assert log[|w.log|] == after.log[|w.log|];
    }
    if after.log != w.log + [Released(t)] {
      SilentIsNeverAnswered(after, rest[1..], t);
    }
  }

  // ---------------------------------------------------- how a reply comes about

  lemma FreshId(s: set<nat>) returns (n: nat)
    ensures n !in s
  {
    n := Above(s);
  }

  lemma Above(s: set<nat>) returns (n: nat)
    ensures forall x | x in s :: x < n
    decreases s
  {
    if s == {} {
      return 0;
    }
    var x :| x in s;
    var m := Above(s - {x});
    n := if x < m then m else x + 1;
    forall y | y in s ensures y < n {
      assert y == x || y in s - {x};
    }
  }

  lemma {:induction false} RunConcat(w: World, a: seq<Step>, b: seq<Step>)
    requires Run(w, a).Some?
    ensures Run(w, a + b) == Run(Run(w, a).value, b)
    decreases |a|
  {
    if a == [] {
      assert a + b == b;
    } else {
      assert (a + b)[1..] == a[1..] + b;
      RunConcat(Do(w, a[0]), a[1..], b);
    }
  }

  lemma OneStep(w: World, s: Step)
    requires Enabled(w, s)
    ensures Run(w, [s]) == Some(Do(w, s))
  {
    assert [s][1..] == [];
    assert Run(Do(w, s), []) == Some(Do(w, s));
  }

  /** A turn that chose a talk in AI hands runs on and replies. */
  lemma ChosenAnswers(w: World, b: Actor, u: TalkId, t: TalkId) returns (rest: seq<Step>)
    requires w.lock.None? && Chose(w, b, u) && u in w.talks && w.talks[u].mode.Ai?
    ensures AnswersLead(w, rest, t)
  {
    var lock, gate, send := Step(b, Turn(TurnLock)), Step(b, Turn(TurnGate)), Step(b, Turn(TurnSend));
    OneStep(w, lock);
    RunSnoc(w, [lock], gate);
    RunSnoc(w, [lock] + [gate], send);
    rest := [lock] + [gate] + [send];
    assert Run(w, rest).value.log == w.log + [AiSent(u)];
    assert Run(w, rest).value.log[|w.log|].AiSent?;
  }

  /** The newest open talk, in AI hands, or a first one is chosen by a new turn. */
  lemma NewTurnAnswers(w: World, u: TalkId, t: TalkId) returns (rest: seq<Step>)
    requires w.lock.None?
    requires if u in w.talks then IsNewest(w, u) && w.talks[u].mode.Ai? else NoneOpen(w) && IsNew(w, u)
    ensures AnswersLead(w, rest, t)
  {
    var b := FreshId(w.actors.Keys);
    var open := Step(b, Turn(TurnOpen(u)));
    OneStep(w, open);
    var after := Run(w, [open]).value;
    var more := ChosenAnswers(after, b, u, t);
    RunConcat(w, [open], more);
    rest := [open] + more;
  }

  /** A talk in human hands that someone can release comes back to the AI; the turns that chose
      a talk still have. */
  lemma Frees(w: World, u: TalkId, t: TalkId) returns (steps: seq<Step>, after: World)
    requires Inv(w) && w.lock.None? && u != t && u in w.talks && w.talks[u].mode.Human?
    requires IsNewest(w, u) || Freeing(w, u)
    ensures Run(w, steps) == Some(after) && after.lock.None? && after.log == w.log + [Released(u)]
    ensures after.talks == w.talks[u := w.talks[u].(mode := Ai)]
    ensures forall b, v | Chose(w, b, v) :: Chose(after, b, v)
  {
    if u in w.rows {
      var b := w.rows[u];
      assert RowOk(w, u) && ActorOk(w, b);
      hide Inv;
      steps, after := Commits(w, b, u);
    } else if b :| b in w.actors && (w.actors[b] == FreeChose(u) || w.actors[b] == FreeWrote(u)) {
      assert ActorOk(w, b);
      hide Inv;
      steps, after := Updates(w, b, u);
    } else {
      hide Inv;
      var b := FreshId(w.actors.Keys);
      var select := Step(b, Free(FreeSelect(u)));
      OneStep(w, select);
      var chosen := Run(w, [select]).value;
      var more, end := Updates(chosen, b, u);
      RunConcat(w, [select], more);
      steps, after := [select] + more, end;
      forall c, v | Chose(w, c, v) ensures Chose(after, c, v) {
        assert Chose(chosen, c, v);
      }
    }
  }

  lemma Commits(w: World, b: Actor, u: TalkId) returns (steps: seq<Step>, after: World)
    requires w.lock.None? && b in w.actors && w.actors[b] == FreeWrote(u) && u in w.talks
    ensures Run(w, steps) == Some(after) && after.lock.None? && after.log == w.log + [Released(u)]
    ensures after.talks == w.talks[u := w.talks[u].(mode := Ai)]
    ensures forall c, v | Chose(w, c, v) :: Chose(after, c, v)
  {
    var commit := Step(b, Free(FreeCommit));
    OneStep(w, commit);
    steps := [commit];
    after := Run(w, steps).value;
  }

  lemma Updates(w: World, b: Actor, u: TalkId) returns (steps: seq<Step>, after: World)
    requires w.lock.None? && b in w.actors && w.actors[b] == FreeChose(u)
    requires u in w.talks && w.talks[u].mode.Human? && u !in w.rows
    ensures Run(w, steps) == Some(after) && after.lock.None? && after.log == w.log + [Released(u)]
    ensures after.talks == w.talks[u := w.talks[u].(mode := Ai)]
    ensures forall c, v | Chose(w, c, v) :: Chose(after, c, v)
  {
    var update := Step(b, Free(FreeUpdate));
    OneStep(w, update);
    var wrote := Run(w, [update]).value;
    var more, end := Commits(wrote, b, u);
    RunConcat(w, [update], more);
    steps, after := [update] + more, end;
    forall c, v | Chose(w, c, v) ensures Chose(after, c, v) {
      assert Chose(wrote, c, v);
    }
  }

  lemma AnswersLater(w: World, steps: seq<Step>, after: World, more: seq<Step>, t: TalkId)
    requires Run(w, steps) == Some(after) && w.log <= after.log
    requires forall k | |w.log| <= k < |after.log| :: after.log[k] != Released(t)
    requires AnswersLead(after, more, t)
    ensures AnswersLead(w, steps + more, t)
  {
    RunConcat(w, steps, more);
    LogGrows(after, more);
    var log := Run(after, more).value.log;
    forall k | |w.log| <= k < |log| ensures log[k] != Released(t) {
      if k < |after.log| {
        assert log[k] == after.log[k];
      }
    }
  }

  lemma OpenTalkAnswers(w: World, u: TalkId, t: TalkId) returns (rest: seq<Step>)
    requires Inv(w) && w.lock.None? && u != t && IsNewest(w, u)
    ensures AnswersLead(w, rest, t)
  {
    if w.talks[u].mode.Ai? {
      rest := NewTurnAnswers(w, u, t);
    } else {
      var steps, after := Frees(w, u, t);
      hide Inv, AnswersLead;
      var more := NewTurnAnswers(after, u, t);
      AnswersLater(w, steps, after, more, t);
      rest := steps + more;
    }
  }

  lemma ChosenTalkAnswers(w: World, b: Actor, u: TalkId, t: TalkId) returns (rest: seq<Step>)
    requires Inv(w) && w.lock.None? && u != t && Chose(w, b, u) && u in w.talks && (w.talks[u].mode.Ai? || Freeing(w, u))
    ensures AnswersLead(w, rest, t)
  {
    if w.talks[u].mode.Ai? {
      rest := ChosenAnswers(w, b, u, t);
    } else {
      var steps, after := Frees(w, u, t);
      hide Inv, AnswersLead;
      var more := ChosenAnswers(after, b, u, t);
      AnswersLater(w, steps, after, more, t);
      rest := steps + more;
    }
  }

  lemma TakenIsSilent(w: World, t: TalkId)
    requires Inv(w) && w.lock.None? && !CanAnswer(w, t) && w.talks[t].mode.Human?
    ensures Silent(w, t)
  {
    forall b | b in w.actors ensures SilentActor(w, b, t) {
      assert ActorOk(w, b);
      if w.actors[b].TurnChose? {
        assert Chose(w, b, w.actors[b].talk);
      }
    }
  }

  lemma TakenState(w: World, a: Actor)
    requires Inv(w) && Enabled(w, Step(a, Take(TakeCommit)))
    ensures var after, t := Do(w, Step(a, Take(TakeCommit))), w.actors[a].talk;
            Inv(after) && after.lock.None? && t in after.talks && after.talks[t].mode.Human?
  {
    StepKeepsInv(w, Step(a, Take(TakeCommit)));
    assert ActorOk(w, a);
  }

  /** A lead with an open talk has a newest one. */
  lemma SomeNewest(w: World, among: set<TalkId>)
    ensures (forall u | u in among :: !IsOpen(w, u))
         || exists u :: u in among && IsOpen(w, u) && forall v | v in among && IsOpen(w, v) :: v <= u
    decreases among
  {
    hide IsOpen;
    if x :| x in among {
      SomeNewest(w, among - {x});
      if u :| u in among - {x} && IsOpen(w, u) && forall v | v in among - {x} && IsOpen(w, v) :: v <= u {
        var top := if IsOpen(w, x) && x > u then x else u;
        assert forall v | v in among && IsOpen(w, v) :: v == x || v in among - {x};
        assert top in among && IsOpen(w, top) && forall v | v in among && IsOpen(w, v) :: v <= top;
      } else if IsOpen(w, x) {
        assert forall v | v in among && IsOpen(w, v) :: v == x || v in among - {x};
        assert x in among && IsOpen(w, x) && forall v | v in among && IsOpen(w, v) :: v <= x;
      }
    }
  }

  lemma NoneOrNewest(w: World)
    ensures NoneOpen(w) || exists u :: IsNewest(w, u)
  {
    SomeNewest(w, w.talks.Keys);
    if u :| u in w.talks.Keys && IsOpen(w, u) && forall v | v in w.talks.Keys && IsOpen(w, v) :: v <= u {
      assert IsNewest(w, u);
    }
  }

  /** The lead-level guarantee, exactly: after a takeover of `t` commits, some continuation
      answers the lead without releasing `t` if and only if `t` is not the lead's newest open
      talk then, or a turn that had chosen another talk before still finds it in AI hands or
      about to be released to it. */
  lemma TakeoverSilencesExactly(w: World, a: Actor)
    requires Reachable(w) && Enabled(w, Step(a, Take(TakeCommit)))
    ensures var after, t := Do(w, Step(a, Take(TakeCommit))), w.actors[a].talk;
            (exists rest :: AnswersLead(after, rest, t)) <==> CanAnswer(after, t)
  {
    ReachableIsGood(w);
    TakenState(w, a);
    var after, t := Do(w, Step(a, Take(TakeCommit))), w.actors[a].talk;
    hide Inv, AnswersLead, Do, Enabled;
    NoneOrNewest(after);
    if !CanAnswer(after, t) {
      TakenIsSilent(after, t);
      forall rest ensures !AnswersLead(after, rest, t) {
        SilentIsNeverAnswered(after, rest, t);
      }
    } else if NoneOpen(after) {
      var u := Above(after.talks.Keys);
      var rest := NewTurnAnswers(after, u, t);
    } else if u :| u != t && IsNewest(after, u) {
      var rest := OpenTalkAnswers(after, u, t);
    } else {
      var b, u :| u != t && Chose(after, b, u) && u in after.talks && (after.talks[u].mode.Ai? || Freeing(after, u));
      var rest := ChosenTalkAnswers(after, b, u, t);
    }
  }

  // ------------------------------------------------- the worker's session lock

  predicate Opens(s: Step) {
    s.action.Turn? && s.action.turn.TurnOpen?
  }

  /** The worker's turns: the lead's lock is taken with the lookup of the talk. */
  predicate LockedLookups(steps: seq<Step>) {
    forall i | 0 <= i < |steps| && Opens(steps[i]) :: i + 1 < |steps| && steps[i + 1] == Step(steps[i].actor, Turn(TurnLock))
  }

  predicate InTurn(w: World, b: Actor, t: TalkId) {
    b in w.actors && (w.actors[b] == TurnLocked(t) || w.actors[b] == TurnGated(t))
  }

  /** At most one talk is open, and a turn under way is on the only one that may be. */
  ghost predicate Solo(w: World) {
    && (forall u, v | u in w.talks && v in w.talks && IsOpen(w, u) && IsOpen(w, v) :: u == v)
    && (forall b, t | InTurn(w, b, t) :: forall u | u in w.talks && IsOpen(w, u) :: u == t)
    && (forall b | b in w.actors :: !w.actors[b].TurnChose?)
  }

  /** No step but a lookup opens a talk, other than the one of the turn under way. */
  lemma StepOpensNone(w: World, s: Step, u: TalkId)
    requires Inv(w) && Enabled(w, s) && !Opens(s) && u in Do(w, s).talks && IsOpen(Do(w, s), u)
    ensures (u in w.talks && IsOpen(w, u)) || InTurn(w, s.actor, u)
  {
    assert s.actor in w.actors ==> ActorOk(w, s.actor);
  }

  lemma StepStartsNone(w: World, s: Step, b: Actor, t: TalkId)
    requires Enabled(w, s) && !Opens(s) && InTurn(Do(w, s), b, t)
    ensures InTurn(w, b, t) || (b == s.actor && s.action == Turn(TurnLock) && Chose(w, b, t))
  {
  }

  lemma StepChoosesNone(w: World, s: Step, b: Actor)
    requires Enabled(w, s) && !Opens(s) && b in Do(w, s).actors && Do(w, s).actors[b].TurnChose?
    ensures b in w.actors && w.actors[b].TurnChose?
  {
  }

  lemma StepKeepsSolo(w: World, s: Step)
    requires Inv(w) && Solo(w) && Enabled(w, s) && !Opens(s)
    ensures Solo(Do(w, s))
  {
    var after := Do(w, s);
    hide Inv, Do, Enabled, Opens, IsOpen;
    forall u | u in after.talks && IsOpen(after, u) ensures (u in w.talks && IsOpen(w, u)) || InTurn(w, s.actor, u) {
      StepOpensNone(w, s, u);
    }
    forall b | b in after.actors ensures !after.actors[b].TurnChose? {
      if after.actors[b].TurnChose? {
        StepChoosesNone(w, s, b);
      }
    }
    forall b, t | InTurn(after, b, t) ensures InTurn(w, b, t) {
      StepStartsNone(w, s, b, t);
    }
    forall b, t, u | InTurn(after, b, t) && u in after.talks && IsOpen(after, u) ensures u == t {
      if InTurn(w, s.actor, u) {
        OneTurn(w, b, t, s.actor, u);
      }
    }
  }

  /** The lock admits one turn. */
  lemma OneTurn(w: World, b: Actor, t: TalkId, c: Actor, u: TalkId)
    requires Inv(w) && InTurn(w, b, t) && InTurn(w, c, u)
    ensures b == c && t == u
  {
    assert ActorOk(w, b) && ActorOk(w, c);
  }

  /** A lookup with the lock taken at once finds the open talk, or opens the only one. */
  lemma LookupKeepsSolo(w: World, a: Actor, t: TalkId)
    requires Inv(w) && Solo(w)
    requires Enabled(w, Step(a, Turn(TurnOpen(t)))) && Enabled(Do(w, Step(a, Turn(TurnOpen(t)))), Step(a, Turn(TurnLock)))
    ensures Solo(Do(Do(w, Step(a, Turn(TurnOpen(t)))), Step(a, Turn(TurnLock))))
  {
    var found := Do(w, Step(a, Turn(TurnOpen(t))));
    var after := Do(found, Step(a, Turn(TurnLock)));
    assert after.talks == found.talks && after.actors == w.actors[a := TurnLocked(t)];
    forall u | u in after.talks && IsOpen(after, u) ensures u == t {
      assert u != t ==> u in w.talks && IsOpen(w, u);
    }
    forall b, u | InTurn(after, b, u) ensures u == t {
      assert b in w.actors ==> ActorOk(w, b);
    }
  }

  lemma {:induction false} WorkerRunsAreSolo(w: World, steps: seq<Step>)
    requires Inv(w) && Solo(w) && LockedLookups(steps) && Run(w, steps).Some?
    ensures Solo(Run(w, steps).value)
    decreases |steps|
  {
    if steps == [] {
      return;
    }
    hide Inv, Solo, Do, Enabled;
    StepKeepsInv(w, steps[0]);
    var one := Do(w, steps[0]);
    if !Opens(steps[0]) {
      StepKeepsSolo(w, steps[0]);
      WorkerRunsAreSolo(one, steps[1..]);
      return;
    }
    assert steps[1..][0] == steps[1] && steps[1..][1..] == steps[2..];
    LookupKeepsSolo(w, steps[0].actor, steps[0].action.turn.talk);
    StepKeepsInv(one, steps[1]);
    WorkerRunsAreSolo(Do(one, steps[1]), steps[2..]);
  }

  /** In the worker's runs a lead has at most one open talk. */
  lemma AtMostOneOpenTalk(steps: seq<Step>, u: TalkId, v: TalkId)
    requires LockedLookups(steps) && Run(START, steps).Some?
    requires var w := Run(START, steps).value; u in w.talks && v in w.talks && IsOpen(w, u) && IsOpen(w, v)
    ensures u == v
  {
    RunKeepsInv(START, []);
    WorkerRunsAreSolo(START, steps);
  }

  /** And after the worker's runs a takeover silences the AI for the lead exactly when its talk is
      still open at the commit. */
  lemma WorkerTakeoverSilencesExactly(steps: seq<Step>, a: Actor)
    requires LockedLookups(steps) && Run(START, steps).Some? && Enabled(Run(START, steps).value, Step(a, Take(TakeCommit)))
    ensures var w := Run(START, steps).value;
            var after, t := Do(w, Step(a, Take(TakeCommit))), w.actors[a].talk;
            (exists rest :: AnswersLead(after, rest, t)) <==> !IsOpen(after, t)
  {
    var w, s := Run(START, steps).value, Step(a, Take(TakeCommit));
    RunKeepsInv(START, steps);
    WorkerRunsAreSolo(START, steps);
    TakeoverSilencesExactly(w, a);
    StepKeepsSolo(w, s);
    TakenState(w, a);
  }

  lemma ScanCloses(w: World, a: Actor, t: TalkId) returns (after: World)
    requires Reachable(w) && a !in w.actors && t in w.talks && w.talks[t] == Talk(Ai, Active) && w.rows == map[]
    requires w.lock.None?
    ensures Reachable(after) && after.log == w.log + [ScanClosed(t, a)] && after.lock.None? && after.rows == map[]
    ensures after.talks == w.talks[t := Talk(Ai, Closed)] && after.actors == w.actors[a := Scanning([], 1)]
  {
    hide Reachable;
    var w1 := Then(w, Step(a, Scan(ScanRead([t]))));
    var w2 := Then(w1, Step(a, Scan(ScanLock)));
    assert [t][1..] == [];
    after := Then(w2, Step(a, Scan(ScanCommit)));
    assert after.actors == w.actors[a := Scanning([], 1)] && after.rows == map[];
  }

  lemma TakesOver(w: World, a: Actor, t: TalkId) returns (after: World)
    requires Reachable(w) && a !in w.actors && IsNewest(w, t) && w.talks[t].mode.Ai? && w.rows == map[] && w.lock.None?
    ensures Reachable(after) && after.log == w.log + [TookOver(t)] && after.lock.None?
    ensures after.talks == w.talks[t := w.talks[t].(mode := Human)] && after.actors == w.actors
  {
    hide Reachable;
    var w1 := Then(w, Step(a, Take(TakeSelect(t))));
    var w2 := Then(w1, Step(a, Take(TakeLock)));
    var w3 := Then(w2, Step(a, Take(TakeUpdate)));
    after := Then(w3, Step(a, Take(TakeCommit)));
    assert after.actors == w.actors;
  }

  /** A turn replied on talk 1, another chose it, a scan closed it, and a takeover lands on the
      lead's next talk, open and in good order. */
  lemma TakesNextTalk() returns (w: World)
    ensures Reachable(w) && w.lock.None? && w.log == [AiSent(1), ScanClosed(1, 7), TookOver(2)] && Chose(w, 1, 1)
    ensures w.talks == map[1 := Talk(Ai, Closed), 2 := Talk(Human, Active)]
  {
    StartIsReachable();
    hide Reachable;
    var w1 := FreshTurnReplies(START, 0, 1);
    var w2 := Then(w1, Step(0, Turn(TurnCommit(None))));
    var w3 := Then(w2, Step(1, Turn(TurnOpen(1))));
    var w4 := ScanCloses(w3, 7, 1);
    var w5 := Then(w4, Step(2, Turn(TurnOpen(2))));
    w := TakesOver(w5, 3, 2);
  }

  /** And the AI still answers, on the talk the turn had chosen. */
  lemma StaleTurnAnswers() returns (w: World)
    ensures Reachable(w) && w.log == [AiSent(1), ScanClosed(1, 7), TookOver(2), AiSent(1)]
    ensures 2 in w.talks && w.talks[2] == Talk(Human, Active)
  {
    var w0 := TakesNextTalk();
    hide Reachable;
    var w1 := Then(w0, Step(1, Turn(TurnLock)));
    var w2 := Then(w1, Step(1, Turn(TurnGate)));
    w := Then(w2, Step(1, Turn(TurnSend)));
  }

  lemma Then(w: World, s: Step) returns (after: World)
    requires Reachable(w) && Enabled(w, s)
    ensures Reachable(after) && after == Do(w, s)
  {
    ReachableStep(w, s);
    after := Do(w, s);
  }
}
