/** What every run of FlowEngine v2 turns keeps, for every accepted TreeFlow and
    whatever the model answers, with operators and the talk scanner acting between
    turns. */
module TurnTheorems {
  import opened Wrappers
  import opened Treeflow
  import opened TurnMachine

  /** One committed step on the talk. */
  datatype Step = TurnStep(input: Input) | Handling(human: bool) | ScanClose(why: CloseReason)

  function Next(f: Flow, rules: Rules, c: Talk, s: Step): Talk {
    match s
    case TurnStep(i) => Turn(f, rules, c, i).talk
    case Handling(human) => c.(human := human)
    case ScanClose(why) => if c.status.Active? && !c.human then c.(status := Closed(why)) else c
  }

  function EventsOf(f: Flow, rules: Rules, c: Talk, s: Step): seq<Event> {
    if s.TurnStep? then Turn(f, rules, c, s.input).events else []
  }

  ghost function Run(f: Flow, rules: Rules, c: Talk, steps: seq<Step>): Talk
    decreases |steps|
  {
    if steps == [] then c else Run(f, rules, Next(f, rules, c, steps[0]), steps[1..])
  }

  // ----------------------------------------------------- what a turn can do

  /** A turn that changes the talk's routing state applied one of the three answers. */
  ghost predicate AppliedWith(f: Flow, rules: Rules, c: Talk, i: Input, d: Decision, target: string) {
    && !c.human && c.node in f.nodes
    && Guarded(rules, i).Some? && Retried(f, rules, c, Guarded(rules, i).value, i.moveRetry) == (d, target)
    && Apply(f, rules, c, d, target).Some?
    && Turn(f, rules, c, i).events == Apply(f, rules, c, d, target).value.events
    && (Turn(f, rules, c, i).talk == Apply(f, rules, c, d, target).value.talk
        || Turn(f, rules, c, i).talk == Escalate(Apply(f, rules, c, d, target).value.talk, VoiceFailed))
  }

  /** Nothing but the status and the review reason changed. */
  predicate SameRouting(a: Talk, b: Talk) {
    b == a.(status := b.status, review := b.review)
  }

  lemma TurnAppliesOrKeeps(f: Flow, rules: Rules, c: Talk, i: Input)
    ensures (exists d, target :: AppliedWith(f, rules, c, i, d, target))
         || (SameRouting(c, Turn(f, rules, c, i).talk) && Turn(f, rules, c, i).events == [])
  {
    hide Retried, Apply, Guarded;
    if !c.human && c.node in f.nodes && Guarded(rules, i).Some? {
      var (d, target) := Retried(f, rules, c, Guarded(rules, i).value, i.moveRetry);
      if Apply(f, rules, c, d, target).Some? && !SameRouting(c, Turn(f, rules, c, i).talk) {
        assert AppliedWith(f, rules, c, i, d, target);
      } else if Apply(f, rules, c, d, target).Some? && Turn(f, rules, c, i).events != [] {
        assert AppliedWith(f, rules, c, i, d, target);
      }
    }
  }

  /** An applied decision sets the routing state as `Merged` says, up to the off-topic
      counter. */
  lemma ApplyMerges(f: Flow, rules: Rules, c: Talk, d: Decision, target: string)
    requires Apply(f, rules, c, d, target).Some?
    ensures var t, delta := Apply(f, rules, c, d, target).value.talk, Treat(f, c.node, c.active, Corrected(rules, d));
            && t.node == target && t.active == delta.active && t.handled == c.handled + delta.appended
            && t.human == c.human && t.turns == c.turns + 1 && t.facts == c.facts + d.facts
            && Apply(f, rules, c, d, target).value.events == delta.events
            && (t.collected == c.collected + d.collected
                || exists n :: t.collected == (c.collected + d.collected)[OFFTOPIC_KEY := Num(n)])
  {
    hide Treat, Corrected, OffTopicCount;
  }

  // ------------------------------------------------------ bounds and nodes

  ghost predicate Bounded(active: Option<Treatment>) {
    active.Some? ==> 1 <= active.value.current <= active.value.max <= 10
  }

  ghost predicate Inv(f: Flow, c: Talk) {
    c.node in f.nodes && Bounded(c.active)
  }

  lemma ToolPayloadInRange(f: Flow, node: string, id: string)
    requires Accepted(f) && FindTool(f, node, id).Some?
    ensures 1 <= FindTool(f, node, id).value.maxTurns <= 10
  {
    var o := Find(f, node, id).value;
    if node in f.nodes && FindIn(f.nodes[node].objections, id).Some? {
      var k :| 0 <= k < |f.nodes[node].objections| && f.nodes[node].objections[k] == o;
      assert NodeOk(f.nodes, f.nodes[node]) && WellFormed(f.nodes[node].objections[k]);
    } else {
      var k :| 0 <= k < |f.globals| && f.globals[k] == o;
      assert WellFormed(f.globals[k]);
    }
  }

  lemma TreatKeepsBounds(f: Flow, node: string, active: Option<Treatment>, d: Decision)
    requires Accepted(f) && Bounded(active)
    ensures Bounded(Treat(f, node, active, d).active)
  {
    if d.detected.Some? && FindTool(f, node, d.detected.value).Some? {
      ToolPayloadInRange(f, node, d.detected.value);
    }
  }

  /** An accepted route stays put or follows the first declared edge to its target,
      which held, with no treatment open and the exit condition met. */
  ghost predicate Justified(f: Flow, rules: Rules, c: Talk, d: Decision, target: string) {
    && c.active.None?
    && c.node in f.nodes
    && EdgeTo(f.nodes[c.node].next, target).Some?
    && Holds(rules, EdgeTo(f.nodes[c.node].next, target).value, ViewOf(c, d))
    && ExitSatisfied(rules, f.nodes[c.node], c.collected + d.collected)
  }

  lemma RetriedIsJustified(f: Flow, rules: Rules, c: Talk, first: Decision, retry: Decision)
    ensures var (d, target) := Retried(f, rules, c, first, retry);
            target == c.node || Justified(f, rules, c, d, target)
  {
  }

  lemma TurnKeepsInv(f: Flow, rules: Rules, c: Talk, i: Input)
    requires Accepted(f) && Inv(f, c)
    ensures Inv(f, Turn(f, rules, c, i).talk)
  {
    hide Turn, Apply, Retried, Treat, Accepted;
    TurnAppliesOrKeeps(f, rules, c, i);
    if d, target :| AppliedWith(f, rules, c, i, d, target) {
      ApplyMerges(f, rules, c, d, target);
      TreatKeepsBounds(f, c.node, c.active, Corrected(rules, d));
      RetriedIsJustified(f, rules, c, Guarded(rules, i).value, i.moveRetry);
      EdgeIsDefined(f, c.node, target);
    }
  }

  lemma EdgeIsDefined(f: Flow, node: string, target: string)
    requires Accepted(f) && node in f.nodes
    ensures EdgeTo(f.nodes[node].next, target).Some? ==> target in f.nodes
  {
    assert NodeOk(f.nodes, f.nodes[node]);
  }

  /** In every run the current node is a defined node and an open treatment is within
      its bounds. */
  lemma {:induction false} RunKeepsInv(f: Flow, rules: Rules, c: Talk, steps: seq<Step>)
    requires Accepted(f) && Inv(f, c)
    ensures Inv(f, Run(f, rules, c, steps))
    decreases |steps|
  {
    hide Turn, Accepted;
    if steps != [] {
      if steps[0].TurnStep? {
        TurnKeepsInv(f, rules, c, steps[0].input);
      }
      RunKeepsInv(f, rules, Next(f, rules, c, steps[0]), steps[1..]);
    }
  }

  lemma EveryRunIsSafe(f: Flow, rules: Rules, steps: seq<Step>)
    requires Accepted(f)
    ensures Inv(f, Run(f, rules, Opened(f.entry), steps))
  {
    RunKeepsInv(f, rules, Opened(f.entry), steps);
  }

  /** The node is frozen while a treatment is open, whatever the model answers. */
  lemma NodeFrozenInTreatment(f: Flow, rules: Rules, c: Talk, s: Step)
    requires c.active.Some?
    ensures Next(f, rules, c, s).node == c.node
  {
    hide Turn, Apply, Retried, Treat;
    if s.TurnStep? {
      TurnAppliesOrKeeps(f, rules, c, s.input);
      if d, target :| AppliedWith(f, rules, c, s.input, d, target) {
        ApplyMerges(f, rules, c, d, target);
        RetriedIsJustified(f, rules, c, Guarded(rules, s.input).value, s.input.moveRetry);
      }
    }
  }

  /** Every move follows a declared edge whose condition held for the very decision the turn
      applied; leaving a node that requires its fields leaves them filled in the row. */
  lemma EveryMoveIsJustified(f: Flow, rules: Rules, c: Talk, s: Step)
    requires Next(f, rules, c, s).node != c.node
    ensures var after := Next(f, rules, c, s);
            && s.TurnStep?
            && (exists d :: AppliedWith(f, rules, c, s.input, d, after.node) && Justified(f, rules, c, d, after.node))
            && (f.nodes[c.node].exit.AllFieldsFilled? || f.nodes[c.node].exit.Combined?
                ==> RequiredFilled(f.nodes[c.node], after.collected))
  {
    hide Turn, Apply, Retried, Treat, EdgeTo, Guarded;
    var i := s.input;
    TurnAppliesOrKeeps(f, rules, c, i);
    var d, target :| AppliedWith(f, rules, c, i, d, target);
    ApplyMerges(f, rules, c, d, target);
    RetriedIsJustified(f, rules, c, Guarded(rules, i).value, i.moveRetry);
    assert Justified(f, rules, c, d, target);
    if RequiredFilled(f.nodes[c.node], c.collected + d.collected) {
      CountingKeepsFilled(f.nodes[c.node], c.collected + d.collected);
    }
  }

  lemma CountingKeepsFilled(n: Node, fields: Fields)
    requires RequiredFilled(n, fields)
    ensures forall k :: RequiredFilled(n, fields[OFFTOPIC_KEY := Num(k)])
  {
  }

  // ----------------------------------------------------------- conservation

  function Opens(e: Event): nat {
    if e.Entered? || e.Swapped? then 1 else 0
  }

  ghost function OpenedBy(events: seq<Event>): nat {
    if events == [] then 0 else Opens(events[0]) + OpenedBy(events[1..])
  }

  ghost function OpenedInRun(f: Flow, rules: Rules, c: Talk, steps: seq<Step>): nat
    decreases |steps|
  {
    if steps == [] then 0
    else OpenedBy(EventsOf(f, rules, c, steps[0])) + OpenedInRun(f, rules, Next(f, rules, c, steps[0]), steps[1..])
  }

  /** Treatments accounted for: the settled ones and the open one. */
  function Accounted(c: Talk): nat {
    |c.handled| + if c.active.Some? then 1 else 0
  }

  lemma StepConserves(f: Flow, rules: Rules, c: Talk, s: Step)
    ensures Accounted(Next(f, rules, c, s)) == Accounted(c) + OpenedBy(EventsOf(f, rules, c, s))
  {
    hide Turn, Apply, Retried;
    if s.TurnStep? {
      TurnAppliesOrKeeps(f, rules, c, s.input);
      if d, target :| AppliedWith(f, rules, c, s.input, d, target) {
        ApplyMerges(f, rules, c, d, target);
        var events := Treat(f, c.node, c.active, Corrected(rules, d)).events;
        assert |events| == 1 ==> OpenedBy(events) == Opens(events[0]) + OpenedBy(events[1..]);
      }
    }
  }

  /** Over any run, treatments settled plus the open one grow by exactly the number of
      treatments entered or swapped into. */
  lemma {:induction false} TreatmentsAreConserved(f: Flow, rules: Rules, c: Talk, steps: seq<Step>)
    ensures Accounted(Run(f, rules, c, steps)) == Accounted(c) + OpenedInRun(f, rules, c, steps)
    decreases |steps|
  {
    hide Turn, Accounted;
    if steps != [] {
      StepConserves(f, rules, c, steps[0]);
      TreatmentsAreConserved(f, rules, Next(f, rules, c, steps[0]), steps[1..]);
    }
  }

  /** What an event leaves in the history of the treatment it settles. */
  function Settles(t: Treatment, e: Event): seq<Handled> {
    match e
    case Swapped(_, _) => [Handled(t.objection, t.startedAt, t.current, Defer)]
    case Exhausted(_, _) => [Handled(t.objection, t.startedAt, t.current, Exhaust)]
    case Resolved(_, r) => [Handled(t.objection, t.startedAt, t.current, r)]
    case _ => []
  }

  /** The events and the stored history agree: an open treatment is entered in the history
      exactly when an event settles it, as that event says; only the history's end changes. */
  lemma HistoryFollowsEvents(f: Flow, rules: Rules, c: Talk, s: Step)
    ensures var after, events := Next(f, rules, c, s), EventsOf(f, rules, c, s);
            after.handled == c.handled + if c.active.Some? && events != [] then Settles(c.active.value, events[0]) else []
  {
    hide Turn, Apply, Retried, FindTool, ActionAt;
    if s.TurnStep? {
      TurnAppliesOrKeeps(f, rules, c, s.input);
      if d, target :| AppliedWith(f, rules, c, s.input, d, target) {
        ApplyMerges(f, rules, c, d, target);
        assert c.handled + [] == c.handled;
      }
    }
  }

  /** A treatment is resolved only before its last turn, and as accepted only by an applied
      answer that says so without hedging. */
  lemma AcceptedIsNotHedged(f: Flow, rules: Rules, c: Talk, i: Input, id: string, r: Resolution)
    requires c.active.Some? && Resolved(id, r) in Turn(f, rules, c, i).events
    ensures id == c.active.value.objection && c.active.value.current < c.active.value.max && !r.Exhaust?
    ensures exists d, target :: AppliedWith(f, rules, c, i, d, target)
              && (r.Accept? <==> d.treatment == Some(ResolvedAccepted) && !rules.hedges(d.text))
  {
    hide Turn, Apply, Retried, FindTool, ActionAt;
    TurnAppliesOrKeeps(f, rules, c, i);
    var d, target :| AppliedWith(f, rules, c, i, d, target);
    ApplyMerges(f, rules, c, d, target);
  }

  // ------------------------------------------------- bounded treatments

  predicate Swaps(events: seq<Event>) {
    exists e | e in events :: e.Swapped?
  }

  /** The treatment is settled at some point of the run. */
  ghost predicate EverIdle(f: Flow, rules: Rules, c: Talk, steps: seq<Step>)
    decreases |steps|
  {
    c.active.None? || (steps != [] && EverIdle(f, rules, Next(f, rules, c, steps[0]), steps[1..]))
  }

  ghost predicate NoSwap(f: Flow, rules: Rules, c: Talk, steps: seq<Step>)
    decreases |steps|
  {
    steps == [] || (!Swaps(EventsOf(f, rules, c, steps[0])) && NoSwap(f, rules, Next(f, rules, c, steps[0]), steps[1..]))
  }

  /** How many turns of the run applied a decision to an open treatment. */
  ghost function TreatingTurns(f: Flow, rules: Rules, c: Talk, steps: seq<Step>): nat
    decreases |steps|
  {
    if steps == [] then 0
    else |EventsOf(f, rules, c, steps[0])| + TreatingTurns(f, rules, Next(f, rules, c, steps[0]), steps[1..])
  }

  lemma OpenTreatmentStep(f: Flow, rules: Rules, c: Talk, s: Step)
    requires c.active.Some?
    ensures |EventsOf(f, rules, c, s)| <= 1 && Next(f, rules, c, s).node == c.node
    ensures s.TurnStep? && (exists d, target :: AppliedWith(f, rules, c, s.input, d, target)) ==> |EventsOf(f, rules, c, s)| == 1
    ensures !Swaps(EventsOf(f, rules, c, s)) && Next(f, rules, c, s).active.Some? ==>
              var t := c.active.value;
              Next(f, rules, c, s).active == Some(t.(current := t.current + |EventsOf(f, rules, c, s)|))
              && (EventsOf(f, rules, c, s) != [] ==> t.current < t.max)
  {
    NodeFrozenInTreatment(f, rules, c, s);
    hide Turn, Apply, Retried;
    if s.TurnStep? {
      TurnAppliesOrKeeps(f, rules, c, s.input);
      if d, target :| AppliedWith(f, rules, c, s.input, d, target) {
        ApplyMerges(f, rules, c, d, target);
        var events := Treat(f, c.node, c.active, Corrected(rules, d)).events;
        assert events == [events[0]] && events[0] in events;
      }
    }
  }

  /** While a treatment stays open without a swap it sits at its node, and its counter
      moves by one for every treating turn, within the maximum. */
  lemma {:induction false} OpenTreatmentCounts(f: Flow, rules: Rules, c: Talk, steps: seq<Step>)
    requires c.active.Some? && c.active.value.current <= c.active.value.max
    requires NoSwap(f, rules, c, steps) && !EverIdle(f, rules, c, steps)
    ensures var t, n := c.active.value, TreatingTurns(f, rules, c, steps);
            && Run(f, rules, c, steps).active == Some(t.(current := t.current + n))
            && Run(f, rules, c, steps).node == c.node
            && n <= t.max - t.current
    decreases |steps|
  {
    hide Next, EventsOf, Swaps;
    if steps != [] {
      OpenTreatmentStep(f, rules, c, steps[0]);
      OpenTreatmentCounts(f, rules, Next(f, rules, c, steps[0]), steps[1..]);
    }
  }

  /** Without a cross-objection swap a treatment ends within max - current + 1 treating
      turns. */
  lemma TreatmentEnds(f: Flow, rules: Rules, c: Talk, steps: seq<Step>)
    requires c.active.Some? && c.active.value.current <= c.active.value.max
    requires NoSwap(f, rules, c, steps)
    requires TreatingTurns(f, rules, c, steps) > c.active.value.max - c.active.value.current
    ensures EverIdle(f, rules, c, steps)
  {
    if !EverIdle(f, rules, c, steps) {
      OpenTreatmentCounts(f, rules, c, steps);
    }
  }

  // ------------------------------------------------------------- exhaustion

  lemma EntryStep(f: Flow, rules: Rules, c: Talk, s: Step, id: string)
    requires exists e | e in EventsOf(f, rules, c, s) :: (e.Entered? && e.id == id) || (e.Swapped? && e.to == id)
    ensures FindTool(f, c.node, id).Some?
    ensures Next(f, rules, c, s).active == Some(Enter(id, FindTool(f, c.node, id).value))
    ensures c.active.Some? ==> Next(f, rules, c, s).node == c.node
  {
    if c.active.Some? {
      NodeFrozenInTreatment(f, rules, c, s);
    }
    hide Turn, Apply, Retried, FindTool, Enter;
    TurnAppliesOrKeeps(f, rules, c, s.input);
    var d, target :| AppliedWith(f, rules, c, s.input, d, target);
    ApplyMerges(f, rules, c, d, target);
  }

  lemma ExhaustionStep(f: Flow, rules: Rules, c: Talk, s: Step, id: string, action: MaxTurnsAction)
    requires c.active.Some? && Exhausted(id, action) in EventsOf(f, rules, c, s)
    ensures id == c.active.value.objection && action == ActionAt(f, c.node, id)
  {
    hide Turn, Apply, Retried, FindTool, ActionAt;
    TurnAppliesOrKeeps(f, rules, c, s.input);
    var d, target :| AppliedWith(f, rules, c, s.input, d, target);
    ApplyMerges(f, rules, c, d, target);
  }

  /** A treatment entered (or swapped into) by `entry`, kept open through `steps` and
      exhausted by `last`, ends with the action its objection has at the node the entry
      turn moved to; when that turn did not move, this is the action of the very payload
      that started it. */
  lemma ExhaustsWithItsPayload(
    f: Flow, rules: Rules, c: Talk, entry: Step, steps: seq<Step>, last: Step,
    id: string, exhausted: string, action: MaxTurnsAction)
    requires Accepted(f)
    requires exists e | e in EventsOf(f, rules, c, entry) :: (e.Entered? && e.id == id) || (e.Swapped? && e.to == id)
    requires NoSwap(f, rules, Next(f, rules, c, entry), steps) && !EverIdle(f, rules, Next(f, rules, c, entry), steps)
    requires Exhausted(exhausted, action)
             in EventsOf(f, rules, Run(f, rules, Next(f, rules, c, entry), steps), last)
    ensures exhausted == id
    ensures action == ActionAt(f, Next(f, rules, c, entry).node, id)
    ensures Next(f, rules, c, entry).node == c.node
            ==> FindTool(f, c.node, id).Some? && action == FindTool(f, c.node, id).value.action
  {
    EntryStep(f, rules, c, entry, id);
    ToolPayloadInRange(f, c.node, id);
    hide Next, EventsOf;
    OpenTreatmentCounts(f, rules, Next(f, rules, c, entry), steps);
    ExhaustionStep(f, rules, Run(f, rules, Next(f, rules, c, entry), steps), last, exhausted, action);
  }

  /** When the entry turn does move, the payload can be lost: this treatment of "x" was to
      escalate, but its objection is unknown at the node it is exhausted at. */
  lemma MovedEntryLosesPayload() returns (f: Flow, rules: Rules, enter: Input, stay: Input)
    ensures Accepted(f)
    ensures FindTool(f, "a", "x").Some? && FindTool(f, "a", "x").value.action.EscalateToHuman?
    ensures Turn(f, rules, Opened("a"), enter).events == [Entered("x", 1)]
    ensures Turn(f, rules, Turn(f, rules, Opened("a"), enter).talk, stay).events == [Exhausted("x", GracefullyContinue)]
  {
    var x := Objection("x", true, Some(Payload(1, EscalateToHuman, "")));
    var a := Node("a", [], AllFieldsFilled, [Transition("true", "b")], [x], []);
    var b := Node("b", [], AllFieldsFilled, [], [], []);
    f := Flow("a", map["a" := a, "b" := b], [], None);
    rules := Rules((e, v) => true, (e, fs) => true, (cs, fs) => None, s => true, s => false);
    var quiet := Decision("ok", map[], map[], None, None, None, false, false);
    var go := quiet.(detected := Some("x"), next := Some("b"));
    enter, stay := Input(go, go, go, Delivered, false), Input(quiet, quiet, quiet, Delivered, false);
    assert "a" != "b" && "b" != "current";
    assert f.nodes["a"] == a && f.nodes["b"] == b;
    assert EdgeTo(a.next, "b") == Some(a.next[0]);
    assert FindIn(a.objections, "x") == Some(x) && FindIn(b.objections, "x") == None;
    var moved := Turn(f, rules, Opened("a"), enter).talk;
    assert moved.node == "b" && moved.active == Some(Treatment("x", 1, 1, 1, ""));
  }

  /** A talk not yet in review whose delivered turn exhausts a treatment ends in review for it
      exactly when the treatment's action is to escalate and no completion rule holds of the
      merged fields. */
  lemma ExhaustionFlags(f: Flow, rules: Rules, c: Talk, i: Input, id: string, action: MaxTurnsAction)
    requires !c.status.RequiresReview? && c.active.Some?
    requires Turn(f, rules, c, i).outcome.Sent? && Turn(f, rules, c, i).events == [Exhausted(id, action)]
    ensures var after, d := Turn(f, rules, c, i).talk, Retried(f, rules, c, Guarded(rules, i).value, i.moveRetry).0;
            after.status.RequiresReview? && after.review == Some(TreatmentExhausted)
            <==> action.EscalateToHuman? && rules.completion(c.collected + d.collected, c.facts + d.facts).None?
  {
    hide Retried, OffTopicCount, Corrected, FindTool, ActionAt;
    var (d, target) := Retried(f, rules, c, Guarded(rules, i).value, i.moveRetry);
    assert Treat(f, c.node, c.active, Corrected(rules, d)).events[0] == Exhausted(id, action);
  }

  // -------------------------------------------- what the code does not keep

  predicate UsesMoveRetry(f: Flow, rules: Rules, c: Talk, i: Input)
    requires Guarded(rules, i).Some?
  {
    Route(f, rules, c, Guarded(rules, i).value).failure.Some? && Route(f, rules, c, i.moveRetry).failure.None?
  }

  /** A sent reply passed the guardrails unless it is an accepted transition retry,
      which nothing checks again. */
  lemma SentTextIsGuardedExactly(f: Flow, rules: Rules, c: Talk, i: Input)
    requires Turn(f, rules, c, i).outcome.Sent?
    ensures rules.guarded(Turn(f, rules, c, i).outcome.text)
       <==> !UsesMoveRetry(f, rules, c, i) || rules.guarded(i.moveRetry.text)
  {
    hide Apply, Route;
  }

  predicate AsksReview(f: Flow, rules: Rules, c: Talk, d: Decision) {
    || d.escalate
    || Treat(f, c.node, c.active, Corrected(rules, d)).review.Some?
    || (d.offTopic && OffTopicCount(c.collected + d.collected).Some?
        && OffTopicCount(c.collected + d.collected).value + 1 >= OFFTOPIC_THRESHOLD)
  }

  /** The model suggests no node of the flow, and answers the corrective retry with a text the
      guardrails reject: it is sent. */
  lemma UnguardedTextIsSent() returns (f: Flow, rules: Rules, i: Input)
    ensures Accepted(f) && !rules.guarded("rejected")
    ensures Turn(f, rules, Opened("a"), i).outcome == Sent("rejected")
  {
    f := Flow("a", map["a" := Node("a", [], AllFieldsFilled, [], [], [])], [], None);
    rules := Rules((e, v) => true, (e, fs) => true, (cs, fs) => None, s => s != "rejected", s => false);
    var lost := Decision("ok", map[], map[], None, None, Some("nowhere"), false, false);
    var stays := lost.(text := "rejected", next := None);
    i := Input(lost, lost, stays, Delivered, false);
    assert "nowhere" != "a" && "nowhere" != "current" && "ok" != "rejected";
    assert EdgeTo(f.nodes["a"].next, "nowhere") == None;
  }

  /** What keeps a closed talk closed, read off the turn's inputs: the turn fails before or while
      sending, or its delivered answer closes the talk again or asks for no review. */
  predicate KeepsClosed(f: Flow, rules: Rules, c: Talk, i: Input) {
    || c.node !in f.nodes
    || match Guarded(rules, i)
       case None => i.fallbackFails
       case Some(ok) =>
         var d := Retried(f, rules, c, ok, i.moveRetry).0;
         var fields := c.collected + d.collected;
         var closes := rules.completion(fields, c.facts + d.facts).Some?;
         || (!closes && d.offTopic && OffTopicCount(fields).None?)
         || match i.delivery
            case AdapterFailed => true
            case VoiceSynthesisFailed => i.fallbackFails
            case Delivered => closes || !AsksReview(f, rules, c, d)
  }

  /** `run_turn` looks only at the handling mode, so a talk closed before its turn does not stay
      closed unless the inputs keep it so. */
  lemma ClosedTalkReopensExactly(f: Flow, rules: Rules, c: Talk, i: Input)
    requires c.status.Closed? && !c.human
    ensures Turn(f, rules, c, i).talk.status.Closed? <==> KeepsClosed(f, rules, c, i)
  {
    hide Retried, Treat, OffTopicCount;
  }

  /** So a scan's close is overwritten by any delivered turn that asks for a human. */
  lemma ScanCloseIsOverwritten(f: Flow, rules: Rules, c: Talk, i: Input)
    requires c.status.Active? && !c.human && c.node in f.nodes
    requires rules.guarded(i.first.text) && i.first.next.None? && i.first.escalate && !i.first.offTopic
    requires i.delivery.Delivered? && rules.completion(c.collected + i.first.collected, c.facts + i.first.facts).None?
    ensures Run(f, rules, c, [ScanClose(Inactivity), TurnStep(i)]).status.RequiresReview?
  {
    var closed := Next(f, rules, c, ScanClose(Inactivity));
    var steps := [ScanClose(Inactivity), TurnStep(i)];
    assert steps[1..] == [TurnStep(i)] && steps[1..][1..] == [];
    assert Run(f, rules, closed, [TurnStep(i)]) == Turn(f, rules, closed, i).talk;
  }
}
