/** Runs of a compiled version-1 TreeFlow: turn after turn, one node of the graph at a time
    (src/ai_sdr/treeflow/compiler.py). A step that raises ends its turn and keeps the state. */
module GraphRuns {
  import opened Wrappers
  import opened CompiledGraph

  /** Collected fields; None is a null. */
  type Fields = map<string, Option<string>>

  datatype Settings = Settings(enabled: bool, minConfidence: real, eval: (string, Fields) -> bool)

  /** The classifier's answer, or its failure. */
  datatype Verdict = Failed | Classified(id: Option<string>, confidence: real)

  datatype Event = Detoured(from: string) | Returned(to: string)

  /** `current` is "" until a turn sets it; `at` is the graph node to run next in this turn;
      `crashed` marks the errors that must not happen. `log` is not part of the stored state. */
  datatype State = State(current: string, origin: Option<string>, active: Option<Objection>, collected: Fields,
                         completed: bool, at: Option<string>, crashed: bool, log: seq<Event>)

  predicate Initial(tf: TreeFlow, s: State) {
    s == State("", None, None, map[], false, None, false, []) || s == State(tf.entry, None, None, map[], false, None, false, [])
  }

  datatype Input =
    | TurnStarts
    | Judged(verdict: Verdict)
    | Extracted(fields: Fields)
    | Answered
    | Raised
    /** The graph has no node of that name. */
    | Lost

  // ------------------------------------------------------------------- steps

  function Lookup(tf: TreeFlow, name: string): Option<Handler> {
    match Build(tf, |tf.nodes|)
    case None => None
    case Some(m) => if name in m then Some(m[name]) else None
  }

  /** `_start_router`. */
  function Route(tf: TreeFlow, s: State): State {
    var id := if s.current == "" then tf.entry else s.current;
    if id == END then s
    else if !Declared(tf, id) then s.(crashed := true)
    else s.(at := Some(id + CLASSIFIER))
  }

  function First(os: seq<Objection>, id: string): (o: Objection)
    requires HasId(os, id)
    ensures o in os && o.id == id
  {
    if os[0].id == id then os[0]
    else
      assert HasId(os[1..], id) by {
        var i :| 0 <= i < |os| && os[i].id == id;
        assert os[1..][i - 1].id == id;
      }
      First(os[1..], id)
  }

  function Detected(tf: TreeFlow, cfg: Settings, n: Node, v: Verdict): (r: Option<Objection>)
    ensures r.Some? ==> r.value in Applicable(tf, n)
  {
    var scope := Applicable(tf, n);
    if scope == [] || !cfg.enabled || v.Failed? then None
    else if v.id.Some? && !HasId(scope, v.id.value) then None
    else if v.id.None? || v.confidence < cfg.minConfidence then None
    else Some(First(scope, v.id.value))
  }

  function Judge(tf: TreeFlow, cfg: Settings, n: Node, s: State, v: Verdict): State {
    match Detected(tf, cfg, n, v)
    case None => s.(at := Some(n.id))
    case Some(o) =>
      if o.subnode.None? then s.(at := Some(n.id + INLINE), active := Some(o))
      else s.(at := Some(o.subnode.value + CLASSIFIER), origin := Some(n.id), log := s.log + [Detoured(n.id)])
  }

  predicate Filled(n: Node, c: Fields) {
    forall f | f in n.required :: f in c && c[f].Some?
  }

  predicate Satisfied(cfg: Settings, n: Node, c: Fields) {
    match n.exit
    case AllFilled => Filled(n, c)
    case Rule(e) => cfg.eval(e, c)
    case Combined(e) => Filled(n, c) && cfg.eval(e, c)
  }

  /** The first edge whose condition holds. */
  function Chosen(cfg: Settings, edges: seq<Edge>, c: Fields): (r: Option<nat>)
    ensures r.None? <==> forall i | 0 <= i < |edges| :: !cfg.eval(edges[i].condition, c)
    ensures r.Some? ==> r.value < |edges| && cfg.eval(edges[r.value].condition, c)
    ensures r.Some? ==> forall j | 0 <= j < r.value :: !cfg.eval(edges[j].condition, c)
  {
    if edges == [] then None
    else if cfg.eval(edges[0].condition, c) then Some(0)
    else
      assert forall i | 0 < i < |edges| :: edges[i] == edges[1..][i - 1];
      match Chosen(cfg, edges[1..], c)
      case None => None
      case Some(i) => Some(i + 1)
  }

  function Respond(tf: TreeFlow, cfg: Settings, n: Node, s: State, fields: Fields): State {
    var c := s.collected + fields;
    var replied := s.(collected := c, completed := false, at := None);
    if !Satisfied(cfg, n, c) then replied.(current := n.id)
    else match Chosen(cfg, n.next, c)
      case None => replied.(current := n.id)
      case Some(i) =>
        var target := n.next[i].target;
        if target == END then replied.(current := END, completed := true)
        else if target == BACK then
          var to := if s.origin.Some? then s.origin.value else tf.entry;
          replied.(current := to, origin := None, log := s.log + [Returned(to)])
        else replied.(current := target)
  }

  function Answer(s: State): State {
    if s.active.None? then s.(crashed := true) else s.(active := None, at := None)
  }

  predicate Enabled(tf: TreeFlow, s: State, input: Input) {
    && !s.crashed
    && if s.at.None? then input.TurnStarts?
       else
         match Lookup(tf, s.at.value)
         case None => input.Lost?
         case Some(Classify(k)) => k < |tf.nodes| && (input.Judged? || input.Raised?)
         case Some(Respond(k)) => k < |tf.nodes| && (input.Extracted? || input.Raised?)
         case Some(Inline(k)) => input.Answered? || input.Raised?
  }

  function Do(tf: TreeFlow, cfg: Settings, s: State, input: Input): State
    requires Enabled(tf, s, input)
  {
    match input
    case TurnStarts => Route(tf, s)
    case Judged(v) => Judge(tf, cfg, tf.nodes[Lookup(tf, s.at.value).value.node], s, v)
    case Extracted(fields) => Respond(tf, cfg, tf.nodes[Lookup(tf, s.at.value).value.node], s, fields)
    case Answered => Answer(s)
    case Raised => s.(at := None)
    case Lost => s.(crashed := true)
  }

  function Run(tf: TreeFlow, cfg: Settings, s: State, inputs: seq<Input>): Option<State>
    decreases |inputs|
  {
    if inputs == [] then Some(s)
    else if Enabled(tf, s, inputs[0]) then Run(tf, cfg, Do(tf, cfg, s, inputs[0]), inputs[1..])
    else None
  }

  // -------------------------------------------------------------- invariant

  /** What a one-slot return register holds: the last detour, unless a return emptied it. */
  function Slot(log: seq<Event>): Option<string> {
    if log == [] then None
    else match log[|log| - 1]
      case Detoured(from) => Some(from)
      case Returned(_) => None
  }

  function ReturnTo(tf: TreeFlow, log: seq<Event>): string {
    if Slot(log).Some? then Slot(log).value else tf.entry
  }

  ghost predicate ReturnsMatch(tf: TreeFlow, log: seq<Event>) {
    forall i | 0 <= i < |log| && log[i].Returned? :: log[i].to == ReturnTo(tf, log[..i])
  }

  ghost predicate Inv(tf: TreeFlow, s: State) {
    && !s.crashed
    && (s.current == "" || s.current == END || Declared(tf, s.current))
    && (s.completed <==> s.current == END)
    && (s.origin.Some? ==> Declared(tf, s.origin.value))
    && s.origin == Slot(s.log)
    && ReturnsMatch(tf, s.log)
    && (s.at.Some? ==>
          && s.current != END && Lookup(tf, s.at.value).Some?
          && Names(tf, s.at.value, Lookup(tf, s.at.value).value)
          && (Lookup(tf, s.at.value).value.Inline? ==> s.active.Some?))
  }

  lemma NamedIsFound(tf: TreeFlow, name: string, h: Handler)
    requires Accepted(tf) && Names(tf, name, h)
    ensures Lookup(tf, name) == Some(h)
  {
    AcceptedBuilds(tf, |tf.nodes|);
    NamesAreUnambiguous(tf, name, h, Build(tf, |tf.nodes|).value[name]);
  }

  lemma DeclaredIsNamed(tf: TreeFlow, id: string) returns (k: nat)
    requires Declared(tf, id)
    ensures k < |tf.nodes| && tf.nodes[k].id == id
  {
    k :| k < |tf.nodes| && NodeIds(tf.nodes)[k] == id;
  }

  /** A classifier is entered only for a declared node. */
  lemma ClassifierIsFound(tf: TreeFlow, id: string)
    requires Accepted(tf) && Declared(tf, id)
    ensures exists k: nat :: Lookup(tf, id + CLASSIFIER) == Some(Classify(k)) && Names(tf, id + CLASSIFIER, Classify(k))
  {
    var k := DeclaredIsNamed(tf, id);
    NamedIsFound(tf, id + CLASSIFIER, Classify(k));
  }

  lemma SlugsAreNotEnd(tf: TreeFlow, id: string)
    requires Accepted(tf) && Declared(tf, id)
    ensures id != END && id != "" && id != BACK
  {
    var k := DeclaredIsNamed(tf, id);
    assert NodeAccepted(tf, tf.nodes[k]);
    assert IsLower(id[0]);
  }

  lemma LogSnoc(tf: TreeFlow, log: seq<Event>, e: Event)
    requires ReturnsMatch(tf, log) && (e.Returned? ==> e.to == ReturnTo(tf, log))
    ensures ReturnsMatch(tf, log + [e])
    ensures Slot(log + [e]) == if e.Detoured? then Some(e.from) else None
  {
    assert (log + [e])[..|log|] == log;
    assert forall i | 0 <= i < |log| :: (log + [e])[..i] == log[..i];
  }

  lemma RouteKeepsInv(tf: TreeFlow, s: State)
    requires Accepted(tf) && Inv(tf, s) && s.at.None?
    ensures Inv(tf, Route(tf, s))
  {
    var id := if s.current == "" then tf.entry else s.current;
    if id != END {
      ClassifierIsFound(tf, id);
    }
  }

  /** Wherever the classifier jumps, a node of the graph is there. */
  lemma JudgeKeepsInv(tf: TreeFlow, cfg: Settings, k: nat, s: State, v: Verdict)
    requires Accepted(tf) && Inv(tf, s) && k < |tf.nodes| && s.current != END
    ensures Inv(tf, Judge(tf, cfg, tf.nodes[k], s, v))
  {
    var n := tf.nodes[k];
    assert NodeAccepted(tf, n);
    assert NodeIds(tf.nodes)[k] == n.id;
    var after, o := Judge(tf, cfg, n, s, v), Detected(tf, cfg, n, v);
    LogSnoc(tf, s.log, Detoured(n.id));
    if o.None? {
      NamedIsFound(tf, n.id, CompiledGraph.Respond(k));
      return;
    }
    LocalObjectionsWin(tf, n, o.value);
    if o.value.subnode.None? {
      NamedIsFound(tf, n.id + INLINE, Inline(k));
    } else {
      ClassifierIsFound(tf, o.value.subnode.value);
    }
  }

  lemma RespondKeepsInv(tf: TreeFlow, cfg: Settings, k: nat, s: State, fields: Fields)
    requires Accepted(tf) && Inv(tf, s) && k < |tf.nodes|
    ensures Inv(tf, Respond(tf, cfg, tf.nodes[k], s, fields))
  {
    var n := tf.nodes[k];
    assert NodeAccepted(tf, n);
    assert NodeIds(tf.nodes)[k] == n.id;
    LogSnoc(tf, s.log, Returned(ReturnTo(tf, s.log)));
    hide Accepted, ReturnsMatch, Declared, Slot, Satisfied, Lookup, Chosen;
    assert forall e | e in n.next :: Declared(tf, e.target) || e.target == END || e.target == BACK;
    forall id | Declared(tf, id) ensures id != END && id != "" {
      SlugsAreNotEnd(tf, id);
    }
  }

  lemma StepKeepsInv(tf: TreeFlow, cfg: Settings, s: State, input: Input)
    requires Accepted(tf) && Inv(tf, s) && Enabled(tf, s, input)
    ensures Inv(tf, Do(tf, cfg, s, input))
  {
    hide Accepted, Judge, Respond, Route, Lookup, ReturnsMatch;
    match input
    case TurnStarts => RouteKeepsInv(tf, s);
    case Judged(v) => JudgeKeepsInv(tf, cfg, Lookup(tf, s.at.value).value.node, s, v);
    case Extracted(fields) => RespondKeepsInv(tf, cfg, Lookup(tf, s.at.value).value.node, s, fields);
    case _ =>
  }

  lemma {:induction false} RunKeepsInv(tf: TreeFlow, cfg: Settings, s: State, inputs: seq<Input>)
    requires Accepted(tf) && Inv(tf, s) && Run(tf, cfg, s, inputs).Some?
    ensures Inv(tf, Run(tf, cfg, s, inputs).value)
    decreases |inputs|
  {
    hide Accepted, Inv, Do, Enabled;
    if inputs != [] {
      StepKeepsInv(tf, cfg, s, inputs[0]);
      RunKeepsInv(tf, cfg, Do(tf, cfg, s, inputs[0]), inputs[1..]);
    }
  }

  // ---------------------------------------------------------------- theorems

  /** In every run of an accepted TreeFlow the router never raises, no jump misses, an inline
      responder always has its objection, and the stored node and origin are declared. */
  lemma EveryRunIsLegal(tf: TreeFlow, cfg: Settings, s: State, inputs: seq<Input>)
    requires Accepted(tf) && Initial(tf, s) && Run(tf, cfg, s, inputs).Some?
    ensures var end := Run(tf, cfg, s, inputs).value;
            && !end.crashed && !Enabled(tf, end, Lost)
            && (end.current == "" || end.current == END || Declared(tf, end.current))
            && (end.origin.None? || Declared(tf, end.origin.value))
            && (end.completed <==> end.current == END)
            && end.origin == Slot(end.log)
  {
    SlugsAreNotEnd(tf, tf.entry);
    assert Inv(tf, s);
    RunKeepsInv(tf, cfg, s, inputs);
  }

  /** Every BACK_TO_ORIGIN exit of a run went to the node of the detour just before it, and to
      the entry node when another return came in between or no detour was made. */
  lemma ReturnsUseTheLastDetour(tf: TreeFlow, cfg: Settings, s: State, inputs: seq<Input>, i: nat)
    requires Accepted(tf) && Initial(tf, s) && Run(tf, cfg, s, inputs).Some?
    requires var log := Run(tf, cfg, s, inputs).value.log; i < |log| && log[i].Returned?
    ensures var log := Run(tf, cfg, s, inputs).value.log;
            log[i].to == if i > 0 && log[i - 1].Detoured? then log[i - 1].from else tf.entry
  {
    SlugsAreNotEnd(tf, tf.entry);
    assert Inv(tf, s);
    RunKeepsInv(tf, cfg, s, inputs);
    var log := Run(tf, cfg, s, inputs).value.log;
    assert log[i].to == ReturnTo(tf, log[..i]);
  }

  /** One slot is not a stack: leaving a detour made inside a detour, the first return finds
      the inner node and the second ends at the entry node, whatever the outer node was. */
  lemma NestedDetourForgetsOuter(tf: TreeFlow, cfg: Settings, s: State, inputs: seq<Input>, i: nat, outer: string, inner: string)
    requires Accepted(tf) && Initial(tf, s) && Run(tf, cfg, s, inputs).Some?
    requires var log := Run(tf, cfg, s, inputs).value.log;
             && i + 3 < |log| && log[i] == Detoured(outer) && log[i + 1] == Detoured(inner)
             && log[i + 2].Returned? && log[i + 3].Returned?
    ensures var log := Run(tf, cfg, s, inputs).value.log;
            log[i + 2].to == inner && log[i + 3].to == tf.entry
  {
    ReturnsUseTheLastDetour(tf, cfg, s, inputs, i + 2);
    ReturnsUseTheLastDetour(tf, cfg, s, inputs, i + 3);
  }

  /** A classifier's answer takes effect exactly for an objection in the node's scope, with
      objections switched on and enough confidence; a node's own objection hides a global one. */
  lemma DetectionIsExact(tf: TreeFlow, cfg: Settings, n: Node, v: Verdict, o: Objection)
    requires Accepted(tf) && n in tf.nodes
    ensures Detected(tf, cfg, n, v) == Some(o) <==>
              && cfg.enabled && v.Classified? && v.id == Some(o.id) && v.confidence >= cfg.minConfidence
              && (o in n.objections || (o in tf.globals && !HasId(n.objections, o.id)))
  {
    LocalObjectionsWin(tf, n, o);
    var scope := Applicable(tf, n);
    if o in scope {
      FirstIsTheOne(scope, o);
    }
  }

  lemma {:induction false} FirstIsTheOne(os: seq<Objection>, o: Objection)
    requires DistinctObjections(os) && o in os
    ensures HasId(os, o.id) && First(os, o.id) == o
    decreases |os|
  {
    var i :| 0 <= i < |os| && os[i] == o;
    if i > 0 {
      assert os[0].id != o.id;
      assert os[1..][i - 1] == o;
      FirstIsTheOne(os[1..], o);
    }
  }

  /** Once a conversation has ended, no turn runs a node any more. */
  lemma {:induction false} EndIsFinal(tf: TreeFlow, cfg: Settings, s: State, inputs: seq<Input>)
    requires Accepted(tf) && Inv(tf, s) && s.current == END && Run(tf, cfg, s, inputs).Some?
    ensures Run(tf, cfg, s, inputs) == Some(s)
    decreases |inputs|
  {
    if inputs != [] {
      EndIsFinal(tf, cfg, Do(tf, cfg, s, inputs[0]), inputs[1..]);
    }
  }

  // ------------------------------------------------- a conversation that gets lost

  const OPEN := Node("open", [], Rule("yes"), [Edge("yes", "talk")], [])
  const TALK := Node("talk", [], Rule("yes"), [Edge("yes", END)], [Objection("price", Some("cost"))])
  const PRICE := Node("cost", [], Rule("yes"), [Edge("yes", BACK)], [Objection("trust", Some("doubt"))])
  const TRUST := Node("doubt", [], Rule("yes"), [Edge("yes", BACK)], [])
  const SALES := TreeFlow([], "open", [OPEN, TALK, PRICE, TRUST])
  const ALWAYS := Settings(true, 0.0, (e: string, c: Fields) => true)

  lemma SalesIdsAreAccepted(n: Node)
    requires n in SALES.nodes
    ensures IsSlug(n.id) && !Ends(n.id, CLASSIFIER) && !Ends(n.id, INLINE)
  {
    LastLetter(n.id);
    assert IsSlugText("open") && IsSlugText("talk") && IsSlugText("cost") && IsSlugText("doubt");
  }

  lemma SalesIsAccepted()
    ensures Accepted(SALES)
  {
    assert NodeIds(SALES.nodes) == ["open", "talk", "cost", "doubt"];
    hide Ends, IsSlug;
    forall n | n in SALES.nodes ensures NodeAccepted(SALES, n) {
      SalesIdsAreAccepted(n);
      assert n == OPEN || n == TALK || n == PRICE || n == TRUST;
    }
  }

  lemma {:induction false} RunSnoc(tf: TreeFlow, cfg: Settings, s: State, inputs: seq<Input>, input: Input)
    requires Run(tf, cfg, s, inputs).Some? && Enabled(tf, Run(tf, cfg, s, inputs).value, input)
    ensures Run(tf, cfg, s, inputs + [input]) == Some(Do(tf, cfg, Run(tf, cfg, s, inputs).value, input))
    decreases |inputs|
  {
    hide Enabled, Do;
    if inputs == [] {
      var after := Do(tf, cfg, s, input);
      assert Run(tf, cfg, after, []) == Some(after);
      assert ([] + [input])[1..] == [];
    } else {
      RunSnoc(tf, cfg, Do(tf, cfg, s, inputs[0]), inputs[1..], input);
      assert (inputs + [input])[1..] == inputs[1..] + [input];
    }
  }

  /** A turn begins at the current node's classifier. */
  lemma TurnBegins(tf: TreeFlow, cfg: Settings, s0: State, inputs: seq<Input>, k: nat)
    requires Accepted(tf) && k < |tf.nodes| && Run(tf, cfg, s0, inputs).Some?
    requires var s := Run(tf, cfg, s0, inputs).value;
             s.at.None? && !s.crashed && tf.nodes[k].id == if s.current == "" then tf.entry else s.current
    ensures Run(tf, cfg, s0, inputs + [TurnStarts])
            == Some(Run(tf, cfg, s0, inputs).value.(at := Some(tf.nodes[k].id + CLASSIFIER)))
  {
    RunSnoc(tf, cfg, s0, inputs, TurnStarts);
    assert NodeIds(tf.nodes)[k] == tf.nodes[k].id;
    SlugsAreNotEnd(tf, tf.nodes[k].id);
  }

  lemma ClassifierJudges(tf: TreeFlow, cfg: Settings, s0: State, inputs: seq<Input>, k: nat, v: Verdict)
    requires Accepted(tf) && k < |tf.nodes| && Run(tf, cfg, s0, inputs).Some?
    requires var s := Run(tf, cfg, s0, inputs).value; !s.crashed && s.at == Some(tf.nodes[k].id + CLASSIFIER)
    ensures Run(tf, cfg, s0, inputs + [Judged(v)]) == Some(Judge(tf, cfg, tf.nodes[k], Run(tf, cfg, s0, inputs).value, v))
  {
    NamedIsFound(tf, tf.nodes[k].id + CLASSIFIER, Classify(k));
    RunSnoc(tf, cfg, s0, inputs, Judged(v));
  }

  /** No objection heard: the node itself replies and the turn is over. */
  lemma NodeReplies(tf: TreeFlow, cfg: Settings, s0: State, inputs: seq<Input>, k: nat)
    requires Accepted(tf) && k < |tf.nodes| && Run(tf, cfg, s0, inputs).Some?
    requires var s := Run(tf, cfg, s0, inputs).value; !s.crashed && s.at == Some(tf.nodes[k].id + CLASSIFIER)
    ensures Run(tf, cfg, s0, inputs + [Judged(Failed)] + [Extracted(map[])])
            == Some(Respond(tf, cfg, tf.nodes[k], Run(tf, cfg, s0, inputs).value.(at := Some(tf.nodes[k].id)), map[]))
  {
    ClassifierJudges(tf, cfg, s0, inputs, k, Failed);
    NamedIsFound(tf, tf.nodes[k].id, CompiledGraph.Respond(k));
    RunSnoc(tf, cfg, s0, inputs + [Judged(Failed)], Extracted(map[]));
  }

  /** From "talk", the price objection is heard and then, at its own node, the trust one. */
  lemma TwoDetours(s0: State, inputs: seq<Input>) returns (longer: seq<Input>)
    requires Accepted(SALES) && Run(SALES, ALWAYS, s0, inputs).Some?
    requires var s := Run(SALES, ALWAYS, s0, inputs).value; s.current == "talk" && s.at.None? && !s.crashed
    ensures var s := Run(SALES, ALWAYS, s0, inputs).value;
            Run(SALES, ALWAYS, s0, longer) == Some(s.(at := Some("doubt" + CLASSIFIER), origin := Some("cost"),
                                                      log := s.log + [Detoured("talk")] + [Detoured("cost")]))
  {
    hide Accepted, Run;
    var price, trust := Classified(Some("price"), 1.0), Classified(Some("trust"), 1.0);
    TurnBegins(SALES, ALWAYS, s0, inputs, 1);
    ClassifierJudges(SALES, ALWAYS, s0, inputs + [TurnStarts], 1, price);
    assert Applicable(SALES, TALK) == TALK.objections;
    var at := Run(SALES, ALWAYS, s0, inputs + [TurnStarts] + [Judged(price)]).value.at;
    assert at == Some("cost" + CLASSIFIER);
    ClassifierJudges(SALES, ALWAYS, s0, inputs + [TurnStarts] + [Judged(price)], 2, trust);
    assert Applicable(SALES, PRICE) == PRICE.objections;
    longer := inputs + [TurnStarts] + [Judged(price)] + [Judged(trust)];
  }

  lemma StaysPut(s: State)
    ensures Run(SALES, ALWAYS, s, []) == Some(s)
  {
  }

  /** The detour left "talk", but the conversation never comes back there: the trust objection,
      raised inside the price detour, took over the slot. */
  lemma DetourNeverComesBack(s0: State) returns (inputs: seq<Input>, end: State)
    requires s0 == State("", None, None, map[], false, None, false, [])
    ensures Accepted(SALES) && Initial(SALES, s0) && Run(SALES, ALWAYS, s0, inputs) == Some(end)
    ensures end.log == [Detoured("talk"), Detoured("cost"), Returned("cost"), Returned("open")]
    ensures end.current == "open" && end.origin.None?
  {
    SalesIsAccepted();
    hide Accepted, Run;
    assert Run(SALES, ALWAYS, s0, []) == Some(s0) by {
      StaysPut(s0);
    }
    TurnBegins(SALES, ALWAYS, s0, [], 0);
    NodeReplies(SALES, ALWAYS, s0, [] + [TurnStarts], 0);
    var t1 := [] + [TurnStarts] + [Judged(Failed)] + [Extracted(map[])];
    var s1 := Run(SALES, ALWAYS, s0, t1).value;
    assert s1 == s0.(current := "talk");
    var t2 := TwoDetours(s0, t1);
    var s3 := Run(SALES, ALWAYS, s0, t2).value;
    NodeReplies(SALES, ALWAYS, s0, t2, 3);
    var t3 := t2 + [Judged(Failed)] + [Extracted(map[])];
    var s4 := Run(SALES, ALWAYS, s0, t3).value;
    assert s4 == s3.(at := None, origin := None, current := "cost", log := s3.log + [Returned("cost")]);
    TurnBegins(SALES, ALWAYS, s0, t3, 2);
    NodeReplies(SALES, ALWAYS, s0, t3 + [TurnStarts], 2);
    inputs := t3 + [TurnStarts] + [Judged(Failed)] + [Extracted(map[])];
    end := Run(SALES, ALWAYS, s0, inputs).value;
  }
}
