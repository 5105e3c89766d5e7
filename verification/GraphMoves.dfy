/** What each graph node of a version-1 TreeFlow does to the stored state, exactly. */
module GraphMoves {
  import opened Wrappers
  import opened CompiledGraph
  import opened GraphRuns

  /** What a node asks for before it is left: its required fields unless it is left by rule alone,
      and its rule unless it has none. */
  ghost predicate ExitMet(cfg: Settings, n: Node, fields: Fields) {
    && (!n.exit.Rule? ==> forall k | 0 <= k < |n.required| :: n.required[k] in fields && fields[n.required[k]] != None)
    && (!n.exit.AllFilled? ==> cfg.eval(n.exit.expression, fields))
  }

  /** The node is left along its `k`-th edge: the first whose condition holds. */
  ghost predicate LeavesBy(cfg: Settings, n: Node, fields: Fields, k: nat) {
    && ExitMet(cfg, n, fields) && k < |n.next| && cfg.eval(n.next[k].condition, fields)
    && forall j | 0 <= j < k :: !cfg.eval(n.next[j].condition, fields)
  }

  /** Where an edge's target leads: a return to where the last detour left, if it is still to be
      returned from. */
  function Destination(tf: TreeFlow, s: State, target: string): string {
    if target == BACK && s.origin.Some? then s.origin.value
    else if target == BACK then tf.entry
    else target
  }

  lemma ExitIsMet(cfg: Settings, n: Node, fields: Fields)
    ensures Satisfied(cfg, n, fields) <==> ExitMet(cfg, n, fields)
  {
    if Filled(n, fields) {
      assert forall k | 0 <= k < |n.required| :: n.required[k] in n.required;
    }
  }

  /** The fields a reply stores: the extracted ones over those collected before. */
  ghost predicate Stored(before: Fields, extracted: Fields, after: Fields) {
    forall name ::
      && (name in after <==> name in before || name in extracted)
      && (name in extracted ==> after[name] == extracted[name])
      && (name in before && name !in extracted ==> after[name] == before[name])
  }

  /** A node's reply: the conversation leaves the node if and only if its exit condition holds of the
      stored fields and one of its edges does, and then along the first such edge; it is completed
      exactly at END, and a return uses its origin up. */
  lemma ReplyMovesExactly(tf: TreeFlow, cfg: Settings, n: Node, s: State, fields: Fields)
    ensures var after := GraphRuns.Respond(tf, cfg, n, s, fields);
            && Stored(s.collected, fields, after.collected)
            && (forall k: nat | LeavesBy(cfg, n, after.collected, k) ::
                  && after.current == Destination(tf, s, n.next[k].target)
                  && (after.completed <==> n.next[k].target == END)
                  && after.origin == if n.next[k].target == BACK then None else s.origin)
            && ((forall k: nat :: !LeavesBy(cfg, n, after.collected, k)) ==>
                  after.current == n.id && !after.completed && after.origin == s.origin)
            && after.at == None && after.active == s.active
  {
    var c := s.collected + fields;
    LeavesByChosen(cfg, n, c);
    ExitIsMet(cfg, n, c);
    hide Satisfied, LeavesBy, ExitMet, Chosen;
  }

  lemma LeavesByChosen(cfg: Settings, n: Node, fields: Fields)
    ensures forall k: nat :: LeavesBy(cfg, n, fields, k) <==> ExitMet(cfg, n, fields) && Chosen(cfg, n.next, fields) == Some(k)
  {
    hide ExitMet;
  }

  /** The classifier's verdict names objection `o` in the node's scope, with enough confidence. */
  predicate Hears(tf: TreeFlow, cfg: Settings, n: Node, v: Verdict, o: Objection) {
    && cfg.enabled && v.Classified? && v.id == Some(o.id) && v.confidence >= cfg.minConfidence
    && (o in n.objections || (o in tf.globals && !HasId(n.objections, o.id)))
  }

  /** A classifier's jump: to the objection's own node, remembering where from, to the node's inline
      responder with the objection at hand, or, when nothing is heard, to the node itself. Nothing
      else is written. */
  lemma JudgementJumpsExactly(tf: TreeFlow, cfg: Settings, n: Node, s: State, v: Verdict)
    requires Accepted(tf) && n in tf.nodes
    ensures var after := Judge(tf, cfg, n, s, v);
            && (forall o | Hears(tf, cfg, n, v, o) && o.subnode.Some? ::
                  && after.at == Some(o.subnode.value + CLASSIFIER) && after.origin == Some(n.id)
                  && after.log == s.log + [Detoured(n.id)] && after.active == s.active)
            && (forall o | Hears(tf, cfg, n, v, o) && o.subnode.None? ::
                  after.at == Some(n.id + INLINE) && after.active == Some(o) && after.origin == s.origin)
            && ((forall o :: !Hears(tf, cfg, n, v, o)) ==> after == s.(at := Some(n.id)))
            && after.current == s.current && after.collected == s.collected && after.completed == s.completed
  {
    forall o ensures Hears(tf, cfg, n, v, o) <==> Detected(tf, cfg, n, v) == Some(o) {
      DetectionIsExact(tf, cfg, n, v, o);
    }
    hide Detected, Hears, Accepted;
    if Detected(tf, cfg, n, v).Some? {
      assert Hears(tf, cfg, n, v, Detected(tf, cfg, n, v).value);
    }
  }

  /** A turn of the graph starts at the classifier of the stored node, or of the entry node when none
      is stored; at END it runs nothing. An inline responder answers and leaves the conversation
      where it was; a node that fails writes nothing. */
  lemma OtherStepsMoveNothing(tf: TreeFlow, cfg: Settings, s: State, input: Input)
    requires Accepted(tf) && Inv(tf, s) && Enabled(tf, s, input) && !input.Judged? && !input.Extracted?
    ensures var after := Do(tf, cfg, s, input);
            && after == s.(at := after.at, active := after.active)
            && (after.at.Some? <==> input.TurnStarts? && s.current != END)
            && (after.at.Some? ==> after.at == Some((if s.current == "" then tf.entry else s.current) + CLASSIFIER))
            && after.active == if input.Answered? then None else s.active
  {
    StepKeepsInv(tf, cfg, s, input);
    SlugsAreNotEnd(tf, tf.entry);
    hide Accepted, Lookup, ReturnsMatch;
  }

  /** In every run, the stored node changes only by the reply of a declared node, as that node's
      edges say. */
  lemma OnlyRepliesMove(tf: TreeFlow, cfg: Settings, s: State, input: Input)
    requires Accepted(tf) && Inv(tf, s) && Enabled(tf, s, input) && Do(tf, cfg, s, input).current != s.current
    ensures input.Extracted? && exists n :: n in tf.nodes && s.at == Some(n.id) && Do(tf, cfg, s, input) == GraphRuns.Respond(tf, cfg, n, s, input.fields)
  {
    hide Accepted, ReturnsMatch, GraphRuns.Respond, Judge, Route, Lookup;
    if input.Judged? {
      JudgementJumpsExactly(tf, cfg, tf.nodes[Lookup(tf, s.at.value).value.node], s, input.verdict);
    } else if !input.Extracted? {
      OtherStepsMoveNothing(tf, cfg, s, input);
    } else {
      var n := tf.nodes[Lookup(tf, s.at.value).value.node];
      assert n in tf.nodes && s.at == Some(n.id);
    }
  }
}
