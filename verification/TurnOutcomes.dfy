/** What one FlowEngine v2 turn does, told from its inputs alone: whether it replies and with
    what, where the talk goes, what becomes of a treatment, and when a human is asked. */
module TurnOutcomes {
  import opened Strings
  import opened Wrappers
  import opened Treeflow
  import opened TurnMachine
  import opened TurnTheorems

  // -------------------------------------------------------------- transitions

  /** `next[k]` is the first declared edge to `target`. */
  ghost predicate FirstEdge(next: seq<Transition>, target: string, k: nat) {
    k < |next| && next[k].target == target && forall j | 0 <= j < k :: next[j].target != target
  }

  /** The condition is "true", or holds of the merged fields and facts, the history so far and
      the number of the turn. */
  ghost predicate ConditionMet(rules: Rules, condition: string, c: Talk, d: Decision) {
    || Strip(condition) == "true"
    || rules.condition(condition, View(c.collected + d.collected, c.facts + d.facts, c.handled, c.turns + 1))
  }

  ghost predicate HasValue(fields: Fields, name: string) {
    name in fields && !fields[name].Null? && fields[name] != Text("")
  }

  /** What a node asks for before it is left; one judged by the model is never left. */
  ghost predicate ExitMet(rules: Rules, n: Node, fields: Fields) {
    && !n.exit.LlmJudge? && !n.exit.Other?
    && (!n.exit.RuleExpression?
        ==> forall k | 0 <= k < |n.collects| && n.collects[k].required :: HasValue(fields, n.collects[k].field))
    && (!n.exit.AllFieldsFilled? ==> rules.expression(n.exit.expr, fields))
  }

  /** The answer suggests leaving for `target`, and may. */
  ghost predicate Follows(f: Flow, rules: Rules, c: Talk, d: Decision, target: string) {
    && d.next == Some(target) && target != "current" && target != c.node
    && c.active.None? && c.node in f.nodes
    && (exists k: nat :: FirstEdge(f.nodes[c.node].next, target, k)
                         && ConditionMet(rules, f.nodes[c.node].next[k].condition, c, d))
    && ExitMet(rules, f.nodes[c.node], c.collected + d.collected)
  }

  ghost predicate Stays(c: Talk, d: Decision) {
    d.next.None? || d.next == Some("current") || d.next == Some(c.node)
  }

  ghost predicate Agrees(f: Flow, rules: Rules, c: Talk, d: Decision) {
    Stays(c, d) || Follows(f, rules, c, d, d.next.value)
  }

  lemma {:induction false} EdgeToIsFirst(next: seq<Transition>, target: string)
    ensures EdgeTo(next, target).Some? ==> exists k: nat :: FirstEdge(next, target, k)
    ensures forall k: nat | FirstEdge(next, target, k) :: EdgeTo(next, target) == Some(next[k])
  {
    if next != [] && next[0].target != target {
      EdgeToIsFirst(next[1..], target);
      if EdgeTo(next[1..], target).Some? {
        var k: nat :| FirstEdge(next[1..], target, k);
        assert forall j | 0 <= j < k :: next[1..][j] == next[j + 1];
        assert FirstEdge(next, target, k + 1);
      }
      forall k: nat | FirstEdge(next, target, k) ensures EdgeTo(next, target) == Some(next[k]) {
        assert forall j | 0 < j <= k :: next[1..][j - 1] == next[j];
        assert FirstEdge(next[1..], target, k - 1);
      }
    } else if next != [] {
      assert FirstEdge(next, target, 0);
      assert forall k: nat | FirstEdge(next, target, k) :: k == 0;
    }
  }

  lemma ExitIsMet(rules: Rules, n: Node, fields: Fields)
    ensures ExitSatisfied(rules, n, fields) <==> ExitMet(rules, n, fields)
  {
    forall k | 0 <= k < |n.collects| && n.collects[k].required && RequiredFilled(n, fields)
      ensures HasValue(fields, n.collects[k].field)
    {
      assert n.collects[k] in n.collects && Filled(fields, n.collects[k].field);
    }
    assert forall name :: Filled(fields, name) <==> HasValue(fields, name);
  }

  lemma RouteAgrees(f: Flow, rules: Rules, c: Talk, d: Decision)
    ensures Route(f, rules, c, d).failure.None? <==> Agrees(f, rules, c, d)
    ensures Agrees(f, rules, c, d) ==> Route(f, rules, c, d).target == if Stays(c, d) then c.node else d.next.value
  {
    hide ExitSatisfied, ExitMet, EdgeTo;
    if !Stays(c, d) && c.node in f.nodes {
      EdgeToIsFirst(f.nodes[c.node].next, d.next.value);
      ExitIsMet(rules, f.nodes[c.node], c.collected + d.collected);
    }
  }

  ghost predicate HasEdge(f: Flow, c: Talk, target: string) {
    c.node in f.nodes && exists k: nat :: FirstEdge(f.nodes[c.node].next, target, k)
  }

  /** Why a suggestion is refused, as the corrective prompt says it: the first of the four checks
      that fails. */
  lemma RefusalNamesFirstFailure(f: Flow, rules: Rules, c: Talk, d: Decision)
    requires !Agrees(f, rules, c, d)
    ensures var why := Route(f, rules, c, d).failure;
            && why.Some? && Route(f, rules, c, d).target == c.node
            && (why.value.InvalidTarget? <==> !HasEdge(f, c, d.next.value))
            && (why.value.ConditionFalse? <==> HasEdge(f, c, d.next.value) && forall k: nat ::
                  FirstEdge(f.nodes[c.node].next, d.next.value, k)
                  ==> !ConditionMet(rules, f.nodes[c.node].next[k].condition, c, d))
            && (why.value.BlockedByTreatment? ==> c.active.Some?)
            && (why.value.ExitNotSatisfied? ==> c.active.None? && !ExitMet(rules, f.nodes[c.node], c.collected + d.collected))
  {
    RouteAgrees(f, rules, c, d);
    hide ExitSatisfied, ExitMet, EdgeTo;
    if c.node in f.nodes {
      EdgeToIsFirst(f.nodes[c.node].next, d.next.value);
      ExitIsMet(rules, f.nodes[c.node], c.collected + d.collected);
    }
  }

  /** The first answer's suggestion is followed if and only if it is justified; only when it is
      not, the same holds of the retry's. */
  lemma SuggestionIsFollowedExactly(f: Flow, rules: Rules, c: Talk, first: Decision, retry: Decision, target: string)
    requires target != c.node
    ensures var r := Retried(f, rules, c, first, retry);
            && (r.1 == target <==> (Follows(f, rules, c, first, target)
                                    || (!Agrees(f, rules, c, first) && Follows(f, rules, c, retry, target))))
            && r.0 == if Agrees(f, rules, c, first) || !Agrees(f, rules, c, retry) then first else retry
  {
    RouteAgrees(f, rules, c, first);
    RouteAgrees(f, rules, c, retry);
    hide Route;
  }

  // ------------------------------------------------------------- the outcome

  /** The first answer the guardrails let pass, if one does. */
  ghost predicate Passing(rules: Rules, i: Input, d: Decision) {
    || (d == i.first && rules.guarded(i.first.text))
    || (d == i.guardRetry && rules.guarded(i.guardRetry.text) && !rules.guarded(i.first.text))
  }

  /** `d` is the answer a turn acts on: the passing one, unless its suggestion is refused and the
      transition retry's is not. */
  ghost predicate ActsOn(f: Flow, rules: Rules, c: Talk, i: Input, d: Decision) {
    exists ok :: Passing(rules, i, ok)
      && d == if !Agrees(f, rules, c, ok) && Agrees(f, rules, c, i.moveRetry) then i.moveRetry else ok
  }

  ghost predicate Closes(rules: Rules, c: Talk, d: Decision) {
    rules.completion(c.collected + d.collected, c.facts + d.facts).Some?
  }

  /** How often the talk went off topic, as the merged fields tell it; a value that is no number
      has no count unless Python takes it for false. */
  ghost predicate CountedAs(fields: Fields, n: int) {
    if "__off_topic_count__" in fields && fields["__off_topic_count__"].Num?
    then fields["__off_topic_count__"] == Num(n)
    else n == 0 && ("__off_topic_count__" in fields
                    ==> fields["__off_topic_count__"].Null? || fields["__off_topic_count__"] == Text(""))
  }

  ghost predicate Countable(fields: Fields) {
    exists n :: CountedAs(fields, n)
  }

  /** The answer goes off topic and does not close the talk. */
  ghost predicate Strays(rules: Rules, c: Talk, d: Decision) {
    d.offTopic && !Closes(rules, c, d)
  }

  /** The turn gets as far as sending `d`. */
  ghost predicate Reaches(f: Flow, rules: Rules, c: Talk, i: Input, d: Decision) {
    && !c.human && c.node in f.nodes && ActsOn(f, rules, c, i, d)
    && (Strays(rules, c, d) ==> Countable(c.collected + d.collected))
  }

  /** ... and is committed. */
  ghost predicate Commits(f: Flow, rules: Rules, c: Talk, i: Input, d: Decision) {
    && Reaches(f, rules, c, i, d)
    && (i.delivery.Delivered? || (i.delivery.VoiceSynthesisFailed? && !i.fallbackFails))
  }

  ghost predicate NonePasses(rules: Rules, i: Input) {
    !rules.guarded(i.first.text) && !rules.guarded(i.guardRetry.text)
  }

  lemma CountIsRead(fields: Fields)
    ensures forall n :: OffTopicCount(fields) == Some(n) <==> CountedAs(fields, n)
  {
  }

  lemma AppliesWhenCountable(f: Flow, rules: Rules, c: Talk, d: Decision, target: string)
    ensures Apply(f, rules, c, d, target).Some? <==> (Strays(rules, c, d) ==> Countable(c.collected + d.collected))
  {
    CountIsRead(c.collected + d.collected);
    var count := OffTopicCount(c.collected + d.collected);
    hide Treat, Corrected, OffTopicCount, CountedAs;
    if count.Some? {
      assert CountedAs(c.collected + d.collected, count.value);
    }
  }

  /** The answer a turn acts on is the one `Retried` picks. */
  lemma ActsOnRetried(f: Flow, rules: Rules, c: Talk, i: Input)
    ensures NonePasses(rules, i) <==> Guarded(rules, i).None?
    ensures Guarded(rules, i).Some?
            ==> forall d :: ActsOn(f, rules, c, i, d) <==> d == Retried(f, rules, c, Guarded(rules, i).value, i.moveRetry).0
    ensures Guarded(rules, i).None? ==> forall d :: !ActsOn(f, rules, c, i, d)
  {
    hide Route, Agrees;
    if Guarded(rules, i).Some? {
      var ok := Guarded(rules, i).value;
      RouteAgrees(f, rules, c, ok);
      RouteAgrees(f, rules, c, i.moveRetry);
      assert forall d :: Passing(rules, i, d) <==> d == ok;
    }
  }

  /** How every turn ends, and that nothing is written unless it is committed. */
  lemma OutcomeExactly(f: Flow, rules: Rules, c: Talk, i: Input)
    ensures var r := Turn(f, rules, c, i);
            && (r.outcome.SkippedHuman? <==> c.human)
            && (forall text :: r.outcome == Sent(text)
                  <==> i.delivery.Delivered? && exists d :: Reaches(f, rules, c, i, d) && d.text == text)
            && (r.outcome.Escalated? <==>
                  && !i.fallbackFails && !c.human && c.node in f.nodes
                  && (NonePasses(rules, i) || (i.delivery.VoiceSynthesisFailed? && exists d :: Reaches(f, rules, c, i, d))))
            && (r.outcome.SkippedHuman? || r.outcome.RolledBack? ==> r.talk == c && r.events == [])
  {
    ActsOnRetried(f, rules, c, i);
    if Guarded(rules, i).Some? {
      var (d, target) := Retried(f, rules, c, Guarded(rules, i).value, i.moveRetry);
      AppliesWhenCountable(f, rules, c, d, target);
      assert !c.human && c.node in f.nodes ==> (Reaches(f, rules, c, i, d) <==> Apply(f, rules, c, d, target).Some?);
    }
    hide Apply, Retried, Guarded, ActsOn, NonePasses, Countable, Strays;
  }

  /** A talk in human hands gets no reply and is left as it was. */
  lemma HumanGate(f: Flow, rules: Rules, c: Talk, i: Input)
    requires c.human
    ensures Turn(f, rules, c, i) == TurnResult(c, SkippedHuman, [])
  {
    OutcomeExactly(f, rules, c, i);
  }

  /** What a committed turn stands for, in terms of the functions that compute it. */
  lemma CommitIsApplied(f: Flow, rules: Rules, c: Talk, i: Input, d: Decision)
    requires Commits(f, rules, c, i, d)
    ensures Guarded(rules, i).Some? && Retried(f, rules, c, Guarded(rules, i).value, i.moveRetry).0 == d
    ensures var target := Retried(f, rules, c, Guarded(rules, i).value, i.moveRetry).1;
            && Apply(f, rules, c, d, target).Some?
            && Turn(f, rules, c, i).events == Apply(f, rules, c, d, target).value.events
            && Turn(f, rules, c, i).talk
            == if i.delivery.Delivered? then Apply(f, rules, c, d, target).value.talk
               else Escalate(Apply(f, rules, c, d, target).value.talk, VoiceFailed)
  {
    ActsOnRetried(f, rules, c, i);
    var (_, target) := Retried(f, rules, c, Guarded(rules, i).value, i.moveRetry);
    AppliesWhenCountable(f, rules, c, d, target);
    hide Apply, Retried, Guarded, ActsOn, Countable, Strays;
  }

  lemma UncommittedKeeps(f: Flow, rules: Rules, c: Talk, i: Input)
    requires !exists d :: Commits(f, rules, c, i, d)
    ensures SameRouting(c, Turn(f, rules, c, i).talk) && Turn(f, rules, c, i).events == []
  {
    ActsOnRetried(f, rules, c, i);
    if Guarded(rules, i).Some? {
      var (d, target) := Retried(f, rules, c, Guarded(rules, i).value, i.moveRetry);
      AppliesWhenCountable(f, rules, c, d, target);
      assert !Commits(f, rules, c, i, d);
    }
    hide Apply, Retried, Guarded, ActsOn, Countable, Strays;
  }

  lemma FollowsAgrees(f: Flow, rules: Rules, c: Talk, d: Decision, target: string)
    ensures Follows(f, rules, c, d, target) ==> Agrees(f, rules, c, d)
  {
  }

  /** A turn moves the talk to another node if and only if it commits an answer that suggests
      that node and may. */
  lemma TurnMovesExactly(f: Flow, rules: Rules, c: Talk, i: Input, target: string)
    requires target != c.node
    ensures Turn(f, rules, c, i).talk.node == target
       <==> exists d :: Commits(f, rules, c, i, d) && Follows(f, rules, c, d, target)
  {
    hide Turn, Apply, Retried, Commits, Follows, Agrees, Guarded;
    if d :| Commits(f, rules, c, i, d) {
      CommitIsApplied(f, rules, c, i, d);
      var ok := Guarded(rules, i).value;
      SuggestionIsFollowedExactly(f, rules, c, ok, i.moveRetry, target);
      var r := Retried(f, rules, c, ok, i.moveRetry);
      ApplyMerges(f, rules, c, d, r.1);
      FollowsAgrees(f, rules, c, ok, target);
      FollowsAgrees(f, rules, c, i.moveRetry, target);
      assert r == (d, r.1);
      forall e | Commits(f, rules, c, i, e) ensures e == d {
        CommitIsApplied(f, rules, c, i, e);
      }
    } else {
      UncommittedKeeps(f, rules, c, i);
    }
  }

  // --------------------------------------------------------------- treatments

  /** `o` is the first objection with an id. */
  ghost predicate Leads(os: seq<Objection>, id: string, o: Objection) {
    exists k: nat :: k < |os| && os[k] == o && o.id == id && forall j | 0 <= j < k :: os[j].id != id
  }

  /** What an id means at a node: the node's own first objection with that id, and a global one
      only when it has none. */
  ghost predicate Means(f: Flow, node: string, id: string, o: Objection) {
    var own := if node in f.nodes then f.nodes[node].objections else [];
    Leads(own, id, o) || ((forall x | x in own :: x.id != id) && Leads(f.globals, id, o))
  }

  ghost predicate IsTool(f: Flow, node: string, id: string, p: Payload) {
    exists o :: Means(f, node, id, o) && o.tool && o.payload == Some(p)
  }

  lemma {:induction false} FindInLeads(os: seq<Objection>, id: string)
    ensures forall o :: FindIn(os, id) == Some(o) <==> Leads(os, id, o)
  {
    if os != [] && os[0].id != id {
      FindInLeads(os[1..], id);
      forall o ensures Leads(os, id, o) <==> Leads(os[1..], id, o) {
        if Leads(os[1..], id, o) {
          var k: nat :| k < |os[1..]| && os[1..][k] == o && o.id == id && forall j | 0 <= j < k :: os[1..][j].id != id;
          assert os[k + 1] == o && forall j | 0 < j <= k :: os[j] == os[1..][j - 1];
        }
        if Leads(os, id, o) {
          var k: nat :| k < |os| && os[k] == o && o.id == id && forall j | 0 <= j < k :: os[j].id != id;
          assert os[1..][k - 1] == o && forall j | 0 <= j < k - 1 :: os[1..][j] == os[j + 1];
        }
      }
    }
  }

  lemma FindIsMeant(f: Flow, node: string, id: string)
    ensures forall o :: Find(f, node, id) == Some(o) <==> Means(f, node, id, o)
  {
    FindInLeads(if node in f.nodes then f.nodes[node].objections else [], id);
    FindInLeads(f.globals, id);
    hide Leads;
  }

  lemma ToolIsMeant(f: Flow, node: string, id: string)
    ensures forall p :: FindTool(f, node, id) == Some(p) <==> IsTool(f, node, id, p)
  {
    FindIsMeant(f, node, id);
    hide Find, Means;
    if Find(f, node, id).Some? {
      assert Means(f, node, id, Find(f, node, id).value);
    }
  }

  /** The answer names another tool objection, with payload `p`. */
  ghost predicate SwitchesTo(f: Flow, c: Talk, d: Decision, id: string, p: Payload) {
    c.active.Some? && d.detected == Some(id) && id != c.active.value.objection && IsTool(f, c.node, id, p)
  }

  ghost predicate Switches(f: Flow, c: Talk, d: Decision) {
    exists id, p :: SwitchesTo(f, c, d, id, p)
  }

  lemma SwitchIsFound(f: Flow, c: Talk, d: Decision)
    requires c.active.Some?
    ensures Switches(f, c, d)
       <==> d.detected.Some? && d.detected.value != c.active.value.objection && FindTool(f, c.node, d.detected.value).Some?
  {
    if d.detected.Some? {
      var id := d.detected.value;
      ToolIsMeant(f, c.node, id);
      hide FindTool, IsTool;
      if id != c.active.value.objection && FindTool(f, c.node, id).Some? {
        assert SwitchesTo(f, c, d, id, FindTool(f, c.node, id).value);
      }
    }
  }

  /** What a committed turn makes of the treatment and its history. */
  ghost predicate Becomes(c: Talk, r: TurnResult, active: Option<Treatment>, settled: seq<Handled>, events: seq<Event>) {
    r.talk.active == active && r.talk.handled == c.handled + settled && r.events == events
  }

  lemma CommitTreats(f: Flow, rules: Rules, c: Talk, i: Input, d: Decision)
    requires Commits(f, rules, c, i, d)
    ensures var delta := Treat(f, c.node, c.active, Corrected(rules, d));
            Becomes(c, Turn(f, rules, c, i), delta.active, delta.appended, delta.events)
  {
    hide Turn, Apply, Retried, Guarded, Commits, Treat, Corrected;
    CommitIsApplied(f, rules, c, i, d);
    ApplyMerges(f, rules, c, d, Retried(f, rules, c, Guarded(rules, i).value, i.moveRetry).1);
  }

  /** Naming another tool objection defers the open treatment and starts the other one. */
  lemma OtherObjectionSwaps(f: Flow, rules: Rules, c: Talk, i: Input, d: Decision, id: string, p: Payload)
    requires Commits(f, rules, c, i, d) && SwitchesTo(f, c, d, id, p)
    ensures var t := c.active.value;
            Becomes(c, Turn(f, rules, c, i), Some(Treatment(id, 1, 1, p.maxTurns, p.criteria)),
                    [Handled(t.objection, t.startedAt, t.current, Defer)], [Swapped(t.objection, id)])
  {
    CommitTreats(f, rules, c, i, d);
    ToolIsMeant(f, c.node, id);
    hide Commits, Turn, FindTool, IsTool, Becomes;
  }

  /** Otherwise a treatment at its last turn is exhausted, whatever the answer says of it. */
  lemma LastTurnExhausts(f: Flow, rules: Rules, c: Talk, i: Input, d: Decision) returns (action: MaxTurnsAction)
    requires Commits(f, rules, c, i, d) && c.active.Some? && c.active.value.current >= c.active.value.max && !Switches(f, c, d)
    ensures var t := c.active.value;
            Becomes(c, Turn(f, rules, c, i), None, [Handled(t.objection, t.startedAt, t.current, Exhaust)],
                    [Exhausted(t.objection, action)])
    ensures action.EscalateToHuman? <==>
              exists o :: Means(f, c.node, c.active.value.objection, o) && o.payload.Some? && o.payload.value.action.EscalateToHuman?
  {
    CommitTreats(f, rules, c, i, d);
    SwitchIsFound(f, c, d);
    FindIsMeant(f, c.node, c.active.value.objection);
    hide Commits, Turn, FindTool, Find, Switches, Means, Becomes;
    action := ActionAt(f, c.node, c.active.value.objection);
  }

  /** Before its last turn a treatment is settled, with one entry in the history, if and only if
      the answer resolves it: as accepted when the text does not hedge, else as deferred. If not,
      it goes on for one more turn. */
  lemma AnswerResolvesExactly(f: Flow, rules: Rules, c: Talk, i: Input, d: Decision)
    requires Commits(f, rules, c, i, d) && c.active.Some? && c.active.value.current < c.active.value.max && !Switches(f, c, d)
    ensures var t, accepted := c.active.value, d.treatment == Some(ResolvedAccepted) && !rules.hedges(d.text);
            var resolution := if accepted then Accept else Defer;
            if d.treatment == Some(ResolvedAccepted) || d.treatment == Some(ResolvedDeferred)
            then Becomes(c, Turn(f, rules, c, i), None, [Handled(t.objection, t.startedAt, t.current, resolution)],
                         [Resolved(t.objection, resolution)])
            else Becomes(c, Turn(f, rules, c, i), Some(t.(current := t.current + 1)), [], [Continued(t.objection, t.current + 1)])
  {
    CommitTreats(f, rules, c, i, d);
    SwitchIsFound(f, c, d);
    hide Commits, Turn, FindTool, Switches, Becomes;
  }

  /** With no treatment open, one starts if and only if the answer names a tool objection; an id
      that means nothing is noted. */
  lemma ToolObjectionOpens(f: Flow, rules: Rules, c: Talk, i: Input, d: Decision)
    requires Commits(f, rules, c, i, d) && c.active.None?
    ensures var r, id := Turn(f, rules, c, i), if d.detected.Some? then d.detected.value else "";
            && (forall p | id != "" && IsTool(f, c.node, id, p) ::
                  Becomes(c, r, Some(Treatment(id, 1, 1, p.maxTurns, p.criteria)), [], [Entered(id, p.maxTurns)]))
            && ((forall p :: id == "" || !IsTool(f, c.node, id, p)) ==>
                  Becomes(c, r, None, [], if id != "" && forall o :: !Means(f, c.node, id, o) then [Hallucinated(id)] else []))
  {
    CommitTreats(f, rules, c, i, d);
    var id := if d.detected.Some? then d.detected.value else "";
    FindIsMeant(f, c.node, id);
    ToolIsMeant(f, c.node, id);
    assert Find(f, c.node, id).Some? ==> Means(f, c.node, id, Find(f, c.node, id).value);
    assert FindTool(f, c.node, id).Some? ==> IsTool(f, c.node, id, FindTool(f, c.node, id).value) && Find(f, c.node, id).Some?;
    hide Commits, Turn, FindTool, Find, IsTool, Means, Becomes;
  }

  // ------------------------------------------------------------------ reviews

  /** The turn exhausts a treatment whose objection is to be escalated. */
  ghost predicate GivesUp(f: Flow, c: Talk, d: Decision) {
    && c.active.Some? && c.active.value.current >= c.active.value.max && !Switches(f, c, d)
    && exists o :: Means(f, c.node, c.active.value.objection, o) && o.payload.Some? && o.payload.value.action.EscalateToHuman?
  }

  lemma TreatAsksReview(f: Flow, rules: Rules, c: Talk, d: Decision)
    ensures Treat(f, c.node, c.active, Corrected(rules, d)).review == if GivesUp(f, c, d) then Some(TreatmentExhausted) else None
  {
    if c.active.Some? {
      SwitchIsFound(f, c, d);
      FindIsMeant(f, c.node, c.active.value.objection);
      hide FindTool, Find, Switches, Means;
      var o := Find(f, c.node, c.active.value.objection);
      assert o.Some? ==> Means(f, c.node, c.active.value.objection, o.value);
    }
  }

  /** When a delivered turn asks for a human, and why: the first of an exhausted treatment, the
      model's request, and the third turn off topic. A talk already in review keeps its reason,
      and a completion rule closes the talk whatever else is asked. */
  lemma ReviewIsAskedExactly(f: Flow, rules: Rules, c: Talk, i: Input, d: Decision, count: int)
    requires Commits(f, rules, c, i, d) && i.delivery.Delivered? && (Strays(rules, c, d) ==> CountedAs(c.collected + d.collected, count))
    ensures var after := Turn(f, rules, c, i).talk;
            var tired := d.offTopic && count + 1 >= 3;
            if Closes(rules, c, d) then
              after.status == Closed(rules.completion(c.collected + d.collected, c.facts + d.facts).value) && after.review == c.review
            else if c.status.RequiresReview? || !(GivesUp(f, c, d) || d.escalate || tired) then
              after.status == c.status && after.review == c.review
            else
              && after.status.RequiresReview?
              && (after.review == Some(TreatmentExhausted) <==> GivesUp(f, c, d))
              && (after.review == Some(EscalationRequested) <==> !GivesUp(f, c, d) && d.escalate)
              && (after.review == Some(OffTopicExhausted) <==> !GivesUp(f, c, d) && !d.escalate)
  {
    CommitIsApplied(f, rules, c, i, d);
    TreatAsksReview(f, rules, c, d);
    CountIsRead(c.collected + d.collected);
    hide Commits, Turn, Retried, Guarded, Treat, Corrected, GivesUp, OffTopicCount, CountedAs;
  }

  /** A turn that escalates instead of replying leaves the talk in review, with the reason. */
  lemma EscalationIsRecorded(f: Flow, rules: Rules, c: Talk, i: Input)
    requires Turn(f, rules, c, i).outcome.Escalated?
    ensures var r := Turn(f, rules, c, i);
            && r.talk.status.RequiresReview?
            && r.talk.review == Some(if NonePasses(rules, i) then ValidatorExhausted else VoiceFailed)
            && (NonePasses(rules, i) ==> SameRouting(c, r.talk) && r.events == [])
  {
    hide Apply, Retried;
  }

  /** The fields a committed turn stores: the answer's over the old ones, and the count of turns
      off topic, raised by one when the answer strays. */
  lemma FieldsAreMerged(f: Flow, rules: Rules, c: Talk, i: Input, d: Decision, count: int)
    requires Commits(f, rules, c, i, d) && (Strays(rules, c, d) ==> CountedAs(c.collected + d.collected, count))
    ensures var after := Turn(f, rules, c, i).talk;
            && after.collected == (if Strays(rules, c, d) then (c.collected + d.collected)["__off_topic_count__" := Num(count + 1)]
                                   else c.collected + d.collected)
            && after.facts == c.facts + d.facts && after.turns == c.turns + 1 && after.human == c.human
  {
    CommitIsApplied(f, rules, c, i, d);
    CountIsRead(c.collected + d.collected);
    hide Commits, Turn, Retried, Guarded, Treat, Corrected, OffTopicCount, CountedAs;
  }

  // ---------------------------------------------------- off topic, over a run

  ghost predicate StraysIn(f: Flow, rules: Rules, c: Talk, s: Step) {
    s.TurnStep? && exists d :: Commits(f, rules, c, s.input, d) && Strays(rules, c, d)
  }

  /** No committed answer collects a field of the counter's name. */
  ghost predicate SparesCount(f: Flow, rules: Rules, c: Talk, s: Step) {
    s.TurnStep? ==> forall d | Commits(f, rules, c, s.input, d) :: "__off_topic_count__" !in d.collected
  }

  ghost predicate SparesCounts(f: Flow, rules: Rules, c: Talk, steps: seq<Step>)
    decreases |steps|
  {
    steps == [] || (SparesCount(f, rules, c, steps[0]) && SparesCounts(f, rules, Next(f, rules, c, steps[0]), steps[1..]))
  }

  ghost function StrayTurns(f: Flow, rules: Rules, c: Talk, steps: seq<Step>): nat
    decreases |steps|
  {
    if steps == [] then 0
    else (if StraysIn(f, rules, c, steps[0]) then 1 else 0) + StrayTurns(f, rules, Next(f, rules, c, steps[0]), steps[1..])
  }

  lemma StepCounts(f: Flow, rules: Rules, c: Talk, s: Step, n: int)
    requires CountedAs(c.collected, n) && SparesCount(f, rules, c, s)
    ensures CountedAs(Next(f, rules, c, s).collected, n + if StraysIn(f, rules, c, s) then 1 else 0)
  {
    hide Turn, Commits, Strays;
    if s.TurnStep? {
      if d :| Commits(f, rules, c, s.input, d) {
        FieldsAreMerged(f, rules, c, s.input, d, n);
        forall e | Commits(f, rules, c, s.input, e) ensures e == d {
          CommitIsApplied(f, rules, c, s.input, e);
          CommitIsApplied(f, rules, c, s.input, d);
        }
      } else {
        UncommittedKeeps(f, rules, c, s.input);
      }
    }
  }

  /** The stored count is the number of turns that strayed. */
  lemma {:induction false} StrayTurnsAreCounted(f: Flow, rules: Rules, c: Talk, steps: seq<Step>, n: int)
    requires CountedAs(c.collected, n) && SparesCounts(f, rules, c, steps)
    ensures CountedAs(Run(f, rules, c, steps).collected, n + StrayTurns(f, rules, c, steps))
    decreases |steps|
  {
    hide Next, CountedAs, SparesCount, StraysIn;
    if steps != [] {
      StepCounts(f, rules, c, steps[0], n);
      StrayTurnsAreCounted(f, rules, Next(f, rules, c, steps[0]), steps[1..],
                           n + if StraysIn(f, rules, c, steps[0]) then 1 else 0);
    }
  }

  lemma StrayTurnFlags(f: Flow, rules: Rules, c: Talk, i: Input, d: Decision, n: int)
    requires CountedAs(c.collected, n) && "__off_topic_count__" !in d.collected
    requires Commits(f, rules, c, i, d) && i.delivery.Delivered? && Strays(rules, c, d)
    requires !c.status.RequiresReview? && !GivesUp(f, c, d) && !d.escalate
    ensures Turn(f, rules, c, i).talk.status.RequiresReview? <==> n + 1 >= 3
  {
    assert CountedAs(c.collected + d.collected, n);
    ReviewIsAskedExactly(f, rules, c, i, d, n);
    hide Turn, Commits, GivesUp, CountedAs;
  }

  /** In a run from the start, a delivered turn off topic that asks for a human on no other ground
      leaves the talk in review if and only if it is at least the third to stray. */
  lemma ThirdStrayTurnFlags(f: Flow, rules: Rules, entry: string, steps: seq<Step>, i: Input, d: Decision)
    requires SparesCounts(f, rules, Opened(entry), steps)
    requires var c := Run(f, rules, Opened(entry), steps);
             && Commits(f, rules, c, i, d) && i.delivery.Delivered? && Strays(rules, c, d)
             && "__off_topic_count__" !in d.collected
             && !c.status.RequiresReview? && !GivesUp(f, c, d) && !d.escalate
    ensures Turn(f, rules, Run(f, rules, Opened(entry), steps), i).talk.status.RequiresReview?
       <==> StrayTurns(f, rules, Opened(entry), steps) + 1 >= 3
  {
    StrayTurnsAreCounted(f, rules, Opened(entry), steps, 0);
    hide Run, Turn, Commits, GivesUp, StrayTurns, SparesCounts, CountedAs, Strays;
    StrayTurnFlags(f, rules, Run(f, rules, Opened(entry), steps), i, d, StrayTurns(f, rules, Opened(entry), steps));
  }

  /** An answer that collects a field of the counter's name starts the count anew: each of these
      turns strays, and none of them asks for a human. */
  lemma CollectedCountHidesStrays(k: nat) returns (f: Flow, rules: Rules, s: Step)
    ensures Accepted(f)
    ensures var steps := seq(k, j => s);
            StrayTurns(f, rules, Opened("a"), steps) == k && Run(f, rules, Opened("a"), steps).status.Active?
  {
    f := Flow("a", map["a" := Node("a", [], AllFieldsFilled, [], [], [])], [], None);
    rules := Rules((e, v) => true, (e, fs) => true, (cs, fs) => None, t => true, t => false);
    var d := Decision("ok", map["__off_topic_count__" := Num(0)], map[], None, None, None, false, true);
    s := TurnStep(Input(d, d, d, Delivered, false));
    ResetsStay(f, rules, d, s, Opened("a"), k);
  }

  lemma {:induction false} ResetsStay(f: Flow, rules: Rules, d: Decision, s: Step, c: Talk, k: nat)
    requires f.nodes.Keys == {"a"} && (forall t :: rules.guarded(t)) && forall cs, fs :: rules.completion(cs, fs).None?
    requires d == Decision(d.text, map["__off_topic_count__" := Num(0)], map[], None, None, None, false, true)
    requires s == TurnStep(Input(d, d, d, Delivered, false))
    requires c.node == "a" && c.active.None? && c.status.Active? && !c.human
    ensures var steps := seq(k, j => s); StrayTurns(f, rules, c, steps) == k && Run(f, rules, c, steps).status.Active?
    decreases k
  {
    if k > 0 {
      var steps := seq(k, j => s);
      assert steps[1..] == seq(k - 1, j => s);
      ResetStays(f, rules, d, s, c);
      hide Next, StraysIn;
      ResetsStay(f, rules, d, s, Next(f, rules, c, s), k - 1);
    }
  }

  lemma ResetStays(f: Flow, rules: Rules, d: Decision, s: Step, c: Talk)
    requires f.nodes.Keys == {"a"} && (forall t :: rules.guarded(t)) && forall cs, fs :: rules.completion(cs, fs).None?
    requires d == Decision(d.text, map["__off_topic_count__" := Num(0)], map[], None, None, None, false, true)
    requires s == TurnStep(Input(d, d, d, Delivered, false))
    requires c.node == "a" && c.active.None? && c.status.Active? && !c.human
    ensures StraysIn(f, rules, c, s)
    ensures var after := Next(f, rules, c, s);
            after.node == "a" && after.active.None? && after.status.Active? && !after.human
  {
    var i := s.input;
    assert CountedAs(c.collected + d.collected, 0);
    assert Passing(rules, i, d) && ActsOn(f, rules, c, i, d) && Commits(f, rules, c, i, d);
    ReviewIsAskedExactly(f, rules, c, i, d, 0);
    ToolObjectionOpens(f, rules, c, i, d);
    FieldsAreMerged(f, rules, c, i, d, 0);
    var target := Turn(f, rules, c, i).talk.node;
    if target != c.node {
      TurnMovesExactly(f, rules, c, i, target);
      assert false;
    }
  }

  // ------------------------------------------------------------ between turns

  /** Between turns, an operator changes nothing but who handles the talk, and a scan closes it
      only while it is active and in AI hands. */
  lemma OthersChangeOnly(f: Flow, rules: Rules, c: Talk, s: Step)
    requires !s.TurnStep?
    ensures var after := Next(f, rules, c, s);
            && after == c.(human := after.human, status := after.status)
            && (after.human != c.human ==> s == Handling(!c.human)) && (s == Handling(!c.human) ==> after.human != c.human)
            && (after.status != c.status <==> s.ScanClose? && c.status == Active && !c.human)
            && (after.status != c.status ==> after.status == Closed(s.why))
  {
  }

  // ---------------------------------------------------------- turns, over a run

  ghost function CommittedTurns(f: Flow, rules: Rules, c: Talk, steps: seq<Step>): nat
    decreases |steps|
  {
    if steps == [] then 0
    else (if steps[0].TurnStep? && (exists d :: Commits(f, rules, c, steps[0].input, d)) then 1 else 0)
         + CommittedTurns(f, rules, Next(f, rules, c, steps[0]), steps[1..])
  }

  lemma StepNumbers(f: Flow, rules: Rules, c: Talk, s: Step)
    ensures Next(f, rules, c, s).turns
         == c.turns + if s.TurnStep? && (exists d :: Commits(f, rules, c, s.input, d)) then 1 else 0
  {
    hide Turn, Commits, Apply, Retried, Guarded;
    if s.TurnStep? {
      if d :| Commits(f, rules, c, s.input, d) {
        CommitIsApplied(f, rules, c, s.input, d);
        ApplyMerges(f, rules, c, d, Retried(f, rules, c, Guarded(rules, s.input).value, s.input.moveRetry).1);
      } else {
        UncommittedKeeps(f, rules, c, s.input);
      }
    }
  }

  /** A talk's turn number is the number of its committed turns. */
  lemma {:induction false} TurnsAreNumbered(f: Flow, rules: Rules, c: Talk, steps: seq<Step>)
    ensures Run(f, rules, c, steps).turns == c.turns + CommittedTurns(f, rules, c, steps)
    ensures forall entry | c == Opened(entry) :: c.turns == 0
    decreases |steps|
  {
    hide Next;
    if steps != [] {
      StepNumbers(f, rules, c, steps[0]);
      TurnsAreNumbered(f, rules, Next(f, rules, c, steps[0]), steps[1..]);
    }
  }
}
