/** One FlowEngine v2 turn: transition validation (src/ai_sdr/flowengine/routing.py),
    corrective retries (correction.py), the objection state machine
    (objection_runtime.py), `apply_decision` (post_processing.py) and the locked section
    of `run_turn` (pipeline.py).

    The model's answers, expression evaluation, the guardrails, the text heuristics and
    the outcome of sending are arbitrary. */
module TurnMachine {
  import opened Strings
  import opened Wrappers
  import opened Treeflow

  /** A collected value; `Opaque` stands for one that arithmetic raises on. */
  datatype Value = Null | Text(text: string) | Num(n: int) | Opaque

  type Fields = map<string, Value>

  datatype Treatment = Treatment(objection: string, startedAt: int, current: int, max: int, criteria: string)

  datatype Resolution = Accept | Defer | Exhaust

  datatype Handled = Handled(objection: string, detectedAt: int, resolvedAt: int, resolution: Resolution)

  datatype CloseReason = Success | Failure | NoInterest | Inactivity | Duration

  datatype Status = Active | RequiresReview | Closed(why: CloseReason)

  datatype ReviewReason =
    TreatmentExhausted | EscalationRequested | OffTopicExhausted | ValidatorExhausted | VoiceFailed

  /** The talk row and its runtime state row. */
  datatype Talk = Talk(
    node: string, collected: Fields, facts: Fields, active: Option<Treatment>, handled: seq<Handled>,
    turns: nat, status: Status, review: Option<ReviewReason>, human: bool)

  datatype TreatmentStatus = InProgress | ResolvedAccepted | ResolvedDeferred

  datatype Decision = Decision(
    text: string, collected: Fields, facts: Fields, detected: Option<string>,
    treatment: Option<TreatmentStatus>, next: Option<string>, escalate: bool, offTopic: bool)

  datatype Event =
    | Entered(id: string, max: int)
    | Swapped(from: string, to: string)
    | Exhausted(id: string, action: MaxTurnsAction)
    | Resolved(id: string, resolution: Resolution)
    | Continued(id: string, current: int)
    | Hallucinated(id: string)

  /** What a transition condition is evaluated against. */
  datatype View = View(collected: Fields, facts: Fields, handled: seq<Handled>, turn: nat)

  datatype Rules = Rules(
    condition: (string, View) -> bool, expression: (string, Fields) -> bool,
    completion: (Fields, Fields) -> Option<CloseReason>,
    guarded: string -> bool, hedges: string -> bool)

  // ----------------------------------------------------------------- routing

  datatype RoutingFailure = InvalidTarget | ConditionFalse | BlockedByTreatment | ExitNotSatisfied

  datatype Routing = Routing(target: string, failure: Option<RoutingFailure>)

  predicate Filled(fields: Fields, field: string) {
    field in fields && fields[field] != Null && fields[field] != Text("")
  }

  predicate RequiredFilled(n: Node, fields: Fields) {
    forall c | c in n.collects && c.required :: Filled(fields, c.field)
  }

  predicate ExitSatisfied(rules: Rules, n: Node, fields: Fields) {
    match n.exit
    case AllFieldsFilled => RequiredFilled(n, fields)
    case RuleExpression(e) => rules.expression(e, fields)
    case Combined(e) => RequiredFilled(n, fields) && rules.expression(e, fields)
    case LlmJudge => false
    case Other => false
  }

  /** The first declared edge to a target. */
  function EdgeTo(next: seq<Transition>, target: string): (r: Option<Transition>)
    ensures r.None? <==> forall t | t in next :: t.target != target
    ensures r.Some? ==> r.value in next && r.value.target == target
  {
    if next == [] then None
    else if next[0].target == target then Some(next[0])
    else EdgeTo(next[1..], target)
  }

  predicate Holds(rules: Rules, t: Transition, v: View) {
    Strip(t.condition) == "true" || rules.condition(t.condition, v)
  }

  function ViewOf(c: Talk, d: Decision): View {
    View(c.collected + d.collected, c.facts + d.facts, c.handled, c.turns + 1)
  }

  function Route(f: Flow, rules: Rules, c: Talk, d: Decision): Routing {
    if d.next.None? || d.next.value == "current" || d.next.value == c.node then Routing(c.node, None)
    else if c.node !in f.nodes then Routing(c.node, Some(InvalidTarget))
    else
      match EdgeTo(f.nodes[c.node].next, d.next.value)
      case None => Routing(c.node, Some(InvalidTarget))
      case Some(edge) =>
        var v := ViewOf(c, d);
        if !Holds(rules, edge, v) then Routing(c.node, Some(ConditionFalse))
        else if c.active.Some? then Routing(c.node, Some(BlockedByTreatment))
        else if !ExitSatisfied(rules, f.nodes[c.node], v.collected) then Routing(c.node, Some(ExitNotSatisfied))
        else Routing(d.next.value, None)
  }

  /** One corrective retry: the retried decision counts only if its own routing is
      accepted; otherwise the first decision stands and the talk stays put. */
  function Retried(f: Flow, rules: Rules, c: Talk, first: Decision, retry: Decision): (Decision, string) {
    var r := Route(f, rules, c, first);
    if r.failure.None? then (first, r.target)
    else
      var again := Route(f, rules, c, retry);
      if again.failure.None? then (retry, again.target) else (first, c.node)
  }

  // ------------------------------------------------------- objection runtime

  function FindIn(os: seq<Objection>, id: string): (r: Option<Objection>)
    ensures r.Some? ==> r.value in os && r.value.id == id
    ensures r.None? <==> forall o | o in os :: o.id != id
  {
    if os == [] then None else if os[0].id == id then Some(os[0]) else FindIn(os[1..], id)
  }

  /** Node-scoped objections take precedence over global ones. */
  function Find(f: Flow, node: string, id: string): Option<Objection> {
    if node in f.nodes && FindIn(f.nodes[node].objections, id).Some? then FindIn(f.nodes[node].objections, id)
    else FindIn(f.globals, id)
  }

  function FindTool(f: Flow, node: string, id: string): Option<Payload> {
    match Find(f, node, id)
    case None => None
    case Some(o) => if o.tool then o.payload else None
  }

  datatype Delta = Delta(
    active: Option<Treatment>, appended: seq<Handled>, review: Option<ReviewReason>, events: seq<Event>)

  function Enter(id: string, p: Payload): Treatment {
    Treatment(id, 1, 1, p.maxTurns, p.criteria)
  }

  function Close(t: Treatment, r: Resolution): Handled {
    Handled(t.objection, t.startedAt, t.current, r)
  }

  /** What exhausting a treatment of `id` does at a node. */
  function ActionAt(f: Flow, node: string, id: string): MaxTurnsAction {
    match Find(f, node, id)
    case None => GracefullyContinue
    case Some(o) => if o.payload.Some? then o.payload.value.action else GracefullyContinue
  }

  function Treat(f: Flow, node: string, active: Option<Treatment>, d: Decision): Delta {
    match active
    case None => TreatIdle(f, node, d)
    case Some(t) => TreatActive(f, node, t, d)
  }

  function TreatIdle(f: Flow, node: string, d: Decision): Delta {
    if d.detected.None? || d.detected.value == "" then Delta(None, [], None, [])
    else
      var id := d.detected.value;
      if Find(f, node, id).None? then Delta(None, [], None, [Hallucinated(id)])
      else
        match FindTool(f, node, id)
        case None => Delta(None, [], None, [])
        case Some(p) => Delta(Some(Enter(id, p)), [], None, [Entered(id, p.maxTurns)])
  }

  /** Priorities: another tool-mode objection, then exhaustion, then resolution. */
  function TreatActive(f: Flow, node: string, t: Treatment, d: Decision): Delta {
    if d.detected.Some? && d.detected.value != t.objection && FindTool(f, node, d.detected.value).Some? then
      var id := d.detected.value;
      Delta(Some(Enter(id, FindTool(f, node, id).value)), [Close(t, Defer)], None, [Swapped(t.objection, id)])
    else if t.current >= t.max then
      var action := ActionAt(f, node, t.objection);
      Delta(None, [Close(t, Exhaust)], if action.EscalateToHuman? then Some(TreatmentExhausted) else None,
            [Exhausted(t.objection, action)])
    else if d.treatment == Some(ResolvedAccepted) then
      Delta(None, [Close(t, Accept)], None, [Resolved(t.objection, Accept)])
    else if d.treatment == Some(ResolvedDeferred) then
      Delta(None, [Close(t, Defer)], None, [Resolved(t.objection, Defer)])
    else
      Delta(Some(t.(current := t.current + 1)), [], None, [Continued(t.objection, t.current + 1)])
  }

  // ---------------------------------------------------------- apply_decision

  const OFFTOPIC_THRESHOLD := 3

  const OFFTOPIC_KEY := "__off_topic_count__"

  /** An accepted resolution the text hedges on counts as deferred. */
  function Corrected(rules: Rules, d: Decision): Decision {
    if d.treatment == Some(ResolvedAccepted) && rules.hedges(d.text)
    then d.(treatment := Some(ResolvedDeferred)) else d
  }

  /** The stored off-topic counter, if arithmetic on it works. */
  function OffTopicCount(fields: Fields): Option<int> {
    if OFFTOPIC_KEY !in fields then Some(0)
    else match fields[OFFTOPIC_KEY]
      case Null => Some(0)
      case Num(n) => Some(n)
      case Text(s) => if s == "" then Some(0) else None
      case Opaque => None
  }

  datatype Applied = Applied(talk: Talk, events: seq<Event>)

  /** The fields every applied decision sets, before closing or flagging. */
  function Merged(f: Flow, rules: Rules, c: Talk, d: Decision, target: string): Talk {
    var delta := Treat(f, c.node, c.active, Corrected(rules, d));
    c.(collected := c.collected + d.collected, facts := c.facts + d.facts,
       active := delta.active, handled := c.handled + delta.appended,
       node := target, turns := c.turns + 1)
  }

  function Flag(c: Talk, reason: Option<ReviewReason>): Talk {
    if reason.Some? && !c.status.RequiresReview?
    then c.(status := RequiresReview, review := reason) else c
  }

  function FirstOf(a: Option<ReviewReason>, b: Option<ReviewReason>): Option<ReviewReason> {
    if a.Some? then a else b
  }

  /** None when counting an off-topic turn raises. */
  function Apply(f: Flow, rules: Rules, c: Talk, d: Decision, target: string): Option<Applied> {
    var delta := Treat(f, c.node, c.active, Corrected(rules, d));
    var m := Merged(f, rules, c, d, target);
    match rules.completion(m.collected, m.facts)
    case Some(why) => Some(Applied(m.(status := Closed(why)), delta.events))
    case None =>
      var asked := if d.escalate then Some(EscalationRequested) else None;
      if !d.offTopic then Some(Applied(Flag(m, FirstOf(delta.review, asked)), delta.events))
      else match OffTopicCount(m.collected)
        case None => None
        case Some(count) =>
          var counted := m.(collected := m.collected[OFFTOPIC_KEY := Num(count + 1)]);
          var tired := if count + 1 >= OFFTOPIC_THRESHOLD then Some(OffTopicExhausted) else None;
          Some(Applied(Flag(counted, FirstOf(FirstOf(delta.review, asked), tired)), delta.events))
  }

  // ---------------------------------------------------------------- run_turn

  datatype Delivery = Delivered | VoiceSynthesisFailed | AdapterFailed

  /** The answers the model would give and how sending would go. */
  datatype Input = Input(
    first: Decision, guardRetry: Decision, moveRetry: Decision, delivery: Delivery, fallbackFails: bool)

  datatype Outcome = SkippedHuman | Sent(text: string) | Escalated | RolledBack

  datatype TurnResult = TurnResult(talk: Talk, outcome: Outcome, events: seq<Event>)

  /** The decision that survives the guardrails, after at most one retry. */
  function Guarded(rules: Rules, i: Input): Option<Decision> {
    if rules.guarded(i.first.text) then Some(i.first)
    else if rules.guarded(i.guardRetry.text) then Some(i.guardRetry)
    else None
  }

  function Escalate(c: Talk, reason: ReviewReason): Talk {
    c.(status := RequiresReview, review := Some(reason))
  }

  function Turn(f: Flow, rules: Rules, c: Talk, i: Input): TurnResult {
    if c.human then TurnResult(c, SkippedHuman, [])
    else if c.node !in f.nodes then TurnResult(c, RolledBack, [])
    else match Guarded(rules, i)
      case None =>
        if i.fallbackFails then TurnResult(c, RolledBack, [])
        else TurnResult(Escalate(c, ValidatorExhausted), Escalated, [])
      case Some(ok) =>
        var (d, target) := Retried(f, rules, c, ok, i.moveRetry);
        match Apply(f, rules, c, d, target)
        case None => TurnResult(c, RolledBack, [])
        case Some(a) =>
          match i.delivery
          case Delivered => TurnResult(a.talk, Sent(d.text), a.events)
          case AdapterFailed => TurnResult(c, RolledBack, [])
          case VoiceSynthesisFailed =>
            if i.fallbackFails then TurnResult(c, RolledBack, [])
            else TurnResult(Escalate(a.talk, VoiceFailed), Escalated, a.events)
  }

  /** The in-place form: the rows as fields, `apply_decision` as assignments to them,
      and `run_turn`'s transaction around it. */
  class TalkSession {
    var node: string
    var collected: Fields
    var facts: Fields
    var active: Option<Treatment>
    var handled: seq<Handled>
    var turns: nat
    var status: Status
    var review: Option<ReviewReason>
    var human: bool

    constructor (entry: string)
      ensures Row() == Opened(entry)
    {
      node, collected, facts, active, handled := entry, map[], map[], None, [];
      turns, status, review, human := 0, Active, None, false;
    }

    function Row(): Talk
      reads this
    {
      Talk(node, collected, facts, active, handled, turns, status, review, human)
    }

    method Restore(c: Talk)
      modifies this
      ensures Row() == c
    {
      node, collected, facts, active, handled := c.node, c.collected, c.facts, c.active, c.handled;
      turns, status, review, human := c.turns, c.status, c.review, c.human;
    }

    method RaiseFlag(reason: Option<ReviewReason>)
      modifies this
      ensures Row() == Flag(old(Row()), reason)
    {
      if reason.Some? && !status.RequiresReview? {
        status, review := RequiresReview, reason;
      }
    }

    /** `ok` is false when the call raises; the fields are then half-written. */
    method ApplyDecision(f: Flow, rules: Rules, d: Decision, target: string) returns (ok: bool, events: seq<Event>)
      modifies this
      ensures ok <==> Apply(f, rules, old(Row()), d, target).Some?
      ensures ok ==> Apply(f, rules, old(Row()), d, target) == Some(Applied(Row(), events))
    {
      hide Treat, Corrected, OffTopicCount;
      var delta := Treat(f, node, active, Corrected(rules, d));
      events := delta.events;
      collected := collected + d.collected;
      facts := facts + d.facts;
      active := delta.active;
      handled := handled + delta.appended;
      node := target;
      turns := turns + 1;
      var closing := rules.completion(collected, facts);
      if closing.Some? {
        status := Closed(closing.value);
        return true, events;
      }
      var reason := FirstOf(delta.review, if d.escalate then Some(EscalationRequested) else None);
      if d.offTopic {
        var count := OffTopicCount(collected);
        if count.None? {
          return false, events;
        }
        collected := collected[OFFTOPIC_KEY := Num(count.value + 1)];
        reason := FirstOf(reason, if count.value + 1 >= OFFTOPIC_THRESHOLD then Some(OffTopicExhausted) else None);
      }
      RaiseFlag(reason);
      return true, events;
    }

    method RunTurn(f: Flow, rules: Rules, i: Input) returns (outcome: Outcome, ghost events: seq<Event>)
      modifies this
      ensures TurnResult(Row(), outcome, events) == Turn(f, rules, old(Row()), i)
      ensures outcome.SkippedHuman? <==> old(human)
      ensures outcome.SkippedHuman? || outcome.RolledBack? ==> Row() == old(Row()) && events == []
    {
      hide Apply, Retried, Guarded;
      if human {
        return SkippedHuman, [];
      }
      if node !in f.nodes {
        return RolledBack, [];
      }
      var saved := Row();
      var guarded := Guarded(rules, i);
      if guarded.None? {
        if i.fallbackFails {
          return RolledBack, [];
        }
        status, review := RequiresReview, Some(ValidatorExhausted);
        return Escalated, [];
      }
      var (d, target) := Retried(f, rules, Row(), guarded.value, i.moveRetry);
      var ok, applied := ApplyDecision(f, rules, d, target);
      if ok && i.delivery.Delivered? {
        return Sent(d.text), applied;
      }
      if ok && i.delivery.VoiceSynthesisFailed? && !i.fallbackFails {
        status, review := RequiresReview, Some(VoiceFailed);
        return Escalated, applied;
      }
      Restore(saved);
      return RolledBack, [];
    }
  }

  function Opened(entry: string): Talk {
    Talk(entry, map[], map[], None, [], 0, Active, None, false)
  }
}
