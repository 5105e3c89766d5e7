/** TreeFlow v2 definitions and the checks of `load_treeflow_v2`
    (src/ai_sdr/flowengine/treeflow_loader.py), from parsed YAML on. */
module Treeflow {
  import opened Wrappers

  datatype MaxTurnsAction = GracefullyContinue | EscalateToHuman

  datatype Payload = Payload(maxTurns: int, action: MaxTurnsAction, criteria: string)

  datatype Objection = Objection(id: string, tool: bool, payload: Option<Payload>)

  datatype Collect = Collect(field: string, required: bool)

  datatype Exit = AllFieldsFilled | RuleExpression(expr: string) | Combined(expr: string) | LlmJudge | Other

  datatype Transition = Transition(condition: string, target: string)

  /** A side effect of collecting a field; `templates` are the strings among its parameters. */
  datatype OnCollected = OnCollected(field: string, adapter: string, handler: string, templates: seq<string>)

  datatype CompletionRule = CompletionRule(expression: string, outcome: string)

  /** When a talk closes on its own; durations in seconds. */
  datatype Lifecycle = Lifecycle(inactivity: Option<int>, duration: Option<int>, completion: seq<CompletionRule>)

  datatype Node = Node(
    id: string, collects: seq<Collect>, exit: Exit, next: seq<Transition>, objections: seq<Objection>,
    actions: seq<OnCollected>)

  datatype Flow = Flow(entry: string, nodes: map<string, Node>, globals: seq<Objection>, lifecycle: Option<Lifecycle>)

  const HOUR := 3600
  const DAY := 86400

  // ---------------------------------------------------------------- raw YAML

  datatype RawPayload = RawPayload(maxTurns: int, summary: string, criteria: string, action: string)

  datatype RawObjection = RawObjection(id: string, description: string, mode: string, payload: Option<RawPayload>)

  datatype RawNode = RawNode(
    id: string, collects: seq<Collect>, exit: Exit, next: seq<Transition>, objections: seq<RawObjection>,
    actions: seq<OnCollected>)

  /** An empty duration is an absent one. */
  datatype RawLifecycle = RawLifecycle(inactivity: string, duration: string, completion: seq<CompletionRule>)

  datatype RawFlow = RawFlow(entry: string, nodes: seq<RawNode>, globals: seq<RawObjection>, lifecycle: Option<RawLifecycle>)

  datatype LoadError =
    | BadObjection(id: string)
    | BadAction(node: string, index: nat)
    | BadLifecycle
    | UnknownEntry
    | UnknownTarget(node: string, target: string)

  /** What the template, expression and duration parsers accept. */
  datatype Syntax = Syntax(template: string -> bool, expression: string -> bool, seconds: string -> Option<int>)

  // ------------------------------------------------------------------ checks

  ghost predicate PayloadAccepted(p: RawPayload) {
    && 1 <= p.maxTurns <= 10
    && |p.summary| >= 10 && |p.criteria| >= 10
    && (p.action == "gracefully_continue" || p.action == "escalate_to_human")
  }

  ghost predicate ObjectionAccepted(o: RawObjection) {
    && |o.description| >= 10
    && (o.mode == "inline" || (o.mode == "tool" && o.payload.Some? && PayloadAccepted(o.payload.value)))
  }

  ghost predicate AllAccepted(os: seq<RawObjection>) {
    forall i | 0 <= i < |os| :: ObjectionAccepted(os[i])
  }

  /** `fields` are the names the node collects. */
  ghost predicate ActionAccepted(syntax: Syntax, fields: set<string>, a: OnCollected) {
    && a.field != "" && a.field in fields && a.adapter != "" && a.handler != ""
    && forall t | t in a.templates :: syntax.template(t)
  }

  ghost predicate RuleAccepted(syntax: Syntax, r: CompletionRule) {
    && r.expression != "" && r.outcome in {"success", "failure", "no_interest"} && syntax.expression(r.expression)
  }

  ghost predicate DurationAccepted(syntax: Syntax, text: string, lo: int, hi: int) {
    text == "" || (syntax.seconds(text).Some? && lo <= syntax.seconds(text).value <= hi)
  }

  ghost predicate LifecycleAccepted(syntax: Syntax, l: RawLifecycle) {
    && DurationAccepted(syntax, l.inactivity, HOUR, 365 * DAY)
    && DurationAccepted(syntax, l.duration, DAY, 730 * DAY)
    && forall r | r in l.completion :: RuleAccepted(syntax, r)
  }

  function FieldNames(collects: seq<Collect>): set<string> {
    set c | c in collects :: c.field
  }

  ghost predicate NodeAccepted(syntax: Syntax, n: RawNode) {
    && AllAccepted(n.objections)
    && forall a | a in n.actions :: ActionAccepted(syntax, FieldNames(n.collects), a)
  }

  /** What a loaded objection guarantees the objection runtime. */
  ghost predicate WellFormed(o: Objection) {
    (o.tool <==> o.payload.Some?) && (o.tool ==> 1 <= o.payload.value.maxTurns <= 10)
  }

  ghost predicate AllWellFormed(os: seq<Objection>) {
    forall i | 0 <= i < |os| :: WellFormed(os[i])
  }

  ghost predicate NodeOk(nodes: map<string, Node>, n: Node) {
    && (forall t | t in n.next :: t.target in nodes)
    && AllWellFormed(n.objections)
  }

  /** The guarantees of an accepted TreeFlow. */
  ghost predicate Accepted(f: Flow) {
    && f.entry in f.nodes
    && (forall id | id in f.nodes :: f.nodes[id].id == id && NodeOk(f.nodes, f.nodes[id]))
    && AllWellFormed(f.globals)
  }

  function ParseObjection(o: RawObjection): (r: Result<Objection, LoadError>)
    ensures r.Ok? <==> ObjectionAccepted(o)
    ensures r.Ok? ==> WellFormed(r.value) && r.value.id == o.id && (r.value.tool <==> o.mode == "tool")
    ensures r.Ok? && r.value.tool ==>
              r.value.payload.value.maxTurns == o.payload.value.maxTurns && r.value.payload.value.criteria == o.payload.value.criteria
    ensures r.Ok? && r.value.tool ==> (r.value.payload.value.action.EscalateToHuman? <==> o.payload.value.action == "escalate_to_human")
  {
    if |o.description| < 10 then Err(BadObjection(o.id))
    else if o.mode == "inline" then Ok(Objection(o.id, false, None))
    else if o.mode != "tool" || o.payload.None? then Err(BadObjection(o.id))
    else
      var p := o.payload.value;
      if !(1 <= p.maxTurns <= 10) || |p.summary| < 10 || |p.criteria| < 10 then Err(BadObjection(o.id))
      else if p.action == "gracefully_continue" then
        Ok(Objection(o.id, true, Some(Payload(p.maxTurns, GracefullyContinue, p.criteria))))
      else if p.action == "escalate_to_human" then
        Ok(Objection(o.id, true, Some(Payload(p.maxTurns, EscalateToHuman, p.criteria))))
      else Err(BadObjection(o.id))
  }

  function ParseObjections(os: seq<RawObjection>): (r: Result<seq<Objection>, LoadError>)
    ensures r.Ok? <==> AllAccepted(os)
    ensures r.Ok? ==> AllWellFormed(r.value) && |r.value| == |os|
    ensures r.Ok? ==> forall i | 0 <= i < |os| :: ParseObjection(os[i]) == Ok(r.value[i])
  {
    if os == [] then Ok([])
    else match ParseObjection(os[0])
      case Err(e) => Err(e)
      case Ok(first) =>
        match ParseObjections(os[1..])
        case Err(e) => Err(e)
        case Ok(rest) => Ok([first] + rest)
  }

  /** The node an accepted raw node loads as. */
  ghost function NodeOf(n: RawNode): Node
    requires AllAccepted(n.objections)
  {
    Node(n.id, n.collects, n.exit, n.next, ParseObjections(n.objections).value, n.actions)
  }

  /** `_parse_on_collected`. */
  method ParseOnCollected(syntax: Syntax, node: string, fields: set<string>, raw: seq<OnCollected>)
    returns (r: Result<seq<OnCollected>, LoadError>)
    ensures r.Ok? <==> forall a | a in raw :: ActionAccepted(syntax, fields, a)
    ensures r.Ok? ==> r.value == raw
  {
    var result: seq<OnCollected> := [];
    for i := 0 to |raw|
      invariant result == raw[..i]
      invariant forall a | a in raw[..i] :: ActionAccepted(syntax, fields, a)
    {
      var a := raw[i];
      assert a in raw;
      if a.field == "" || a.field !in fields || a.adapter == "" || a.handler == "" {
        return Err(BadAction(node, i));
      }
      if exists t :: t in a.templates && !syntax.template(t) {
        return Err(BadAction(node, i));
      }
      result := result + [raw[i]];
    }
    assert raw[..|raw|] == raw;
    return Ok(result);
  }

  method ParseNode(syntax: Syntax, n: RawNode) returns (r: Result<Node, LoadError>)
    ensures r.Ok? <==> NodeAccepted(syntax, n)
    ensures r.Ok? ==> r.value == NodeOf(n)
  {
    var objections := ParseObjections(n.objections);
    if objections.Err? {
      return Err(objections.error);
    }
    var actions := ParseOnCollected(syntax, n.id, FieldNames(n.collects), n.actions);
    match actions {
      case Err(e) => return Err(e);
      case Ok(parsed) => return Ok(Node(n.id, n.collects, n.exit, n.next, objections.value, parsed));
    }
  }

  /** One duration of the block: absent, or in its range. */
  method CheckDuration(syntax: Syntax, text: string, lo: int, hi: int) returns (r: Result<Option<int>, LoadError>)
    ensures r.Ok? <==> DurationAccepted(syntax, text, lo, hi)
    ensures r.Ok? ==> r.value == ParseDuration(syntax, text)
  {
    if text == "" {
      return Ok(None);
    }
    match syntax.seconds(text) {
      case None => return Err(BadLifecycle);
      case Some(n) => return if n < lo || n > hi then Err(BadLifecycle) else Ok(Some(n));
    }
  }

  function ParseDuration(syntax: Syntax, text: string): Option<int> {
    if text == "" then None else syntax.seconds(text)
  }

  /** `_parse_talk_lifecycle`, for a block that is there. */
  method ParseLifecycle(syntax: Syntax, l: RawLifecycle) returns (r: Result<Lifecycle, LoadError>)
    ensures r.Ok? <==> LifecycleAccepted(syntax, l)
    ensures r.Ok? ==> r.value.inactivity == ParseDuration(syntax, l.inactivity) && r.value.duration == ParseDuration(syntax, l.duration)
    ensures r.Ok? ==> r.value.completion == l.completion
  {
    var inactivity := CheckDuration(syntax, l.inactivity, HOUR, 365 * DAY);
    if inactivity.Err? {
      return Err(inactivity.error);
    }
    var duration := CheckDuration(syntax, l.duration, DAY, 730 * DAY);
    if duration.Err? {
      return Err(duration.error);
    }
    var completion: seq<CompletionRule> := [];
    for i := 0 to |l.completion|
      invariant completion == l.completion[..i]
      invariant forall x | x in l.completion[..i] :: RuleAccepted(syntax, x)
    {
      var rule := l.completion[i];
      assert rule in l.completion;
      if rule.expression == "" || (rule.outcome != "success" && rule.outcome != "failure" && rule.outcome != "no_interest") {
        return Err(BadLifecycle);
      }
      if !syntax.expression(rule.expression) {
        return Err(BadLifecycle);
      }
      completion := completion + [l.completion[i]];
    }
    assert l.completion[..|l.completion|] == l.completion;
    return Ok(Lifecycle(inactivity.value, duration.value, completion));
  }

  ghost function Ids(raw: seq<RawNode>): set<string> {
    set i | 0 <= i < |raw| :: raw[i].id
  }

  /** The raw node a loaded TreeFlow keeps for an id: the last one declared. */
  ghost function Kept(raw: seq<RawNode>, id: string): RawNode
    requires id in Ids(raw)
  {
    var last := |raw| - 1;
    if raw[last].id == id then raw[last]
    else
      assert id in Ids(raw[..last]) by {
        var i :| 0 <= i < |raw| && raw[i].id == id;
        assert raw[..last][i].id == id;
      }
      Kept(raw[..last], id)
  }

  ghost predicate Indexed(raw: seq<RawNode>, nodes: map<string, Node>) {
    nodes.Keys == Ids(raw)
    && forall id | id in nodes :: AllAccepted(Kept(raw, id).objections) && nodes[id] == NodeOf(Kept(raw, id))
  }

  /** Exactly when loading succeeds. */
  ghost predicate Loadable(syntax: Syntax, f: RawFlow) {
    && (forall i | 0 <= i < |f.nodes| :: NodeAccepted(syntax, f.nodes[i]))
    && f.entry in Ids(f.nodes)
    && (forall id, t | id in Ids(f.nodes) && t in Kept(f.nodes, id).next :: t.target in Ids(f.nodes))
    && AllAccepted(f.globals)
    && (f.lifecycle.Some? ==> LifecycleAccepted(syntax, f.lifecycle.value))
  }

  lemma {:induction false} KeptHasId(raw: seq<RawNode>, id: string)
    requires id in Ids(raw)
    ensures Kept(raw, id).id == id
    decreases |raw|
  {
    var last := |raw| - 1;
    if raw[last].id != id {
      var i :| 0 <= i < |raw| && raw[i].id == id;
      assert raw[..last][i].id == id;
      KeptHasId(raw[..last], id);
    }
  }

  lemma IndexedSnoc(raw: seq<RawNode>, nodes: map<string, Node>, n: RawNode)
    requires Indexed(raw, nodes) && AllAccepted(n.objections)
    ensures Indexed(raw + [n], nodes[n.id := NodeOf(n)])
  {
    var all := raw + [n];
    assert all[..|all| - 1] == raw && all[|all| - 1] == n;
    assert forall i | 0 <= i < |raw| :: all[i] == raw[i];
    assert Ids(all) == Ids(raw) + {n.id};
  }

  method LoadNodes(syntax: Syntax, raw: seq<RawNode>) returns (r: Result<map<string, Node>, LoadError>)
    ensures r.Ok? <==> forall i | 0 <= i < |raw| :: NodeAccepted(syntax, raw[i])
    ensures r.Ok? ==> Indexed(raw, r.value)
  {
    var nodes: map<string, Node> := map[];
    for k := 0 to |raw|
      invariant forall i | 0 <= i < k :: NodeAccepted(syntax, raw[i])
      invariant Indexed(raw[..k], nodes)
    {
      var parsed := ParseNode(syntax, raw[k]);
      match parsed {
        case Err(e) => return Err(e);
        case Ok(node) =>
          IndexedSnoc(raw[..k], nodes, raw[k]);
          assert raw[..k + 1] == raw[..k] + [raw[k]];
          nodes := nodes[raw[k].id := node];
      }
    }
    assert raw[..|raw|] == raw;
    return Ok(nodes);
  }

  /** Looks for a transition whose target is not a node. */
  method CheckTargets(nodes: map<string, Node>) returns (r: Option<LoadError>)
    ensures r.None? <==> forall id, t | id in nodes && t in nodes[id].next :: t.target in nodes
  {
    var todo := nodes.Keys;
    while todo != {}
      invariant todo <= nodes.Keys
      invariant forall id, t | id in nodes && id !in todo && t in nodes[id].next :: t.target in nodes
      decreases |todo|
    {
      var id :| id in todo;
      todo := todo - {id};
      var next := nodes[id].next;
      for k := 0 to |next|
        invariant forall t | t in next[..k] :: t.target in nodes
      {
        if next[k].target !in nodes {
          assert next[k] in nodes[id].next;
          return Some(UnknownTarget(id, next[k].target));
        }
      }
      assert next[..|next|] == next;
    }
    return None;
  }

  method Load(syntax: Syntax, f: RawFlow) returns (r: Result<Flow, LoadError>)
    ensures r.Ok? <==> Loadable(syntax, f)
    ensures r.Ok? ==> Accepted(r.value) && r.value.entry == f.entry && Indexed(f.nodes, r.value.nodes)
    ensures r.Ok? ==> ParseObjections(f.globals) == Ok(r.value.globals)
    ensures r.Ok? ==> (r.value.lifecycle.Some? <==> f.lifecycle.Some?)
    ensures r.Ok? && f.lifecycle.Some? ==>
              var raw, l := f.lifecycle.value, r.value.lifecycle.value;
              l == Lifecycle(ParseDuration(syntax, raw.inactivity), ParseDuration(syntax, raw.duration), raw.completion)
  {
    var loaded := LoadNodes(syntax, f.nodes);
    if loaded.Err? {
      return Err(loaded.error);
    }
    var nodes := loaded.value;
    if f.entry !in nodes {
      return Err(UnknownEntry);
    }
    var bad := CheckTargets(nodes);
    assert forall id | id in nodes :: nodes[id].next == Kept(f.nodes, id).next;
    if bad.Some? {
      return Err(bad.value);
    }
    var globals := ParseObjections(f.globals);
    if globals.Err? {
      return Err(globals.error);
    }
    var lifecycle: Option<Lifecycle> := None;
    if f.lifecycle.Some? {
      var parsed := ParseLifecycle(syntax, f.lifecycle.value);
      if parsed.Err? {
        return Err(parsed.error);
      }
      lifecycle := Some(parsed.value);
    }
    forall id | id in nodes ensures nodes[id].id == id && NodeOk(nodes, nodes[id]) {
      KeptHasId(f.nodes, id);
    }
    return Ok(Flow(f.entry, nodes, globals.value, lifecycle));
  }
}
