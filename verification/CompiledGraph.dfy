/** The version-1 TreeFlow: what the schema accepts (src/ai_sdr/schemas/treeflow_yaml.py) and
    the graph it compiles to (src/ai_sdr/treeflow/compiler.py).

    Expression evaluation, the classifier's verdicts and the extracted fields are inputs. */
module CompiledGraph {
  import opened Wrappers

  datatype Objection = Objection(id: string, subnode: Option<string>)

  datatype Edge = Edge(condition: string, target: string)

  datatype Exit = AllFilled | Rule(expression: string) | Combined(expression: string)

  /** `required` are the required fields among those the node collects. */
  datatype Node = Node(id: string, required: seq<string>, exit: Exit, next: seq<Edge>, objections: seq<Objection>)

  datatype TreeFlow = TreeFlow(globals: seq<Objection>, entry: string, nodes: seq<Node>)

  const END := "END"
  const BACK := "BACK_TO_ORIGIN"
  const CLASSIFIER := "__classifier"
  const INLINE := "__inline"
  /** The graph library's own node names. */
  const RESERVED := {"__start__", "__end__"}

  // ------------------------------------------------------------------ schema

  predicate Ends(s: string, suffix: string) {
    |suffix| <= |s| && s[|s| - |suffix|..] == suffix
  }

  predicate IsLower(c: char) {
    'a' <= c <= 'z'
  }

  predicate IsLowerOrDigit(c: char) {
    IsLower(c) || '0' <= c <= '9'
  }

  predicate IsSlugText(s: string) {
    && 2 <= |s| <= 64 && IsLower(s[0]) && IsLowerOrDigit(s[|s| - 1])
    && forall c | c in s :: IsLowerOrDigit(c) || c == '_'
  }

  /** The pattern's `$` also matches before one final line break. */
  predicate IsSlug(s: string) {
    IsSlugText(s) || (Ends(s, "\n") && IsSlugText(s[..|s| - 1]))
  }

  predicate Distinct(ids: seq<string>) {
    forall i, j | 0 <= i < j < |ids| :: ids[i] != ids[j]
  }

  function NodeIds(nodes: seq<Node>): (r: seq<string>)
    ensures |r| == |nodes| && forall i | 0 <= i < |nodes| :: r[i] == nodes[i].id
  {
    seq(|nodes|, i requires 0 <= i < |nodes| => nodes[i].id)
  }

  predicate DistinctObjections(os: seq<Objection>) {
    forall i, j | 0 <= i < j < |os| :: os[i].id != os[j].id
  }

  predicate Declared(tf: TreeFlow, id: string) {
    id in NodeIds(tf.nodes)
  }

  predicate NodeAccepted(tf: TreeFlow, n: Node) {
    && IsSlug(n.id) && !Ends(n.id, CLASSIFIER) && !Ends(n.id, INLINE)
    && n.next != []
    && DistinctObjections(n.objections)
    && (forall e | e in n.next :: Declared(tf, e.target) || e.target == END || e.target == BACK)
    && (forall o | o in n.objections && o.subnode.Some? :: Declared(tf, o.subnode.value) && o.subnode.value != n.id)
  }

  predicate Accepted(tf: TreeFlow) {
    && Distinct(NodeIds(tf.nodes)) && Declared(tf, tf.entry)
    && (forall n | n in tf.nodes :: NodeAccepted(tf, n))
    && DistinctObjections(tf.globals)
    && (forall o | o in tf.globals && o.subnode.Some? :: Declared(tf, o.subnode.value))
  }

  // ------------------------------------------------------------------- graph

  datatype Handler = Respond(node: nat) | Classify(node: nat) | Inline(node: nat)

  predicate HasInline(tf: TreeFlow, n: Node) {
    (exists o :: o in n.objections && o.subnode.None?) || (exists o :: o in tf.globals && o.subnode.None?)
  }

  /** Adding a name twice, or a reserved one, is refused. */
  function Place(m: map<string, Handler>, name: string, h: Handler): Option<map<string, Handler>> {
    if name in m || name in RESERVED then None else Some(m[name := h])
  }

  function PlaceNode(tf: TreeFlow, m: map<string, Handler>, k: nat): Option<map<string, Handler>>
    requires k < |tf.nodes|
  {
    var n := tf.nodes[k];
    match Place(m, n.id, Respond(k))
    case None => None
    case Some(m1) =>
      match Place(m1, n.id + CLASSIFIER, Classify(k))
      case None => None
      case Some(m2) => if HasInline(tf, n) then Place(m2, n.id + INLINE, Inline(k)) else Some(m2)
  }

  function Build(tf: TreeFlow, k: nat): Option<map<string, Handler>>
    requires k <= |tf.nodes|
  {
    if k == 0 then Some(map[])
    else match Build(tf, k - 1)
      case None => None
      case Some(m) => PlaceNode(tf, m, k - 1)
  }

  class StateGraph {
    var nodes: map<string, Handler>

    constructor ()
      ensures nodes == map[]
    {
      nodes := map[];
    }

    method AddNode(name: string, h: Handler) returns (ok: bool)
      modifies this
      ensures Place(old(nodes), name, h) == if ok then Some(nodes) else None
      ensures !ok ==> nodes == old(nodes)
    {
      if name in nodes || name in RESERVED {
        return false;
      }
      nodes := nodes[name := h];
      return true;
    }
  }

  method AnyInline(os: seq<Objection>) returns (found: bool)
    ensures found <==> exists o :: o in os && o.subnode.None?
  {
    for i := 0 to |os|
      invariant forall k | 0 <= k < i :: os[k].subnode.Some?
    {
      if os[i].subnode.None? {
        assert os[i] in os;
        return true;
      }
    }
    return false;
  }

  /** The compiler's registration loop. */
  method Compile(tf: TreeFlow) returns (graph: StateGraph, ok: bool)
    ensures fresh(graph)
    ensures Build(tf, |tf.nodes|) == if ok then Some(graph.nodes) else None
  {
    graph := new StateGraph();
    ok := true;
    var anyGlobal := AnyInline(tf.globals);
    var k := 0;
    while ok && k < |tf.nodes|
      invariant 0 <= k <= |tf.nodes| && fresh(graph)
      invariant ok ==> Build(tf, k) == Some(graph.nodes)
      invariant !ok ==> Build(tf, k) == None
    {
      var n := tf.nodes[k];
      ok := graph.AddNode(n.id, Respond(k));
      if ok {
        ok := graph.AddNode(n.id + CLASSIFIER, Classify(k));
        var anyLocal := AnyInline(n.objections);
        if ok && (anyLocal || anyGlobal) {
          ok := graph.AddNode(n.id + INLINE, Inline(k));
        }
      }
      k := k + 1;
    }
    if !ok {
      NeverRecovers(tf, k);
    }
  }

  lemma {:induction false} NeverRecovers(tf: TreeFlow, k: nat)
    requires k <= |tf.nodes| && Build(tf, k) == None
    ensures Build(tf, |tf.nodes|) == None
    decreases |tf.nodes| - k
  {
    if k < |tf.nodes| {
      NeverRecovers(tf, k + 1);
    }
  }

  // ------------------------------------------------- every name has one meaning

  predicate Names(tf: TreeFlow, name: string, h: Handler) {
    && h.node < |tf.nodes|
    && match h
       case Respond(k) => name == tf.nodes[k].id
       case Classify(k) => name == tf.nodes[k].id + CLASSIFIER
       case Inline(k) => name == tf.nodes[k].id + INLINE && HasInline(tf, tf.nodes[k])
  }

  lemma SuffixIsEnd(a: string, s: string)
    ensures Ends(a + s, s) && (a + s)[..|a|] == a
  {
  }

  lemma LastLetter(name: string)
    ensures Ends(name, CLASSIFIER) ==> name[|name| - 1] == 'r'
    ensures Ends(name, INLINE) ==> name[|name| - 1] == 'e'
  {
    if Ends(name, CLASSIFIER) {
      assert name[|name| - 1] == name[|name| - 12..][11];
    }
    if Ends(name, INLINE) {
      assert name[|name| - 1] == name[|name| - 8..][7];
    }
  }

  /** A name's ending tells what it registers, because no accepted id ends in a suffix. */
  lemma EndingTells(tf: TreeFlow, name: string, h: Handler)
    requires Accepted(tf) && Names(tf, name, h)
    ensures Ends(name, CLASSIFIER) <==> h.Classify?
    ensures Ends(name, INLINE) <==> h.Inline?
    ensures name !in RESERVED
  {
    var id := tf.nodes[h.node].id;
    assert NodeAccepted(tf, tf.nodes[h.node]);
    hide Accepted, NodeAccepted;
    SuffixIsEnd(id, CLASSIFIER);
    SuffixIsEnd(id, INLINE);
    LastLetter(name);
    assert name[|name| - 1] != '_';
  }

  lemma NamesAreUnambiguous(tf: TreeFlow, name: string, h: Handler, h': Handler)
    requires Accepted(tf) && Names(tf, name, h) && Names(tf, name, h')
    ensures h == h' && name !in RESERVED
  {
    EndingTells(tf, name, h);
    EndingTells(tf, name, h');
    var a, b := tf.nodes[h.node].id, tf.nodes[h'.node].id;
    hide NodeAccepted, HasInline, Ends;
    SuffixIsEnd(a, CLASSIFIER);
    SuffixIsEnd(a, INLINE);
    SuffixIsEnd(b, CLASSIFIER);
    SuffixIsEnd(b, INLINE);
    assert a == b;
    assert NodeIds(tf.nodes)[h.node] == NodeIds(tf.nodes)[h'.node];
  }

  /** What a graph holds once the first `k` nodes are registered. */
  ghost predicate Holds(tf: TreeFlow, m: map<string, Handler>, k: nat) {
    && (forall name, h: Handler | h.node < k && Names(tf, name, h) :: name in m)
    && (forall name | name in m :: m[name].node < k && Names(tf, name, m[name]))
  }

  lemma PlaceNodeHolds(tf: TreeFlow, m: map<string, Handler>, k: nat)
    requires Accepted(tf) && k < |tf.nodes| && Holds(tf, m, k)
    ensures PlaceNode(tf, m, k).Some? && Holds(tf, PlaceNode(tf, m, k).value, k + 1)
  {
    hide Accepted, Ends, HasInline;
    var n := tf.nodes[k];
    FreshName(tf, m, n.id, Respond(k));
    FreshName(tf, m, n.id + CLASSIFIER, Classify(k));
    EndingTells(tf, n.id, Respond(k));
    EndingTells(tf, n.id + CLASSIFIER, Classify(k));
    if HasInline(tf, n) {
      FreshName(tf, m, n.id + INLINE, Inline(k));
      EndingTells(tf, n.id + INLINE, Inline(k));
    }
    assert PlaceNode(tf, m, k).Some?;
    var after := PlaceNode(tf, m, k).value;
    forall name, h: Handler | h.node < k + 1 && Names(tf, name, h) ensures name in after {
      assert h.node < k || h == Respond(k) || h == Classify(k) || h == Inline(k);
    }
  }

  lemma EmptyHolds(tf: TreeFlow)
    ensures Holds(tf, map[], 0)
  {
  }

  /** No name collides: an accepted TreeFlow always builds, and the graph holds exactly the
      names of its nodes, their classifiers and the inline responders it needs. */
  lemma {:induction false} AcceptedBuilds(tf: TreeFlow, k: nat)
    requires Accepted(tf) && k <= |tf.nodes|
    ensures Build(tf, k).Some? && Holds(tf, Build(tf, k).value, k)
    decreases k
  {
    hide Accepted, PlaceNode, Holds;
    if k == 0 {
      EmptyHolds(tf);
    } else {
      AcceptedBuilds(tf, k - 1);
      PlaceNodeHolds(tf, Build(tf, k - 1).value, k - 1);
    }
  }

  /** The names an accepted TreeFlow's graph holds: of its nodes, of their classifiers, and of an
      inline responder where an objection in scope has no node of its own. */
  lemma GraphHoldsExactly(tf: TreeFlow, name: string)
    requires Accepted(tf)
    ensures Build(tf, |tf.nodes|).Some?
    ensures name in Build(tf, |tf.nodes|).value <==> exists n ::
              && n in tf.nodes
              && (|| name == n.id || name == n.id + "__classifier"
                  || (name == n.id + "__inline" && exists o :: (o in n.objections || o in tf.globals) && o.subnode.None?))
  {
    AcceptedBuilds(tf, |tf.nodes|);
    hide Accepted, Build;
    var m := Build(tf, |tf.nodes|).value;
    forall k: nat | k < |tf.nodes| && name == tf.nodes[k].id ensures name in m {
      assert Names(tf, name, Respond(k));
    }
    forall k: nat | k < |tf.nodes| && name == tf.nodes[k].id + CLASSIFIER ensures name in m {
      assert Names(tf, name, Classify(k));
    }
    forall k: nat | k < |tf.nodes| && name == tf.nodes[k].id + INLINE && HasInline(tf, tf.nodes[k]) ensures name in m {
      assert Names(tf, name, Inline(k));
    }
    if name in m {
      assert Names(tf, name, m[name]);
    }
  }

  lemma FreshName(tf: TreeFlow, m: map<string, Handler>, name: string, h: Handler)
    requires Accepted(tf) && Names(tf, name, h)
    requires forall other | other in m :: m[other].node < h.node && Names(tf, other, m[other])
    ensures name !in m && name !in RESERVED
  {
    NamesAreUnambiguous(tf, name, h, h);
    if name in m {
      NamesAreUnambiguous(tf, name, h, m[name]);
    }
  }

  // ------------------------------------------------- objections in a node's scope

  /** A dictionary in insertion order: an update keeps the key's place. */
  function Put(merged: seq<Objection>, o: Objection): (r: seq<Objection>) {
    if merged == [] then [o]
    else if merged[0].id == o.id then [o] + merged[1..]
    else [merged[0]] + Put(merged[1..], o)
  }

  function PutAll(merged: seq<Objection>, os: seq<Objection>): seq<Objection>
    decreases |os|
  {
    if os == [] then merged else PutAll(Put(merged, os[0]), os[1..])
  }

  function Applicable(tf: TreeFlow, n: Node): seq<Objection> {
    PutAll(PutAll([], tf.globals), n.objections)
  }

  method ApplicableObjections(tf: TreeFlow, n: Node) returns (merged: seq<Objection>)
    ensures merged == Applicable(tf, n)
  {
    merged := [];
    var i := 0;
    while i < |tf.globals|
      invariant 0 <= i <= |tf.globals|
      invariant PutAll(merged, tf.globals[i..]) == PutAll([], tf.globals)
    {
      assert tf.globals[i..][1..] == tf.globals[i + 1..];
      merged := Put(merged, tf.globals[i]);
      i := i + 1;
    }
    i := 0;
    while i < |n.objections|
      invariant 0 <= i <= |n.objections|
      invariant PutAll(merged, n.objections[i..]) == Applicable(tf, n)
    {
      assert n.objections[i..][1..] == n.objections[i + 1..];
      merged := Put(merged, n.objections[i]);
      i := i + 1;
    }
  }

  predicate HasId(os: seq<Objection>, id: string) {
    exists i :: 0 <= i < |os| && os[i].id == id
  }

  lemma {:induction false} PutReplaces(merged: seq<Objection>, o: Objection, x: Objection)
    requires DistinctObjections(merged)
    ensures DistinctObjections(Put(merged, o))
    ensures x in Put(merged, o) <==> x == o || (x in merged && x.id != o.id)
    ensures forall p | p in Put(merged, o) :: p == o || p in merged
    decreases |merged|
  {
    if merged != [] && merged[0].id != o.id {
      PutReplaces(merged[1..], o, x);
      var rest := Put(merged[1..], o);
      forall j | 0 <= j < |rest| ensures rest[j].id != merged[0].id {
        assert rest[j] in rest;
      }
    }
  }

  lemma {:induction false} PutAllReplaces(merged: seq<Objection>, os: seq<Objection>, x: Objection)
    requires DistinctObjections(merged) && DistinctObjections(os)
    ensures DistinctObjections(PutAll(merged, os))
    ensures x in PutAll(merged, os) <==> x in os || (x in merged && !HasId(os, x.id))
    decreases |os|
  {
    if os != [] {
      PutReplaces(merged, os[0], x);
      PutAllReplaces(Put(merged, os[0]), os[1..], x);
      assert HasId(os, x.id) <==> os[0].id == x.id || HasId(os[1..], x.id) by {
        if HasId(os[1..], x.id) {
          var i :| 0 <= i < |os[1..]| && os[1..][i].id == x.id;
          assert os[i + 1].id == x.id;
        }
        if HasId(os, x.id) && os[0].id != x.id {
          var i :| 0 <= i < |os| && os[i].id == x.id;
          assert os[1..][i - 1].id == x.id;
        }
      }
    }
  }

  /** In a node's scope: its own objections, and the global ones it does not redefine; one
      objection per id, so the classifier's id picks exactly one. */
  lemma LocalObjectionsWin(tf: TreeFlow, n: Node, x: Objection)
    requires Accepted(tf) && n in tf.nodes
    ensures DistinctObjections(Applicable(tf, n))
    ensures x in Applicable(tf, n) <==> x in n.objections || (x in tf.globals && !HasId(n.objections, x.id))
  {
    assert NodeAccepted(tf, n);
    PutAllReplaces([], tf.globals, x);
    PutAllReplaces(PutAll([], tf.globals), n.objections, x);
  }
}
