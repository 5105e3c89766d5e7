/** The v2 inbox drain (`_run_v2_inbox` in src/ai_sdr/worker/jobs/inbound.py): one
    lead's queued messages, collapsed into bursts, one `run_turn` call per burst.

    The inbound table is its queued rows, in `received_at` order, and the log of rows
    the drain has settled. What `run_turn` and audio normalization do is arbitrary. */
module InboxDrain {
  import opened Batching
  import opened Strings

  datatype Row = Row(id: nat, at: int, text: string, transcription: string, audio: bool)

  /** `text` is the text column as committed with the row. */
  datatype Settled = Settled(row: Row, ok: bool, text: string)

  datatype Call = Call(batch: seq<Row>, text: string)

  /** `Unreachable` and `MessagingFailed` are the messaging errors the drain handles. Anything
      else that raises leaves the drain, before `run_turn`'s first commit or after it. */
  datatype TurnOutcome =
    | Sent | OptOut | Banned | Escalated | SkippedHuman
    | Unreachable | MessagingFailed
    | RaisedEarly | Raised

  /** The apology for audio nobody understood can fail, and so can the transcriber. */
  datatype Normalized = Understood(transcription: string) | Misunderstood(apologized: bool) | Unheard

  /** How the n-th call to `run_turn` ends, and what normalizing the row of an id gives. */
  datatype Env = Env(window: int, voice: bool, outcome: nat -> TurnOutcome, normalize: nat -> Normalized)

  datatype Drained = Drained(calls: seq<Call>, settled: seq<Settled>, rest: seq<Row>)

  // ------------------------------------------------------------------- texts

  function Body(r: Row): string {
    Strip(if r.text != "" then r.text else r.transcription)
  }

  /** The nonempty bodies of the rows, in order. */
  function Parts(rows: seq<Row>): (r: seq<string>)
    ensures AllParts(r)
  {
    if rows == [] then []
    else (if Body(rows[0]) != "" then [Body(rows[0])] else []) + Parts(rows[1..])
  }

  function Consolidate(rows: seq<Row>): string {
    Join("\n", Parts(rows))
  }

  lemma {:induction false} PartsConcat(a: seq<Row>, b: seq<Row>)
    ensures Parts(a + b) == Parts(a) + Parts(b)
  {
    if a == [] {
      assert a + b == b;
    } else {
      assert (a + b)[1..] == a[1..] + b;
      PartsConcat(a[1..], b);
      Appended(if Body(a[0]) != "" then [Body(a[0])] else [], Parts(a[1..]), Parts(b));
    }
  }

  // ----------------------------------------------------------------- bursts

  ghost predicate Ordered(queue: seq<Row>) {
    && (forall i, j | 0 <= i < j < |queue| :: queue[i].at <= queue[j].at)
    && (forall i, j | 0 <= i < j < |queue| :: queue[i].id != queue[j].id)
  }

  function Select(rows: seq<Row>, lo: int, hi: int): (r: seq<Row>)
    ensures |r| <= |rows|
  {
    if rows == [] then []
    else (if lo <= rows[0].at <= hi then [rows[0]] else []) + Select(rows[1..], lo, hi)
  }

  function OtherThan(rows: seq<Row>, id: nat): (r: seq<Row>)
    ensures |r| <= |rows|
  {
    if rows == [] then []
    else (if rows[0].id != id then [rows[0]] else []) + OtherThan(rows[1..], id)
  }

  /** The head of the queue and the other queued rows inside its window. */
  function Burst(queue: seq<Row>, window: int): (b: seq<Row>)
    requires queue != []
    ensures 0 < |b| <= |queue|
  {
    [queue[0]] + OtherThan(Select(queue, queue[0].at, queue[0].at + window), queue[0].id)
  }

  /** A burst is one row, or rows received within one window. */
  ghost predicate InWindow(window: int, g: seq<Row>) {
    |g| <= 1 || forall i, j | 0 <= i < |g| && 0 <= j < |g| :: g[j].at - g[i].at <= window
  }

  ghost function WithinWindow(window: int): seq<Row> -> bool {
    (g: seq<Row>) => InWindow(window, g)
  }

  lemma WithinWindowIsHereditary(window: int)
    ensures Hereditary(WithinWindow(window))
  {
  }

  lemma OrderedParts(queue: seq<Row>, k: nat)
    requires Ordered(queue) && k <= |queue|
    ensures Ordered(queue[k..]) && Ordered(queue[..k])
  {
  }

  lemma HeadIsEarliest(queue: seq<Row>)
    requires Ordered(queue) && queue != []
    ensures forall r | r in queue :: queue[0].at <= r.at
  {
  }

  lemma {:induction false} SelectIsPrefix(rows: seq<Row>, lo: int, hi: int)
    requires Ordered(rows) && forall r | r in rows :: lo <= r.at
    ensures |Select(rows, lo, hi)| <= |rows| && Select(rows, lo, hi) == rows[..|Select(rows, lo, hi)|]
    ensures forall r | r in Select(rows, lo, hi) :: r.at <= hi
    ensures |Select(rows, lo, hi)| < |rows| ==> rows[|Select(rows, lo, hi)|].at > hi
  {
    hide Ordered;
    if rows != [] {
      OrderedParts(rows, 1);
      HeadIsEarliest(rows);
      SelectIsPrefix(rows[1..], lo, hi);
      assert rows[0] in rows;
      if rows[0].at > hi {
        SelectNone(rows[1..], lo, hi);
      }
    }
  }

  lemma {:induction false} SelectNone(rows: seq<Row>, lo: int, hi: int)
    requires forall r | r in rows :: r.at > hi
    ensures Select(rows, lo, hi) == []
  {
    if rows != [] {
      assert rows[0] in rows;
      SelectNone(rows[1..], lo, hi);
    }
  }

  lemma {:induction false} OtherThanAll(rows: seq<Row>, id: nat)
    requires forall r | r in rows :: r.id != id
    ensures OtherThan(rows, id) == rows
  {
    if rows != [] {
      assert rows[0] in rows;
      OtherThanAll(rows[1..], id);
    }
  }

  lemma OthersAreTheTail(rows: seq<Row>)
    requires rows != [] && Ordered(rows)
    ensures OtherThan(rows, rows[0].id) == rows[1..]
  {
    var tail := rows[1..];
    forall r | r in tail ensures r.id != rows[0].id {
      var i :| 0 <= i < |tail| && tail[i] == r;
      assert r == rows[i + 1];
    }
    OtherThanAll(tail, rows[0].id);
  }

  /** `k` is the length of the longest prefix within one window. */
  ghost predicate LongestWithin(queue: seq<Row>, window: int, k: nat) {
    && 0 < k <= |queue|
    && InWindow(window, queue[..k])
    && (k < |queue| ==> !InWindow(window, queue[..k + 1]))
  }

  lemma PrefixIsLongest(queue: seq<Row>, window: int, k: nat)
    requires Ordered(queue) && 0 < k <= |queue|
    requires k == 1 || queue[k - 1].at - queue[0].at <= window
    requires k < |queue| ==> queue[k].at - queue[0].at > window
    ensures LongestWithin(queue, window, k)
  {
    var g := queue[..k];
    forall i, j | 0 <= i < k && 0 <= j < k && k > 1 ensures g[j].at - g[i].at <= window {
      assert queue[0].at <= queue[i].at && queue[j].at <= queue[k - 1].at;
    }
    if k < |queue| {
      var longer := queue[..k + 1];
      assert longer[k].at - longer[0].at > window;
    }
  }

  lemma NegativeWindowIsSingle(queue: seq<Row>, window: int)
    requires Ordered(queue) && queue != [] && window < 0
    ensures LongestWithin(queue, window, 1)
  {
    if |queue| > 1 {
      var pair := queue[..2];
      assert pair[0].at - pair[0].at > window;
    }
  }

  /** On an ordered queue the burst is its longest prefix within one window. */
  lemma BurstIsLongestPrefix(queue: seq<Row>, window: int)
    requires queue != [] && Ordered(queue)
    ensures Burst(queue, window) == queue[..|Burst(queue, window)|]
    ensures LongestWithin(queue, window, |Burst(queue, window)|)
  {
    var head := queue[0];
    forall r | r in queue ensures head.at <= r.at {}
    var chosen := Select(queue, head.at, head.at + window);
    SelectIsPrefix(queue, head.at, head.at + window);
    var k := |chosen|;
    assert chosen == queue[..k];
    if k > 0 {
      OrderedParts(queue, k);
      OthersAreTheTail(chosen);
      assert Burst(queue, window) == chosen;
      assert chosen[k - 1] in chosen;
      PrefixIsLongest(queue, window, k);
    } else {
      assert Burst(queue, window) == [head] == queue[..1];
      NegativeWindowIsSingle(queue, window);
    }
  }

  // ------------------------------------------------------------------ drain

  /** The text column of the head once the burst is merged into it. */
  function MergedText(queue: seq<Row>, window: int): string
    requires queue != []
  {
    var b := Burst(queue, window);
    if |b| == 1 then queue[0].text else Consolidate(b)
  }

  predicate IsAudio(env: Env, r: Row) {
    env.voice && r.audio
  }

  function Heard(env: Env, r: Row): string {
    if IsAudio(env, r) && env.normalize(r.id).Understood? then env.normalize(r.id).transcription else r.transcription
  }

  /** The head as `run_turn` gets it. */
  function Retold(env: Env, queue: seq<Row>): Row
    requires queue != []
  {
    queue[0].(text := MergedText(queue, env.window), transcription := Heard(env, queue[0]))
  }

  /** The queue a turn leaves that raised after its first commit: the head keeps the merged
      text, the companions stay queued. */
  function Retried(env: Env, queue: seq<Row>): seq<Row>
    requires queue != []
  {
    [Retold(env, queue)] + queue[1..]
  }

  /** What `run_turn` reads as the inbound text. */
  function PassedText(env: Env, queue: seq<Row>): string
    requires queue != []
  {
    Body(Retold(env, queue))
  }

  predicate StopsDrain(o: TurnOutcome) {
    o.Unreachable? || o.MessagingFailed? || o.RaisedEarly? || o.Raised?
  }

  function SettleAll(rows: seq<Row>): seq<Settled> {
    seq(|rows|, i requires 0 <= i < |rows| => Settled(rows[i], true, rows[i].text))
  }

  predicate Misheard(env: Env, r: Row) {
    IsAudio(env, r) && env.normalize(r.id) == Misunderstood(true)
  }

  /** Normalizing the head, or apologizing for it, raises. */
  predicate Interrupted(env: Env, r: Row) {
    IsAudio(env, r) && (env.normalize(r.id).Unheard? || env.normalize(r.id) == Misunderstood(false))
  }

  predicate Stops(env: Env, queue: seq<Row>, n: nat)
    requires queue != []
  {
    Interrupted(env, queue[0]) || (!Misheard(env, queue[0]) && StopsDrain(env.outcome(n)))
  }

  /** One iteration: what it calls, what it settles, and the rows still queued. A raise is
      rolled back to the last commit; `run_turn`'s has stored the merged head. */
  function Step(env: Env, queue: seq<Row>, n: nat): (d: Drained)
    requires queue != []
    ensures !Stops(env, queue, n) ==> |d.rest| < |queue|
  {
    var head, b, merged := queue[0], Burst(queue, env.window), MergedText(queue, env.window);
    var call := Call(b, PassedText(env, queue));
    if Interrupted(env, head) then Drained([], [], queue)
    else if Misheard(env, head) then Drained([], [Settled(head, true, merged)], queue[1..])
    else if !StopsDrain(env.outcome(n)) then
      Drained([call], [Settled(head, !env.outcome(n).SkippedHuman?, merged)] + SettleAll(b[1..]), queue[|b|..])
    else if env.outcome(n).Raised? then Drained([call], [], Retried(env, queue))
    else if env.outcome(n).RaisedEarly? then Drained([call], [], queue)
    else Drained([call], [Settled(head, false, head.text)], queue[1..])
  }

  ghost function Then(a: Drained, b: Drained): Drained {
    Drained(a.calls + b.calls, a.settled + b.settled, b.rest)
  }

  /** A row that arrives takes its place by `received_at`. */
  function Insert(queue: seq<Row>, r: Row): (q: seq<Row>)
    ensures |q| == |queue| + 1
  {
    if queue == [] || queue[0].at > r.at then [r] + queue else [queue[0]] + Insert(queue[1..], r)
  }

  function Arrive(queue: seq<Row>, rows: seq<Row>): (q: seq<Row>)
    ensures |q| == |queue| + |rows|
    decreases |rows|
  {
    if rows == [] then queue else Arrive(Insert(queue, rows[0]), rows[1..])
  }

  /** The rows that arrive during the next iteration, and the later ones. */
  function Soon(arrivals: seq<seq<Row>>): seq<Row> {
    if arrivals == [] then [] else arrivals[0]
  }

  function Later(arrivals: seq<seq<Row>>): seq<seq<Row>> {
    if arrivals == [] then [] else arrivals[1..]
  }

  /** The rest of a drain, `n` turns into it. */
  ghost function Run(env: Env, queue: seq<Row>, arrivals: seq<seq<Row>>, n: nat): (d: Drained)
    decreases |arrivals|, |queue|
  {
    if queue == [] then Drained([], [], [])
    else
      var s := Step(env, queue, n);
      if Stops(env, queue, n) then s
      else Then(s, Run(env, Arrive(s.rest, Soon(arrivals)), Later(arrivals), n + |s.calls|))
  }

  /** What is logged once an iteration and the arrivals during it are over. */
  ghost function Onward(done: Drained, env: Env, arrivals: seq<seq<Row>>, n: nat): Drained
    requires done.rest != []
  {
    var s := Step(env, done.rest, n);
    Then(done, if Stops(env, done.rest, n) then s else s.(rest := Arrive(s.rest, Soon(arrivals))))
  }

  /** The same drain, on top of what is already logged. */
  ghost function RunOnto(done: Drained, env: Env, arrivals: seq<seq<Row>>, n: nat): (d: Drained)
    decreases |arrivals|, |done.rest|
  {
    if done.rest == [] then done
    else
      var next := Onward(done, env, arrivals, n);
      if Stops(env, done.rest, n) then next
      else RunOnto(next, env, Later(arrivals), n + |Step(env, done.rest, n).calls|)
  }

  lemma {:induction false} RunOntoAppends(done: Drained, env: Env, arrivals: seq<seq<Row>>, n: nat)
    ensures RunOnto(done, env, arrivals, n) == Then(done, Run(env, done.rest, arrivals, n))
    decreases |arrivals|, |done.rest|
  {
    hide Step, Stops;
    if done.rest != [] && !Stops(env, done.rest, n) {
      var s := Step(env, done.rest, n);
      var next := Onward(done, env, arrivals, n);
      RunOntoAppends(next, env, Later(arrivals), n + |s.calls|);
      var r := Run(env, next.rest, Later(arrivals), n + |s.calls|);
      Appended(done.calls, s.calls, r.calls);
      Appended(done.settled, s.settled, r.settled);
    }
  }

  class Inbox {
    var queued: seq<Row>
    var settled: seq<Settled>
    var calls: seq<Call>

    constructor (queue: seq<Row>)
      ensures queued == queue && settled == [] && calls == []
    {
      queued, settled, calls := queue, [], [];
    }

    ghost function Log(): Drained
      reads this
    {
      Drained(calls, settled, queued)
    }

    /** One pass through the loop body; `n` counts the turns made. */
    method Turn(env: Env, n: nat) returns (more: bool, made: nat)
      requires queued != []
      modifies this
      ensures more ==> |queued| < |old(queued)|
      ensures Log() == Then(old(Log()), Step(env, old(queued), n))
      ensures more == !Stops(env, old(queued), n) && made == n + |Step(env, old(queued), n).calls|
    {
      var head := queued[0];
      var burst := Burst(queued, env.window);
      var merged := MergedText(queued, env.window);
      if Interrupted(env, head) {
        return false, n;
      }
      if Misheard(env, head) {
        settled := settled + [Settled(head, true, merged)];
        queued := queued[1..];
        return true, n;
      }
      calls := calls + [Call(burst, PassedText(env, queued))];
      var outcome := env.outcome(n);
      if outcome.RaisedEarly? {
        return false, n + 1;
      }
      if outcome.Raised? {
        queued := Retried(env, queued);
        return false, n + 1;
      }
      if StopsDrain(outcome) {
        settled := settled + [Settled(head, false, head.text)];
        queued := queued[1..];
        return false, n + 1;
      }
      settled := settled + ([Settled(head, !outcome.SkippedHuman?, merged)] + SettleAll(burst[1..]));
      queued := queued[|burst|..];
      return true, n + 1;
    }

    /** The whole loop; `arrivals[i]` comes in while iteration `i` runs. */
    method Drain(env: Env, arrivals: seq<seq<Row>>)
      modifies this
      ensures Log() == Then(old(Log()), Run(env, old(queued), arrivals, 0))
    {
      hide Step, Stops;
      RunOntoAppends(Log(), env, arrivals, 0);
      var more, n, left := true, 0, arrivals;
      while queued != [] && more
        invariant RunOnto(old(Log()), env, arrivals, 0) == if more then RunOnto(Log(), env, left, n) else Log()
        decreases more, |left|, |queued|
      {
        more, n := Turn(env, n);
        if more {
          queued, left := Arrive(queued, Soon(left)), Later(left);
        }
      }
    }
  }

  // ---------------------------------------------------------------- theorems

  ghost predicate TextOnly(env: Env, queue: seq<Row>) {
    forall i | 0 <= i < |queue| :: !IsAudio(env, queue[i])
  }

  /** Nothing ends the drain early: no messaging error, and nothing raises. */
  ghost predicate NoError(env: Env) {
    (forall n: nat :: !StopsDrain(env.outcome(n))) && forall r: Row :: !Interrupted(env, r)
  }

  ghost function Batches(calls: seq<Call>): seq<seq<Row>> {
    seq(|calls|, i requires 0 <= i < |calls| => calls[i].batch)
  }

  ghost function SettledRows(settled: seq<Settled>): seq<Row> {
    seq(|settled|, i requires 0 <= i < |settled| => settled[i].row)
  }

  ghost function BatchParts(batches: seq<seq<Row>>): seq<seq<string>> {
    seq(|batches|, i requires 0 <= i < |batches| => Parts(batches[i]))
  }

  lemma SettledRowsOf(head: Row, ok: bool, text: string, tail: seq<Row>)
    ensures SettledRows([Settled(head, ok, text)] + SettleAll(tail)) == [head] + tail
    ensures SettledRows([Settled(head, ok, text)]) == [head]
  {
  }

  /** The turn raised after its first commit. */
  predicate TurnRaised(env: Env, queue: seq<Row>, n: nat)
    requires queue != []
  {
    !Interrupted(env, queue[0]) && !Misheard(env, queue[0]) && env.outcome(n).Raised?
  }

  /** The rows an iteration leaves queued, as they were before it. */
  function AsWere(env: Env, queue: seq<Row>, n: nat): seq<Row>
    requires queue != []
  {
    if TurnRaised(env, queue, n) then queue else Step(env, queue, n).rest
  }

  /** One step settles a prefix of the queue and leaves the others queued. */
  lemma StepConserves(env: Env, queue: seq<Row>, n: nat)
    requires queue != [] && Ordered(queue)
    ensures SettledRows(Step(env, queue, n).settled) + AsWere(env, queue, n) == queue
    ensures !Stops(env, queue, n) ==> AsWere(env, queue, n) == Step(env, queue, n).rest
  {
    BurstIsLongestPrefix(queue, env.window);
    hide Burst, MergedText, PassedText, Retried, Ordered, SettledRows, SettleAll, Interrupted, Misheard;
    var b, head, s := Burst(queue, env.window), queue[0], Step(env, queue, n);
    var merged, skipped := MergedText(queue, env.window), env.outcome(n).SkippedHuman?;
    assert [head] + queue[1..] == queue && [] + queue == queue;
    assert b == [head] + b[1..] && b + queue[|b|..] == queue;
    NoRowsOf();
    SettledRowsOf(head, true, merged, []);
    SettledRowsOf(head, false, head.text, []);
    SettledRowsOf(head, !skipped, merged, b[1..]);
  }

  lemma NoRowsOf()
    ensures SettledRows([]) == []
  {
  }

  lemma ThenConserves(settled: seq<Settled>, rest: seq<Row>, more: seq<Settled>, left: seq<Row>, queue: seq<Row>)
    requires SettledRows(settled) + rest == queue && SettledRows(more) + left == rest
    ensures SettledRows(settled + more) + left == queue
  {
    assert SettledRows(settled + more) == SettledRows(settled) + SettledRows(more);
    Appended(SettledRows(settled), SettledRows(more), left);
  }

  /** Rows to come have ids of their own. */
  ghost predicate Newcomers(queue: seq<Row>, coming: seq<Row>) {
    && (forall i, j | 0 <= i < j < |coming| :: coming[i].id != coming[j].id)
    && (forall q, c | q in queue && c in coming :: q.id != c.id)
  }

  lemma {:induction false} InsertKeeps(queue: seq<Row>, r: Row)
    requires Ordered(queue) && forall q | q in queue :: q.id != r.id
    ensures Ordered(Insert(queue, r)) && multiset(Insert(queue, r)) == multiset(queue) + multiset{r}
    ensures forall x | x in Insert(queue, r) :: x == r || x in queue
    decreases |queue|
  {
    if queue != [] && queue[0].at <= r.at {
      var rest := Insert(queue[1..], r);
      assert queue == [queue[0]] + queue[1..];
      OrderedParts(queue, 1);
      InsertKeeps(queue[1..], r);
      hide Insert;
      forall k | 0 <= k < |rest| ensures queue[0].at <= rest[k].at && queue[0].id != rest[k].id {
        assert rest[k] in rest;
        assert rest[k] == r || rest[k] in queue[1..];
      }
      OrderedCons(queue[0], rest);
    } else {
      HeadInsert(queue, r);
    }
  }

  lemma HeadInsert(queue: seq<Row>, r: Row)
    requires Ordered(queue) && (queue == [] || r.at < queue[0].at) && forall q | q in queue :: q.id != r.id
    ensures Ordered([r] + queue)
  {
    forall k | 0 <= k < |queue| ensures r.at <= queue[k].at && r.id != queue[k].id {
      assert queue[k] in queue;
    }
    OrderedCons(r, queue);
  }

  lemma OrderedCons(r: Row, rest: seq<Row>)
    requires Ordered(rest) && forall k | 0 <= k < |rest| :: r.at <= rest[k].at && r.id != rest[k].id
    ensures Ordered([r] + rest)
  {
  }

  lemma {:induction false} ArriveKeeps(queue: seq<Row>, rows: seq<Row>, coming: seq<Row>)
    requires Ordered(queue) && Newcomers(queue, rows + coming)
    ensures Ordered(Arrive(queue, rows)) && multiset(Arrive(queue, rows)) == multiset(queue) + multiset(rows)
    ensures Newcomers(Arrive(queue, rows), coming)
    decreases |rows|
  {
    if rows == [] {
      assert rows + coming == coming;
    } else {
      var all := rows + coming;
      assert rows == [rows[0]] + rows[1..] && all[1..] == rows[1..] + coming && all[0] == rows[0];
      assert rows[0] in all;
      InsertKeeps(queue, rows[0]);
      NewcomersInsert(queue, all);
      ArriveKeeps(Insert(queue, rows[0]), rows[1..], coming);
    }
  }

  lemma NewcomersInsert(queue: seq<Row>, coming: seq<Row>)
    requires Ordered(queue) && coming != [] && Newcomers(queue, coming)
    ensures Newcomers(Insert(queue, coming[0]), coming[1..])
  {
    assert coming[0] in coming;
    InsertKeeps(queue, coming[0]);
    var rest := coming[1..];
    forall q, c | q in Insert(queue, coming[0]) && c in rest ensures q.id != c.id {
      var k :| 0 <= k < |rest| && rest[k] == c;
      assert coming[k + 1] == c && c in coming;
    }
  }

  /** The rows that arrived before the drain ended. */
  ghost function Arrived(env: Env, queue: seq<Row>, arrivals: seq<seq<Row>>, n: nat): seq<Row>
    decreases |arrivals|, |queue|
  {
    if queue == [] || Stops(env, queue, n) then []
    else
      var s := Step(env, queue, n);
      Soon(arrivals) + Arrived(env, Arrive(s.rest, Soon(arrivals)), Later(arrivals), n + |s.calls|)
  }

  /** The rows the drain leaves queued, as they were before its last iteration. */
  ghost function Left(env: Env, queue: seq<Row>, arrivals: seq<seq<Row>>, n: nat): seq<Row>
    decreases |arrivals|, |queue|
  {
    if queue == [] then []
    else if Stops(env, queue, n) then AsWere(env, queue, n)
    else
      var s := Step(env, queue, n);
      Left(env, Arrive(s.rest, Soon(arrivals)), Later(arrivals), n + |s.calls|)
  }

  /** The drain's last turn raised after its first commit. */
  ghost predicate EndsRaised(env: Env, queue: seq<Row>, arrivals: seq<seq<Row>>, n: nat)
    decreases |arrivals|, |queue|
  {
    queue != [] &&
    if Stops(env, queue, n) then TurnRaised(env, queue, n)
    else
      var s := Step(env, queue, n);
      EndsRaised(env, Arrive(s.rest, Soon(arrivals)), Later(arrivals), n + |s.calls|)
  }

  lemma DrainOfNothing(env: Env, arrivals: seq<seq<Row>>, n: nat)
    ensures Run(env, [], arrivals, n) == Drained([], [], []) && Left(env, [], arrivals, n) == []
    ensures Arrived(env, [], arrivals, n) == [] && !EndsRaised(env, [], arrivals, n) && SettledRows([]) == []
  {
  }

  lemma NoneArrive(queue: seq<Row>)
    ensures Arrive(queue, Soon([])) == queue && Later([]) == []
  {
  }

  lemma DrainGoesOn(env: Env, queue: seq<Row>, arrivals: seq<seq<Row>>, n: nat)
    requires queue != [] && !Stops(env, queue, n)
    ensures var s := Step(env, queue, n);
            var next, later, m := Arrive(s.rest, Soon(arrivals)), Later(arrivals), n + |s.calls|;
            && Run(env, queue, arrivals, n) == Then(s, Run(env, next, later, m))
            && Left(env, queue, arrivals, n) == Left(env, next, later, m)
            && Arrived(env, queue, arrivals, n) == Soon(arrivals) + Arrived(env, next, later, m)
            && (EndsRaised(env, queue, arrivals, n) <==> EndsRaised(env, next, later, m))
  {
    hide Step, Stops, Arrive, AsWere, TurnRaised;
  }

  lemma DrainStops(env: Env, queue: seq<Row>, arrivals: seq<seq<Row>>, n: nat)
    requires queue != [] && Stops(env, queue, n)
    ensures Run(env, queue, arrivals, n) == Step(env, queue, n) && Left(env, queue, arrivals, n) == AsWere(env, queue, n)
    ensures Arrived(env, queue, arrivals, n) == [] && (EndsRaised(env, queue, arrivals, n) <==> TurnRaised(env, queue, n))
  {
    hide Step, Stops, AsWere, TurnRaised;
  }

  /** The rows settled and those left are, with their multiplicities, the queue and what came. */
  ghost predicate Balanced(settled: seq<Settled>, left: seq<Row>, queue: seq<Row>, came: seq<Row>) {
    multiset(SettledRows(settled)) + multiset(left) == multiset(queue) + multiset(came)
  }

  /** Whatever `run_turn` and transcription do, raising included, and whatever arrives meanwhile,
      every row there was or that came is settled once or still queued. A row still queued is
      as it was, except the head after a turn that raised past its first commit: it holds the
      merged text. Nothing is left when nothing went wrong. */
  lemma {:induction false} EveryRowIsSettledOnce(env: Env, queue: seq<Row>, arrivals: seq<seq<Row>>, n: nat)
    requires Ordered(queue) && Newcomers(queue, Flatten(arrivals))
    ensures var d, left := Run(env, queue, arrivals, n), Left(env, queue, arrivals, n);
            && Balanced(d.settled, left, queue, Arrived(env, queue, arrivals, n))
            && (if EndsRaised(env, queue, arrivals, n) then left != [] && d.rest == Retried(env, left)
                else d.rest == left)
            && (NoError(env) ==> left == [])
    decreases |arrivals|, |queue|
  {
    hide Step, Ordered, NoError, Arrive, Newcomers, Stops, Balanced, AsWere, Retried, TurnRaised, Run, Left, Arrived, EndsRaised;
    if queue == [] {
      DrainOfNothing(env, arrivals, n);
      BalancedStop([], [], []);
      return;
    }
    if Stops(env, queue, n) {
      DrainStops(env, queue, arrivals, n);
      StopSettles(env, queue, n);
      return;
    }
    DrainGoesOn(env, queue, arrivals, n);
    IterationSettles(env, queue, arrivals, n);
    var s := Step(env, queue, n);
    var next, later, m := Arrive(s.rest, Soon(arrivals)), Later(arrivals), n + |s.calls|;
    EveryRowIsSettledOnce(env, next, later, m);
    BalancedThen(s.settled, Run(env, next, later, m).settled, Left(env, next, later, m), next, Arrived(env, next, later, m),
                 queue, Soon(arrivals));
  }

  lemma StopSettles(env: Env, queue: seq<Row>, n: nat)
    requires queue != [] && Ordered(queue) && Stops(env, queue, n)
    ensures Balanced(Step(env, queue, n).settled, AsWere(env, queue, n), queue, []) && !NoError(env)
    ensures if TurnRaised(env, queue, n)
            then AsWere(env, queue, n) == queue && Step(env, queue, n).rest == Retried(env, queue)
            else Step(env, queue, n).rest == AsWere(env, queue, n)
  {
    StepConserves(env, queue, n);
    BalancedStop(Step(env, queue, n).settled, AsWere(env, queue, n), queue);
    hide Burst, MergedText, PassedText, Retried, Ordered, Balanced, Misheard, SettledRows;
  }

  lemma BalancedStop(settled: seq<Settled>, left: seq<Row>, queue: seq<Row>)
    requires SettledRows(settled) + left == queue
    ensures Balanced(settled, left, queue, [])
  {
    assert multiset(SettledRows(settled) + left) == multiset(SettledRows(settled)) + multiset(left);
  }

  lemma BalancedThen(settled: seq<Settled>, more: seq<Settled>, left: seq<Row>, next: seq<Row>, came: seq<Row>,
                     queue: seq<Row>, soon: seq<Row>)
    requires Balanced(settled, next, queue, soon) && Balanced(more, left, next, came)
    ensures Balanced(settled + more, left, queue, soon + came)
  {
    SettledThen(settled, more);
    var a, b, c := multiset(SettledRows(settled)), multiset(SettledRows(more)), multiset(left);
    assert a + b + c == a + (b + c) == a + multiset(next) + multiset(came);
  }

  /** One iteration settles some rows; with those that arrive, the others are queued next. */
  lemma IterationSettles(env: Env, queue: seq<Row>, arrivals: seq<seq<Row>>, n: nat)
    requires queue != [] && Ordered(queue) && Newcomers(queue, Flatten(arrivals)) && !Stops(env, queue, n)
    ensures var s, next := Step(env, queue, n), Arrive(Step(env, queue, n).rest, Soon(arrivals));
            && Ordered(next) && Newcomers(next, Flatten(Later(arrivals)))
            && Balanced(s.settled, next, queue, Soon(arrivals))
  {
    hide Step, Stops, AsWere, Ordered, SettledRows, Arrive, Newcomers;
    StepConserves(env, queue, n);
    var s := Step(env, queue, n);
    var done := SettledRows(s.settled);
    assert multiset(queue) == multiset(done) + multiset(s.rest) by {
      assert done + s.rest == queue;
    }
    OrderedParts(queue, |done|);
    assert s.rest == queue[|done|..];
    NewcomersSuffix(queue, |done|, Flatten(arrivals));
    assert Flatten(arrivals) == Soon(arrivals) + Flatten(Later(arrivals));
    ArriveKeeps(s.rest, Soon(arrivals), Flatten(Later(arrivals)));
  }

  lemma NewcomersSuffix(queue: seq<Row>, k: nat, coming: seq<Row>)
    requires k <= |queue| && Newcomers(queue, coming)
    ensures Newcomers(queue[k..], coming)
  {
  }

  lemma SettledThen(a: seq<Settled>, b: seq<Settled>)
    ensures multiset(SettledRows(a + b)) == multiset(SettledRows(a)) + multiset(SettledRows(b))
  {
    assert SettledRows(a + b) == SettledRows(a) + SettledRows(b);
  }

  /** When nothing arrives, a prefix of the queue is settled, in order. */
  lemma {:induction false} DrainConserves(env: Env, queue: seq<Row>, n: nat)
    requires Ordered(queue)
    ensures SettledRows(Run(env, queue, [], n).settled) + Left(env, queue, [], n) == queue
    decreases |queue|
  {
    hide Step, Stops, AsWere, Ordered, SettledRows, Run, Left, Arrived, EndsRaised, Arrive;
    if queue == [] {
      DrainOfNothing(env, [], n);
      return;
    }
    StepConserves(env, queue, n);
    var s := Step(env, queue, n);
    NoneArrive(s.rest);
    if Stops(env, queue, n) {
      DrainStops(env, queue, [], n);
    } else {
      DrainGoesOn(env, queue, [], n);
      OrderedParts(queue, |SettledRows(s.settled)|);
      assert s.rest == queue[|SettledRows(s.settled)|..];
      DrainConserves(env, s.rest, n + |s.calls|);
      ThenConserves(s.settled, s.rest, Run(env, s.rest, [], n + |s.calls|).settled, Left(env, s.rest, [], n + |s.calls|), queue);
    }
  }

  lemma FirstBurstIsGreedy(queue: seq<Row>, window: int)
    requires queue != [] && Ordered(queue)
    ensures var b := Burst(queue, window);
            Greedy(WithinWindow(window), [], queue) == [b] + Greedy(WithinWindow(window), [], queue[|b|..])
  {
    BurstIsLongestPrefix(queue, window);
    hide Burst;
    WithinWindowIsHereditary(window);
    GreedyTakesLongest(WithinWindow(window), queue, 0, |Burst(queue, window)|);
    assert queue[..0] == [] && queue[0..] == queue;
  }

  lemma TextStep(env: Env, queue: seq<Row>, n: nat)
    requires queue != [] && Ordered(queue) && TextOnly(env, queue)
    ensures |Step(env, queue, n).calls| == 1 && Step(env, queue, n).calls[0].batch == Burst(queue, env.window)
    ensures !Stops(env, queue, n) ==>
              var rest := Step(env, queue, n).rest;
              rest == queue[|Burst(queue, env.window)|..] && Ordered(rest) && TextOnly(env, rest)
    ensures NoError(env) ==> !Stops(env, queue, n)
  {
    assert !IsAudio(env, queue[0]);
    hide Burst, MergedText, PassedText, Retried, Ordered;
    OrderedParts(queue, |Burst(queue, env.window)|);
  }

  lemma BatchesConcat(a: seq<Call>, b: seq<Call>)
    requires |a| == 1
    ensures Batches(a + b) == [a[0].batch] + Batches(b)
    ensures Batches(a) == [a[0].batch]
  {
  }

  /** With text only, the batches handed to `run_turn` are the greedy windows of the queue, up
      to the one at which something goes wrong. */
  lemma {:induction false} BatchesAreGreedy(env: Env, queue: seq<Row>, n: nat)
    requires Ordered(queue) && TextOnly(env, queue)
    ensures Batches(Run(env, queue, [], n).calls) <= Greedy(WithinWindow(env.window), [], queue)
    ensures NoError(env) ==> Batches(Run(env, queue, [], n).calls) == Greedy(WithinWindow(env.window), [], queue)
    decreases |queue|
  {
    hide Step, Stops, Burst, Ordered, TextOnly, NoError, Greedy, Batches, Run, Arrive;
    if queue == [] {
      DrainOfNothing(env, [], n);
      NoBatches(env.window);
      return;
    }
    TextStep(env, queue, n);
    FirstBurstIsGreedy(queue, env.window);
    var s := Step(env, queue, n);
    if Stops(env, queue, n) {
      DrainStops(env, queue, [], n);
      BatchesConcat(s.calls, []);
      return;
    }
    DrainGoesOn(env, queue, [], n);
    NoneArrive(s.rest);
    BatchesAreGreedy(env, s.rest, n + 1);
    BatchesConcat(s.calls, Run(env, s.rest, [], n + 1).calls);
  }

  lemma NoBatches(window: int)
    ensures Greedy(WithinWindow(window), [], []) == [] && Batches([]) == []
  {
  }

  /** No other way of cutting the queue into bursts within the window makes fewer
      `run_turn` calls. */
  lemma BurstsAreOptimal(env: Env, queue: seq<Row>, groups: seq<seq<Row>>)
    requires Ordered(queue) && TextOnly(env, queue)
    requires Grouping(WithinWindow(env.window), groups, queue)
    ensures |Run(env, queue, [], 0).calls| <= |groups|
  {
    BatchesAreGreedy(env, queue, 0);
    WithinWindowIsHereditary(env.window);
    GreedyIsOptimal(WithinWindow(env.window), queue, groups);
    assert |Batches(Run(env, queue, [], 0).calls)| == |Run(env, queue, [], 0).calls|;
  }

  /** What a burst passes to `run_turn`: the nonempty bodies of its rows, one a line.
      What was heard in an audio head counts only when the head is alone, or when every
      body of the merged burst is blank. */
  lemma PassedTextOfBurst(env: Env, queue: seq<Row>)
    requires queue != []
    ensures var b, told := Burst(queue, env.window), env.normalize(queue[0].id);
            var heard := if env.voice && queue[0].audio && told.Understood? then told.transcription else queue[0].transcription;
            PassedText(env, queue)
            == (if |b| == 1 then Consolidate([queue[0].(transcription := heard)])
                else if Parts(b) == [] then Strip(heard)
                else Consolidate(b))
  {
    var b := Burst(queue, env.window);
    var head := queue[0].(transcription := Heard(env, queue[0]));
    if Parts(b) != [] {
      JoinIsPart("\n", Parts(b));
    }
    if |b| == 1 {
      assert [head][1..] == [];
      assert Parts([head]) == if Body(head) != "" then [Body(head)] else [];
      assert queue[0].(text := queue[0].text, transcription := head.transcription) == head;
    }
  }

  lemma {:induction false} SelectSame(rows: seq<Row>, other: seq<Row>, lo: int, hi: int, id: nat)
    requires rows != [] && other != [] && rows[1..] == other[1..] && rows[0].at == other[0].at && rows[0].id == other[0].id == id
    ensures OtherThan(Select(rows, lo, hi), id) == OtherThan(Select(other, lo, hi), id)
  {
    var rest := Select(rows[1..], lo, hi);
    assert ([rows[0]] + rest)[1..] == rest && ([other[0]] + rest)[1..] == rest;
    assert [] + rest == rest;
  }

  /** The retry's burst is the same rows again, its head retold. */
  lemma RetriedBurst(env: Env, queue: seq<Row>)
    requires queue != []
    ensures var b := Burst(queue, env.window);
            Burst(Retried(env, queue), env.window) == [Retold(env, queue)] + b[1..]
  {
    var q := Retried(env, queue);
    assert q[1..] == queue[1..];
    SelectSame(queue, q, queue[0].at, queue[0].at + env.window, queue[0].id);
  }

  lemma PartsCons(r: Row, rest: seq<Row>)
    ensures Parts([r] + rest) == (if Body(r) != "" then [Body(r)] else []) + Parts(rest)
  {
    assert ([r] + rest)[1..] == rest;
  }

  /** What the retry of a burst passes: the text passed before, and the companions' bodies again. */
  lemma RetryPasses(env: Env, queue: seq<Row>)
    requires queue != []
    ensures var passed, again := PassedText(env, queue), Parts(Burst(queue, env.window)[1..]);
            PassedText(env, Retried(env, queue)) == if again == [] then passed else Join("\n", [passed] + again)
  {
    var b, q := Burst(queue, env.window), Retried(env, queue);
    var head, told := queue[0], Retold(env, queue);
    RetriedBurst(env, queue);
    PassedTextOfBurst(env, queue);
    PassedTextOfBurst(env, q);
    assert q[0] == told && Heard(env, told) == Heard(env, head) == told.transcription;
    hide Burst;
    assert b == [b[0]] + b[1..];
    if |b| == 1 {
      assert b[1..] == [];
      return;
    }
    PartsCons(told, b[1..]);
    PartsCons(b[0], b[1..]);
    if Parts(b) != [] {
      JoinIsPart("\n", Parts(b));
      assert Body(told) == Consolidate(b);
    }
  }

  /** A turn that raised after its first commit and its retry pass the same text, each body once,
      exactly when the companions' bodies are blank, as they are when there are none. */
  lemma RetryPassesOnceExactly(env: Env, queue: seq<Row>)
    requires queue != []
    ensures PassedText(env, Retried(env, queue)) == PassedText(env, queue) <==> Parts(Burst(queue, env.window)[1..]) == []
  {
    RetryPasses(env, queue);
    var passed, again := PassedText(env, queue), Parts(Burst(queue, env.window)[1..]);
    if again != [] {
      assert ([passed] + again)[1..] == again;
      assert |Join("\n", [passed] + again)| == |passed| + 1 + |Join("\n", again)|;
    }
  }

  lemma PartsOfTwo(x: Row, y: Row)
    requires x.text == "a" && y.text == "b"
    ensures Parts([y]) == ["b"] && Parts([x, y]) == ["a"] + ["b"]
  {
    assert Trimmed("a") && Trimmed("b");
    assert Body(x) == "a" && Body(y) == "b";
    PartsCons(y, []);
    PartsCons(x, [y]);
    assert [y] == [y] + [] && [x, y] == [x] + [y];
    assert ["b"] + Parts([]) == ["b"];
  }

  lemma BurstOfTwo(x: Row, y: Row, window: int)
    requires x.at == y.at && x.id != y.id && window >= 0
    ensures Burst([x, y], window) == [x] + [y]
  {
    var queue := [x, y];
    assert queue[1..] == [y] && [y][1..] == [];
    assert Select([y], x.at, x.at + window) == [y] + Select([], x.at, x.at + window) == [y];
    assert Select(queue, x.at, x.at + window) == [x] + [y] == queue;
    assert OtherThan([y], x.id) == [y] + OtherThan([], x.id) == [y];
    assert OtherThan(queue, x.id) == [] + [y] == [y];
  }

  /** Two rows of one burst, "a" and "b": the retry passes "b" twice. */
  lemma RetriedTwoRows(env: Env, x: Row, y: Row)
    requires env.window >= 0 && x.at == y.at && x.id != y.id && x.text == "a" && y.text == "b"
    ensures PassedText(env, [x, y]) == "a\nb" && PassedText(env, Retried(env, [x, y])) == "a\nb\nb"
  {
    var queue := [x, y];
    PassedTextOfBurst(env, queue);
    RetryPasses(env, queue);
    hide Burst, PassedText, Retried, Parts, Join;
    PartsOfTwo(x, y);
    BurstOfTwo(x, y, env.window);
    assert [x] + [y] == queue && queue[1..] == [y];
    TwoLines();
  }

  lemma TwoLines()
    ensures Join("\n", ["a"] + ["b"]) == "a\nb" && Join("\n", ["a\nb"] + ["b"]) == "a\nb\nb"
  {
    var one, two := ["a"] + ["b"], ["a\nb"] + ["b"];
    assert one[1..] == ["b"] && two[1..] == ["b"];
    assert "a" + "\n" + "b" == "a\nb" && "a\nb" + "\n" + "b" == "a\nb\nb";
  }

  ghost predicate PassesBodies(c: Call) {
    Parts(c.batch) != [] ==> c.text == Consolidate(c.batch)
  }

  lemma TextStepPassesBodies(env: Env, queue: seq<Row>, n: nat)
    requires queue != [] && TextOnly(env, queue)
    ensures forall c | c in Step(env, queue, n).calls :: PassesBodies(c)
  {
    PassedTextOfBurst(env, queue);
    var b := Burst(queue, env.window);
    assert |b| == 1 ==> b == [queue[0]];
  }

  /** Each call gets exactly the nonempty bodies of its batch, when there are any. */
  lemma {:induction false} CallsPassBodies(env: Env, queue: seq<Row>, n: nat)
    requires Ordered(queue) && TextOnly(env, queue)
    ensures forall c | c in Run(env, queue, [], n).calls :: PassesBodies(c)
    decreases |queue|
  {
    hide Step, Stops, Ordered, TextOnly, PassesBodies, Run, Arrive;
    if queue == [] {
      DrainOfNothing(env, [], n);
      return;
    }
    TextStep(env, queue, n);
    TextStepPassesBodies(env, queue, n);
    var s := Step(env, queue, n);
    if Stops(env, queue, n) {
      DrainStops(env, queue, [], n);
      return;
    }
    DrainGoesOn(env, queue, [], n);
    NoneArrive(s.rest);
    CallsPassBodies(env, s.rest, n + |s.calls|);
  }

  lemma {:induction false} PartsOfBatches(batches: seq<seq<Row>>)
    ensures Flatten(BatchParts(batches)) == Parts(Flatten(batches))
  {
    if batches != [] {
      PartsOfBatches(batches[1..]);
      PartsConcat(batches[0], Flatten(batches[1..]));
      assert BatchParts(batches)[1..] == BatchParts(batches[1..]);
    }
  }

  lemma {:induction false} PrefixFlattens(groups: seq<seq<Row>>, all: seq<seq<Row>>)
    requires groups <= all
    ensures Flatten(groups) <= Flatten(all)
  {
    assert all == groups + all[|groups|..];
    FlattenConcat(groups, all[|groups|..]);
  }

  /** The batches are consecutive parts of the queue, each within the window, from its start on,
      and to its end when nothing goes wrong; the nonempty bodies they carry, end to end, are
      those of the rows they cover, and each call passes those of its batch. */
  lemma BatchesConserve(env: Env, queue: seq<Row>)
    requires Ordered(queue) && TextOnly(env, queue)
    ensures var batches := Batches(Run(env, queue, [], 0).calls);
            && Grouping(WithinWindow(env.window), batches, Flatten(batches))
            && Flatten(batches) <= queue && (NoError(env) ==> Flatten(batches) == queue)
            && Flatten(BatchParts(batches)) == Parts(Flatten(batches))
    ensures forall c | c in Run(env, queue, [], 0).calls :: PassesBodies(c)
  {
    CallsPassBodies(env, queue, 0);
    var fits := WithinWindow(env.window);
    BatchesAreGreedy(env, queue, 0);
    WithinWindowIsHereditary(env.window);
    GreedyIsGrouping(fits, [], queue);
    hide Run, Ordered, TextOnly, NoError, PassesBodies, Greedy, InWindow, Batches;
    var batches := Batches(Run(env, queue, [], 0).calls);
    assert [] + queue == queue;
    PrefixFlattens(batches, Greedy(fits, [], queue));
    PartsOfBatches(batches);
    forall g | g in batches ensures g in Greedy(fits, [], queue) {}
  }
}
