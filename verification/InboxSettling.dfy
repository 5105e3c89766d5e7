/** How the v2 inbox drain settles its rows: as processed or as errors, and with which text. */
module InboxSettling {
  import opened Strings
  import opened InboxDrain

  /** An audio head whose words the turn does not get. */
  predicate Unclear(env: Env, r: Row) {
    env.voice && r.audio && !env.normalize(r.id).Understood?
  }

  /** The outcomes after which the head is settled as processed, with its burst. */
  predicate Handled(o: TurnOutcome) {
    o == Sent || o == OptOut || o == Banned || o == Escalated
  }

  /** The outcomes after which the head is settled as an error. */
  predicate Failing(o: TurnOutcome) {
    o == SkippedHuman || o == Unreachable || o == MessagingFailed
  }

  /** How many rows an iteration settles: the burst after a turn that returned, the head after a
      messaging error or an apology, none after a raise. */
  function SettledCount(env: Env, queue: seq<Row>, n: nat): nat
    requires queue != []
  {
    if Unclear(env, queue[0]) then if env.normalize(queue[0].id) == Misunderstood(true) then 1 else 0
    else if Handled(env.outcome(n)) || env.outcome(n) == SkippedHuman then |Burst(queue, env.window)|
    else if Failing(env.outcome(n)) then 1
    else 0
  }

  /** The text column a settled head is committed with: its own when it is alone or a messaging
      error restored it, else the burst's bodies. */
  function HeadText(env: Env, queue: seq<Row>, n: nat): string
    requires queue != []
  {
    var alone := |Burst(queue, env.window)| == 1;
    var restored := !Unclear(env, queue[0]) && (env.outcome(n) == Unreachable || env.outcome(n) == MessagingFailed);
    if alone || restored then queue[0].text else Join("\n", Parts(Burst(queue, env.window)))
  }

  lemma FirstOfSettled(head: Settled, tail: seq<Row>)
    ensures var all := [head] + SettleAll(tail);
            |all| == 1 + |tail| && all[0] == head
            && forall j | 0 < j < |all| :: all[j] == Settled(tail[j - 1], true, tail[j - 1].text)
  {
  }

  /** One iteration makes one call, with the burst, unless the head's audio was unclear. The rows it
      settles are the first of the queue: the head as processed if and only if it was apologized for
      or its turn was handled, every companion as processed and with its own text. */
  lemma IterationExactly(env: Env, queue: seq<Row>, n: nat)
    requires queue != [] && Ordered(queue)
    ensures var d, burst := Step(env, queue, n), queue[..|Burst(queue, env.window)|];
            && d.calls == (if Unclear(env, queue[0]) then [] else [Call(burst, PassedText(env, queue))])
            && |d.settled| == SettledCount(env, queue, n) <= |queue|
            && (d.settled != [] ==>
                  d.settled[0] == Settled(queue[0], Unclear(env, queue[0]) || Handled(env.outcome(n)), HeadText(env, queue, n)))
            && forall j | 0 < j < |d.settled| :: d.settled[j] == Settled(queue[j], true, queue[j].text)
  {
    BurstIsLongestPrefix(queue, env.window);
    hide Step, PassedText, Ordered, LongestWithin, SettleAll, Parts;
    var b, o := Burst(queue, env.window), env.outcome(n);
    if !Unclear(env, queue[0]) && (Handled(o) || o.SkippedHuman?) {
      TurnReturns(env, queue, n);
      FirstOfSettled(Settled(queue[0], !o.SkippedHuman?, MergedText(queue, env.window)), b[1..]);
    } else {
      OneAtMost(env, queue, n);
    }
    hide Burst;
  }

  lemma OneAtMost(env: Env, queue: seq<Row>, n: nat)
    requires queue != [] && (Unclear(env, queue[0]) || !(Handled(env.outcome(n)) || env.outcome(n).SkippedHuman?))
    ensures var d, head := Step(env, queue, n), queue[0];
            && d.calls == (if Unclear(env, head) then [] else [Call(Burst(queue, env.window), PassedText(env, queue))])
            && d.settled == if SettledCount(env, queue, n) == 0 then [] else
               [Settled(head, Unclear(env, head), if Unclear(env, head) then MergedText(queue, env.window) else head.text)]
  {
    hide Burst, PassedText, MergedText, SettleAll, Retried;
  }

  lemma TurnReturns(env: Env, queue: seq<Row>, n: nat)
    requires queue != [] && !Unclear(env, queue[0]) && (Handled(env.outcome(n)) || env.outcome(n).SkippedHuman?)
    ensures var d, b := Step(env, queue, n), Burst(queue, env.window);
            && d.calls == [Call(b, PassedText(env, queue))]
            && d.settled
            == [Settled(queue[0], !env.outcome(n).SkippedHuman?, MergedText(queue, env.window))] + SettleAll(b[1..])
  {
    hide Burst, PassedText, MergedText, SettleAll;
  }

  // ------------------------------------------------------------ over a drain

  function Errors(settled: seq<Settled>): nat {
    if settled == [] then 0 else (if settled[0].ok then 0 else 1) + Errors(settled[1..])
  }

  /** How many of `k` turns from the `n`-th on failed. */
  function FailingTurns(env: Env, n: nat, k: nat): nat
    decreases k
  {
    if k == 0 then 0 else (if Failing(env.outcome(n)) then 1 else 0) + FailingTurns(env, n + 1, k - 1)
  }

  lemma {:induction false} ErrorsConcat(a: seq<Settled>, b: seq<Settled>)
    ensures Errors(a + b) == Errors(a) + Errors(b)
  {
    if a == [] {
      assert a + b == b;
    } else {
      assert (a + b)[1..] == a[1..] + b;
      ErrorsConcat(a[1..], b);
    }
  }

  lemma {:induction false} NoErrors(settled: seq<Settled>)
    requires forall i | 0 <= i < |settled| :: settled[i].ok
    ensures Errors(settled) == 0
  {
    if settled != [] {
      NoErrors(settled[1..]);
    }
  }

  lemma IterationErrors(env: Env, queue: seq<Row>, n: nat)
    requires queue != [] && Ordered(queue)
    ensures |Step(env, queue, n).calls| <= 1
    ensures Errors(Step(env, queue, n).settled) == FailingTurns(env, n, |Step(env, queue, n).calls|)
  {
    IterationExactly(env, queue, n);
    hide Step, Ordered, Burst, PassedText, HeadText;
    var d := Step(env, queue, n);
    if d.settled != [] {
      assert d.settled == [d.settled[0]] + d.settled[1..];
      NoErrors(d.settled[1..]);
    }
    assert |d.calls| == 1 ==> FailingTurns(env, n, 1) == (if Failing(env.outcome(n)) then 1 else 0) + FailingTurns(env, n + 1, 0);
  }

  lemma {:induction false} FailingTurnsSplit(env: Env, n: nat, a: nat, b: nat)
    ensures FailingTurns(env, n, a + b) == FailingTurns(env, n, a) + FailingTurns(env, n + a, b)
    decreases a
  {
    if a > 0 {
      FailingTurnsSplit(env, n + 1, a - 1, b);
    }
  }

  /** Over a whole drain, whatever arrives and raises, as many rows are settled as errors as turns
      were skipped for a human or ended in a messaging error. */
  lemma {:induction false} ErrorsAreFailingTurns(env: Env, queue: seq<Row>, arrivals: seq<seq<Row>>, n: nat)
    requires Ordered(queue) && Newcomers(queue, Batching.Flatten(arrivals))
    ensures var d := Run(env, queue, arrivals, n); Errors(d.settled) == FailingTurns(env, n, |d.calls|)
    decreases |arrivals|, |queue|
  {
    hide Step, Stops, Ordered, Newcomers, Arrive, Run, Left, Arrived, EndsRaised, Errors, FailingTurns;
    if queue == [] {
      DrainOfNothing(env, arrivals, n);
      NoErrors([]);
      FailingTurnsSplit(env, n, 0, 0);
      return;
    }
    IterationErrors(env, queue, n);
    if Stops(env, queue, n) {
      DrainStops(env, queue, arrivals, n);
      return;
    }
    DrainGoesOn(env, queue, arrivals, n);
    IterationSettles(env, queue, arrivals, n);
    var s := Step(env, queue, n);
    var next, m := Arrive(s.rest, Soon(arrivals)), n + |s.calls|;
    RunShrinks(env, queue, arrivals, n);
    ErrorsAreFailingTurns(env, next, Later(arrivals), m);
    var more := Run(env, next, Later(arrivals), m);
    ErrorsConcat(s.settled, more.settled);
    FailingTurnsSplit(env, n, |s.calls|, |more.calls|);
  }

  lemma RunShrinks(env: Env, queue: seq<Row>, arrivals: seq<seq<Row>>, n: nat)
    requires queue != [] && !Stops(env, queue, n)
    ensures |Later(arrivals)| < |arrivals| || (arrivals == Later(arrivals) == [] && |Arrive(Step(env, queue, n).rest, Soon(arrivals))| < |queue|)
  {
    hide Step, Stops;
  }
}
