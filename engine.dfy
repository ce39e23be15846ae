/** The part of LangGraph's StateGraph that the four workflows rely on: node-by-node execution
    over a state record, fixed edges and routers resolved through a mapping, pausing after the
    nodes named in interrupt_after, and aborting on a node failure while keeping the last good
    state. Each workflow supplies its own nodes (delta plus per-field merge) and edges. */
module Engine {
  import opened Wrappers

  /** Where an edge leads: a node, or the END marker. */
  datatype Target<N> = To(node: N) | End

  /** The string LangGraph's END constant stands for. */
  const EndName: string := "__end__"

  /** Why a node, a router or an edge failed. */
  datatype Cause =
    | ReadFailed                             // the PDF loader raised
    | ExtractionFailed                       // the JSON extractor raised
    | MissingKey(key: string)                // a parsed object lacks a key the node reads
    | IndexOutOfRange(index: int, length: int)
    | NoneValue                              // None used where a list was expected
    | UnmappedOutcome(outcome: string)       // a router returned a key its mapping lacks

  datatype NodeError = NodeError(node: string, cause: Cause)

  /** A router outcome resolved through its mapping; a missing key is an error. */
  function Resolve<N>(routes: map<string, Target<N>>, outcome: string): Result<Target<N>, Cause> {
    if outcome in routes then Success(routes[outcome]) else Failure(UnmappedOutcome(outcome))
  }

  /** A compiled graph. exec runs a node and merges its delta into the state; next gives the
      node's successor, through its fixed edge or its router. rank and size only serve to show
      that every run between two pauses is finite. */
  datatype Workflow<!N, !S> = Workflow(
    name: N -> string,
    exec: (N, S) -> Result<S, Cause>,
    next: (N, S) -> Result<Target<N>, Cause>,
    interruptAfter: set<N>,
    rank: Target<N> -> nat,
    size: S -> nat)

  /** What an invocation leaves behind: the state, the node to run on the next resume (or End),
      the error that stopped it if any, and the nodes that completed, in order. */
  datatype Outcome<N, S> = Outcome(values: S, next: Target<N>, error: Option<NodeError>, trace: seq<N>)

  /** A step that does not pause moves down the ranking. */
  ghost predicate Descends<N(!new), S(!new)>(w: Workflow<N, S>, n: N, s: S) {
    match w.exec(n, s)
    case Failure(_) => true
    case Success(s') =>
      match w.next(n, s')
      case Failure(_) => true
      case Success(t) =>
        || n in w.interruptAfter
        || w.rank(t) < w.rank(To(n))
        || (w.rank(t) == w.rank(To(n)) && w.size(s') < w.size(s))
  }

  ghost predicate Terminating<N(!new), S(!new)>(w: Workflow<N, S>) {
    forall n, s :: Descends(w, n, s)
  }

  /** Runs from node at with state s until END, a pause or a failure. A failing node, router or
      edge leaves the state and cursor as they were before that node. */
  function Run<N(==,!new), S(!new)>(w: Workflow<N, S>, at: Target<N>, s: S): (o: Outcome<N, S>)
    requires Terminating(w)
    ensures o.error.Some? ==> o.next.To? && o.error.value.node == w.name(o.next.node)
    ensures o.error.Some? ==>
      var n, c := o.next.node, o.error.value.cause;
      || w.exec(n, o.values) == Failure(c)
      || (w.exec(n, o.values).Success? && w.next(n, w.exec(n, o.values).value) == Failure(c))
    ensures o.error.None? && o.next.To? ==> |o.trace| > 0 && o.trace[|o.trace| - 1] in w.interruptAfter
    ensures forall k :: 0 <= k < |o.trace| - 1 ==> o.trace[k] !in w.interruptAfter
    decreases w.rank(at), w.size(s)
  {
    match at
    case End => Outcome(s, End, None, [])
    case To(n) =>
      match w.exec(n, s)
      case Failure(c) => Outcome(s, at, Some(NodeError(w.name(n), c)), [])
      case Success(s') =>
        match w.next(n, s')
        case Failure(c) => Outcome(s, at, Some(NodeError(w.name(n), c)), [])
        case Success(t) =>
          if n in w.interruptAfter then Outcome(s', t, None, [n])
          else
            assert Descends(w, n, s);
            var o := Run(w, t, s');
            o.(trace := [n] + o.trace)
  }

  /** The executor's loop: one node at a time from at, stopping at END, after a node named
      in interruptAfter, or before a failing node. */
  method Invoke<N(==,!new), S(!new)>(w: Workflow<N, S>, at: Target<N>, s: S) returns (o: Outcome<N, S>)
    requires Terminating(w)
    ensures o == Run(w, at, s)
  {
    var cursor, values := at, s;
    var trace: seq<N> := [];
    while cursor.To?
      invariant Run(w, at, s) == var r := Run(w, cursor, values); r.(trace := trace + r.trace)
      decreases w.rank(cursor), w.size(values)
    {
      var n := cursor.node;
      var x := w.exec(n, values);
      if x.Failure? {
        return Outcome(values, cursor, Some(NodeError(w.name(n), x.error)), trace);
      }
      var t := w.next(n, x.value);
      if t.Failure? {
        return Outcome(values, cursor, Some(NodeError(w.name(n), t.error)), trace);
      }
      if n in w.interruptAfter {
        return Outcome(x.value, t.value, None, trace + [n]);
      }
      assert Descends(w, n, values);
      ghost var r := Run(w, t.value, x.value);
      assert trace + ([n] + r.trace) == (trace + [n]) + r.trace;
      trace := trace + [n];
      cursor, values := t.value, x.value;
    }
    return Outcome(values, End, None, trace);
  }

  /** A relation that every node execution respects (and that is reflexive and transitive)
      relates the starting state to the state any run leaves behind. */
  lemma {:induction false} RunKeeps<N(!new), S(!new)>(w: Workflow<N, S>, at: Target<N>, s: S, keeps: (S, S) -> bool)
    requires Terminating(w)
    requires forall x :: keeps(x, x)
    requires forall x, y, z :: keeps(x, y) && keeps(y, z) ==> keeps(x, z)
    requires forall n, x :: w.exec(n, x).Success? ==> keeps(x, w.exec(n, x).value)
    ensures keeps(s, Run(w, at, s).values)
    decreases w.rank(at), w.size(s)
  {
    match at
    case End =>
    case To(n) =>
      match w.exec(n, s)
      case Failure(_) =>
      case Success(s') =>
        match w.next(n, s')
        case Failure(_) =>
        case Success(t) =>
          if n !in w.interruptAfter {
            assert Descends(w, n, s);
            RunKeeps(w, t, s', keeps);
          }
  }

  /** A run that does not fail gets past its first node: the node and its edge succeed. */
  lemma FirstStepSucceeds<N(!new), S(!new)>(w: Workflow<N, S>, n: N, s: S)
    requires Terminating(w)
    requires Run(w, To(n), s).error.None?
    ensures w.exec(n, s).Success? && w.next(n, w.exec(n, s).value).Success?
  {
  }

  /** A node that succeeds, routes to t and does not pause is followed by the run from t. */
  lemma RunStep<N(!new), S(!new)>(w: Workflow<N, S>, n: N, s: S, s': S, t: Target<N>)
    requires Terminating(w)
    requires w.exec(n, s) == Success(s') && w.next(n, s') == Success(t) && n !in w.interruptAfter
    ensures var o := Run(w, t, s'); Run(w, To(n), s) == o.(trace := [n] + o.trace)
  {
  }

  /** A node that succeeds, routes to t and is named in interruptAfter ends the run there. */
  lemma RunPause<N(!new), S(!new)>(w: Workflow<N, S>, n: N, s: S, s': S, t: Target<N>)
    requires Terminating(w)
    requires w.exec(n, s) == Success(s') && w.next(n, s') == Success(t) && n in w.interruptAfter
    ensures Run(w, To(n), s) == Outcome(s', t, None, [n])
  {
  }

  /** A node or edge that fails ends the run before it, with the state unchanged. */
  lemma RunFails<N(!new), S(!new)>(w: Workflow<N, S>, n: N, s: S, c: Cause)
    requires Terminating(w)
    requires w.exec(n, s) == Failure(c) || (w.exec(n, s).Success? && w.next(n, w.exec(n, s).value) == Failure(c))
    ensures Run(w, To(n), s) == Outcome(s, To(n), Some(NodeError(w.name(n), c)), [])
  {
  }
}
