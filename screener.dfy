/** The resume screener graph: parse, then either generate criteria or go straight to
    evaluation, evaluate one criterion per visit until every criterion has a verdict, then the
    overall decision, then END. There is no checkpointer and no interrupt. */
module Screener {
  import opened Wrappers
  import opened Json
  import opened Engine

  datatype Node = Parse | GenerateCriteria | EvaluateCriteria | OverallDecision

  function Name(n: Node): string {
    match n
    case Parse => "parse"
    case GenerateCriteria => "generate_criteria"
    case EvaluateCriteria => "evaluate_criteria"
    case OverallDecision => "overall_decision"
  }

  /** One per-criterion verdict; criterion stays absent until overall_decision tags it. */
  datatype ScreeningDecision = ScreeningDecision(decision: Json, reason: Json, criterion: Option<string>)

  /** ScreenerState. An absent key and a None value are both None here. */
  datatype State = State(
    pathToResume: string,
    resume: Option<string>,
    jobDescription: string,
    criteria: Option<seq<string>>,
    decisions: seq<ScreeningDecision>,
    decision: Option<Json>,
    reason: Option<Json>,
    numAutoGeneratedCriteria: Option<int>)

  /** A node's partial update: None means the node does not write the field (criteria can be
      written with None). decisions is merged by appending (it is declared with operator.add);
      every other field is replaced. */
  datatype Delta = Delta(
    resume: Option<string>,
    criteria: Option<Option<seq<string>>>,
    decisions: seq<ScreeningDecision>,
    decision: Option<Json>,
    reason: Option<Json>)

  const NoChange: Delta := Delta(None, None, [], None, None)

  function Replace<T>(current: Option<T>, update: Option<T>): Option<T> {
    if update.Some? then update else current
  }

  function Apply(s: State, d: Delta): State {
    s.(resume := Replace(s.resume, d.resume),
       criteria := if d.criteria.Some? then d.criteria.value else s.criteria,
       decisions := s.decisions + d.decisions,
       decision := Replace(s.decision, d.decision),
       reason := Replace(s.reason, d.reason))
  }

  /** What the screener asks the model, reduced to the values that vary (prompt wording is
      fixed text and left out). */
  datatype Prompt =
    | CriteriaPrompt(jobDescription: string, resume: Option<string>, count: int)
    | EvaluatePrompt(jobDescription: string, resume: Option<string>, criterion: string)
    | OverallPrompt(jobDescription: string, resume: Option<string>, compatibilities: seq<ScreeningDecision>)

  /** The collaborators, each an opaque function: the PDF text reader (None when the loader
      raises), the language model, and the two JSON extraction helpers, which may raise, return
      None, or return what they parsed. */
  datatype Env = Env(
    readResume: string -> Option<string>,
    llm: Prompt -> string,
    extractList: string -> Extracted<seq<string>>,
    extractObject: string -> Extracted<map<string, Json>>)

  /** The graph's input as the matching tab builds it; decisions starts empty. */
  function Initial(pathToResume: string, jobDescription: string, criteria: Option<seq<string>>,
                   numAutoGeneratedCriteria: Option<int>): State
  {
    State(pathToResume, None, jobDescription, criteria, [], None, None, numAutoGeneratedCriteria)
  }

  // ---- nodes ----

  /** parse: the text of the PDF, or a failure when the loader raises. */
  function ParseResume(s: State, env: Env): Result<Delta, Cause> {
    match env.readResume(s.pathToResume)
    case None => Failure(ReadFailed)
    case Some(text) => Success(NoChange.(resume := Some(text)))
  }

  /** The number of criteria asked for: `num_auto_generated_criteria or 3`. */
  function RequestedCount(n: Option<int>): (k: int)
    ensures k != 0
    ensures n.None? || n == Some(0) ==> k == 3
    ensures n.Some? && n.value != 0 ==> k == n.value
  {
    if n.None? || n.value == 0 then 3 else n.value
  }

  function CriteriaReply(s: State, env: Env): string {
    env.llm(CriteriaPrompt(s.jobDescription, s.resume, RequestedCount(s.numAutoGeneratedCriteria)))
  }

  /** generate_criteria: stores what the helper returns as it is, a list of any length or
      None. */
  function GenerateCriteriaDelta(s: State, env: Env): Result<Delta, Cause> {
    match env.extractList(CriteriaReply(s, env))
    case Raised => Failure(ExtractionFailed)
    case NoValue => Success(NoChange.(criteria := Some(None)))
    case Found(list) => Success(NoChange.(criteria := Some(Some(list))))
  }

  /** The "decision" and "reason" entries of a parsed reply, read in that order; reading them
      from None fails. */
  function DecisionAndReason(reply: string, env: Env): Result<(Json, Json), Cause> {
    match env.extractObject(reply)
    case Raised => Failure(ExtractionFailed)
    case NoValue => Failure(NoneValue)
    case Found(obj) =>
      if "decision" !in obj then Failure(MissingKey("decision"))
      else if "reason" !in obj then Failure(MissingKey("reason"))
      else Success((obj["decision"], obj["reason"]))
  }

  /** The model's verdict on one criterion; it depends on the criterion, the job description
      and the resume only. */
  function Verdict(jobDescription: string, resume: Option<string>, criterion: string, env: Env): Result<ScreeningDecision, Cause> {
    var dr :- DecisionAndReason(env.llm(EvaluatePrompt(jobDescription, resume, criterion)), env);
    Success(ScreeningDecision(dr.0, dr.1, None))
  }

  /** evaluate_criteria: the verdict for criteria[len(decisions)], as a one-element append. */
  function EvaluateCriteriaDelta(s: State, env: Env): Result<Delta, Cause> {
    var k := |s.decisions|;
    if s.criteria.None? then Failure(NoneValue)
    else if k >= |s.criteria.value| then Failure(IndexOutOfRange(k, |s.criteria.value|))
    else
      var v :- Verdict(s.jobDescription, s.resume, s.criteria.value[k], env);
      Success(NoChange.(decisions := [v]))
  }

  /** The effect of the tagging loop of overall_decision: decisions[i] gets criteria[i]. */
  function Tag(decisions: seq<ScreeningDecision>, criteria: Option<seq<string>>): Result<seq<ScreeningDecision>, Cause> {
    if |decisions| == 0 then Success([])
    else if criteria.None? then Failure(NoneValue)
    else if |decisions| > |criteria.value| then Failure(IndexOutOfRange(|criteria.value|, |criteria.value|))
    else Success(seq(|decisions|, i requires 0 <= i < |decisions| => decisions[i].(criterion := Some(criteria.value[i]))))
  }

  /** The tagging loop of overall_decision, which writes the criterion into each decision
      record in place. On an index error the records before the failing index are tagged. */
  method TagDecisions(decisions: seq<ScreeningDecision>, criteria: Option<seq<string>>)
    returns (tagged: seq<ScreeningDecision>, failed: Option<Cause>)
    ensures failed.None? <==> Tag(decisions, criteria).Success?
    ensures failed.None? ==> Tag(decisions, criteria) == Success(tagged)
    ensures failed.Some? ==> Tag(decisions, criteria) == Failure(failed.value)
    ensures |tagged| == |decisions|
    ensures forall i :: 0 <= i < |decisions| ==>
      tagged[i] == if criteria.Some? && i < |criteria.value| then decisions[i].(criterion := Some(criteria.value[i]))
                   else decisions[i]
  {
    tagged := decisions;
    failed := None;
    var i := 0;
    while i < |decisions|
      invariant 0 <= i <= |decisions|
      invariant criteria.Some? ==> i <= |criteria.value|
      invariant criteria.None? ==> i == 0
      invariant |tagged| == |decisions|
      invariant forall k :: 0 <= k < |decisions| ==>
        tagged[k] == if k < i then decisions[k].(criterion := Some(criteria.value[k])) else decisions[k]
    {
      if criteria.None? {
        failed := Some(NoneValue);
        return;
      }
      if i >= |criteria.value| {
        failed := Some(IndexOutOfRange(i, |criteria.value|));
        return;
      }
      tagged := tagged[i := decisions[i].(criterion := Some(criteria.value[i]))];
      i := i + 1;
    }
    if |decisions| > 0 {
      assert tagged == Tag(decisions, criteria).value;
    }
  }

  /** overall_decision's delta, computed on the already tagged state: decision and reason only. */
  function OverallDecisionDelta(s: State, env: Env): Result<Delta, Cause> {
    var dr :- DecisionAndReason(env.llm(OverallPrompt(s.jobDescription, s.resume, s.decisions)), env);
    Success(NoChange.(decision := Some(dr.0), reason := Some(dr.1)))
  }

  /** A node run and its delta merged. overall_decision's in-place tagging shows as a state
      whose decisions carry their criteria. */
  function Execute(n: Node, s: State, env: Env): Result<State, Cause> {
    match n
    case Parse =>
      var d :- ParseResume(s, env);
      Success(Apply(s, d))
    case GenerateCriteria =>
      var d :- GenerateCriteriaDelta(s, env);
      Success(Apply(s, d))
    case EvaluateCriteria =>
      var d :- EvaluateCriteriaDelta(s, env);
      Success(Apply(s, d))
    case OverallDecision =>
      var tagged :- Tag(s.decisions, s.criteria);
      var t := s.(decisions := tagged);
      var d :- OverallDecisionDelta(t, env);
      Success(Apply(t, d))
  }

  // ---- edges ----

  /** The router after parse. */
  function ShouldGenerateCriteria(s: State): (outcome: string)
    ensures outcome == "criteria" <==> s.criteria.None? || s.criteria.value == []
    ensures outcome != "criteria" ==> outcome == "decisions"
  {
    if s.criteria.None? || |s.criteria.value| == 0 then "criteria" else "decisions"
  }

  /** The router after evaluate_criteria; len(None) is an error. */
  function ShouldEvaluateCriteria(s: State): Result<string, Cause> {
    if s.criteria.None? then Failure(NoneValue)
    else if |s.criteria.value| > |s.decisions| then Success("evaluate_criteria")
    else Success("decision")
  }

  const ParseRoutes: map<string, Target<Node>> :=
    map["criteria" := To(GenerateCriteria), "decisions" := To(EvaluateCriteria)]

  const EvaluateRoutes: map<string, Target<Node>> :=
    map["evaluate_criteria" := To(EvaluateCriteria), "decision" := To(OverallDecision)]

  const FixedEdges: set<(Node, Target<Node>)> :=
    {(GenerateCriteria, To(EvaluateCriteria)), (OverallDecision, End)}

  const Entry: Node := Parse

  function Next(n: Node, s: State): Result<Target<Node>, Cause> {
    match n
    case Parse => Resolve(ParseRoutes, ShouldGenerateCriteria(s))
    case GenerateCriteria => Success(To(EvaluateCriteria))
    case EvaluateCriteria =>
      var outcome :- ShouldEvaluateCriteria(s);
      Resolve(EvaluateRoutes, outcome)
    case OverallDecision => Success(End)
  }

  function Rank(t: Target<Node>): nat {
    match t
    case To(Parse) => 4
    case To(GenerateCriteria) => 3
    case To(EvaluateCriteria) => 2
    case To(OverallDecision) => 1
    case End => 0
  }

  /** The loop measure: criteria not yet evaluated. */
  function Remaining(s: State): nat {
    if s.criteria.Some? && |s.criteria.value| > |s.decisions| then |s.criteria.value| - |s.decisions| else 0
  }

  function Graph(env: Env): (w: Engine.Workflow<Node, State>)
    ensures Terminating(w)
  {
    var w := Engine.Workflow(Name, (n, s) => Execute(n, s, env), Next, {}, Rank, Remaining);
    assert Terminating(w) by {
      forall n, s ensures Descends(w, n, s) {
        if n == EvaluateCriteria && Execute(n, s, env).Success? {
          var s' := Execute(n, s, env).value;
          assert |s'.decisions| == |s.decisions| + 1 && s'.criteria == s.criteria;
        }
      }
    }
    w
  }

  // ---- properties ----

  /** Both outcomes of each router are keys of its mapping. */
  lemma RoutesCoverOutcomes(s: State)
    ensures ShouldGenerateCriteria(s) in ParseRoutes
    ensures ShouldEvaluateCriteria(s).Success? ==> ShouldEvaluateCriteria(s).value in EvaluateRoutes
    ensures Next(Parse, s).Success? && Next(Parse, s).value != End
  {
  }

  /** The router after parse, resolved: generate_criteria when no criteria were given. */
  lemma ParseRoutesTo(s: State)
    ensures Next(Parse, s) == Success(if ShouldGenerateCriteria(s) == "criteria" then To(GenerateCriteria) else To(EvaluateCriteria))
  {
    assert "criteria" in ParseRoutes && "decisions" in ParseRoutes;
  }

  /** The nodes without a router follow exactly their add_edge edges. */
  lemma FixedEdgesFollowed(n: Node, s: State, t: Target<Node>)
    requires n == GenerateCriteria || n == OverallDecision
    ensures Next(n, s) == Success(t) <==> (n, t) in FixedEdges
  {
  }

  /** The router after evaluate_criteria loops while some criterion has no verdict. */
  lemma EvaluateRouterLoops(s: State)
    requires s.criteria.Some?
    ensures Next(EvaluateCriteria, s) == Success(To(EvaluateCriteria)) <==> |s.criteria.value| > |s.decisions|
    ensures Next(EvaluateCriteria, s) == Success(To(OverallDecision)) <==> |s.criteria.value| <= |s.decisions|
  {
  }

  /** evaluate_criteria appends exactly one decision, the verdict for criteria[len(decisions)],
      and leaves every other field as it was; it fails exactly when that index is out of range
      or the model's reply yields no verdict. */
  lemma EvaluateAppendsOne(s: State, env: Env)
    requires s.criteria.Some?
    ensures var r := Execute(EvaluateCriteria, s, env); var k := |s.decisions|;
      && (r.Success? <==> k < |s.criteria.value| && Verdict(s.jobDescription, s.resume, s.criteria.value[k], env).Success?)
      && (k >= |s.criteria.value| ==> r == Failure(IndexOutOfRange(k, |s.criteria.value|)))
      && (r.Success? ==> r.value == s.(decisions := s.decisions + [Verdict(s.jobDescription, s.resume, s.criteria.value[k], env).value]))
  {
  }

  /** parse stores the text read from the PDF and changes nothing else; it fails exactly
      when the loader raises. */
  lemma ParseReads(s: State, env: Env)
    ensures var r := Execute(Parse, s, env);
      && (r.Success? <==> env.readResume(s.pathToResume).Some?)
      && (r.Failure? ==> r.error == ReadFailed)
      && (r.Success? ==> r.value == s.(resume := env.readResume(s.pathToResume)))
  {
    assert s.decisions + [] == s.decisions;
  }

  /** generate_criteria stores what the helper returns unchanged: the list however many
      items it has and whatever count was asked for, or None. It fails exactly when the
      helper raises. */
  lemma GeneratedListStoredAsIs(s: State, env: Env)
    ensures var r := Execute(GenerateCriteria, s, env); var e := env.extractList(CriteriaReply(s, env));
      && (r.Success? <==> !e.Raised?)
      && (r.Failure? ==> r.error == ExtractionFailed)
      && (e.Found? ==> r == Success(s.(criteria := Some(e.value))))
      && (e.NoValue? ==> r == Success(s.(criteria := None)))
  {
    assert s.decisions + [] == s.decisions;
  }

  /** overall_decision tags decisions[i] with criteria[i], asks the model about the tagged
      list, and replaces decision and reason with the entries of its reply; it succeeds
      exactly when both entries can be read. */
  lemma OverallTagsAndDecides(s: State, env: Env)
    requires s.criteria.Some? && |s.decisions| <= |s.criteria.value|
    ensures var r := Execute(OverallDecision, s, env); var c := s.criteria.value;
      var tagged := Tag(s.decisions, s.criteria).value;
      var dr := DecisionAndReason(env.llm(OverallPrompt(s.jobDescription, s.resume, tagged)), env);
      && |tagged| == |s.decisions|
      && (forall i :: 0 <= i < |s.decisions| ==> tagged[i] == s.decisions[i].(criterion := Some(c[i])))
      && (r.Success? <==> dr.Success?)
      && (r.Failure? ==> r.error == dr.error)
      && (r.Success? ==> r.value == s.(decisions := tagged, decision := Some(dr.value.0), reason := Some(dr.value.1)))
  {
  }

  /** The decisions so far are the model's verdicts for the first criteria, in order. */
  ghost predicate Judged(s: State, env: Env) {
    && s.criteria.Some?
    && |s.decisions| <= |s.criteria.value|
    && forall i :: 0 <= i < |s.decisions| ==> Verdict(s.jobDescription, s.resume, s.criteria.value[i], env) == Success(s.decisions[i])
  }

  /** The same node repeated k times. */
  function Repeat(n: Node, k: nat): (r: seq<Node>)
    ensures |r| == k && forall i :: 0 <= i < k ==> r[i] == n
  {
    seq(k, _ => n)
  }

  /** What a successful run leaves once the loop is entered: one verdict per criterion, in
      criterion order, each tagged with its criterion, and the decision and reason the model
      gave when shown that tagged list; END is next. */
  ghost predicate Finished(s: State, o: Outcome<Node, State>, env: Env)
    requires s.criteria.Some?
  {
    var c := s.criteria.value;
    && o.next == End
    && o.values.criteria == s.criteria
    && o.values.resume == s.resume
    && o.values.jobDescription == s.jobDescription
    && o.values.pathToResume == s.pathToResume
    && o.values.numAutoGeneratedCriteria == s.numAutoGeneratedCriteria
    && |o.values.decisions| == |c|
    && (forall i :: 0 <= i < |c| ==>
          && Verdict(s.jobDescription, s.resume, c[i], env) == Success(o.values.decisions[i].(criterion := None))
          && o.values.decisions[i].criterion == Some(c[i]))
    && var dr := DecisionAndReason(env.llm(OverallPrompt(s.jobDescription, s.resume, o.values.decisions)), env);
       dr.Success? && o.values.decision == Some(dr.value.0) && o.values.reason == Some(dr.value.1)
  }

  lemma OverallPhase(s: State, env: Env)
    requires Judged(s, env) && |s.decisions| == |s.criteria.value|
    requires Engine.Run(Graph(env), To(OverallDecision), s).error.None?
    ensures var o := Engine.Run(Graph(env), To(OverallDecision), s);
      Finished(s, o, env) && o.trace == [OverallDecision]
  {
    var w := Graph(env);
    var c := s.criteria.value;
    var x := Execute(OverallDecision, s, env);
    assert x.Success?;
    OverallTagsAndDecides(s, env);
    var o := Engine.Run(w, To(OverallDecision), s);
    assert o == Outcome(x.value, End, None, [OverallDecision]);
    forall i | 0 <= i < |c|
      ensures Verdict(s.jobDescription, s.resume, c[i], env) == Success(o.values.decisions[i].(criterion := None))
    {
      assert s.decisions[i].criterion == None;
    }
  }

  /** One more visit of evaluate_criteria in front of a trace of the loop. */
  lemma RepeatOnceMore(m: nat, trace: seq<Node>)
    requires trace == Repeat(EvaluateCriteria, m) + [OverallDecision]
    ensures [EvaluateCriteria] + trace == Repeat(EvaluateCriteria, m + 1) + [OverallDecision]
  {
    assert [EvaluateCriteria] + Repeat(EvaluateCriteria, m) == Repeat(EvaluateCriteria, m + 1);
  }

  /** Finished depends only on the criteria, the resume and the job description of the
      state it starts from. */
  lemma FinishedFromNext(s: State, s': State, o: Outcome<Node, State>, env: Env)
    requires s.criteria.Some? && s'.criteria == s.criteria
    requires s'.resume == s.resume && s'.jobDescription == s.jobDescription
    requires s'.pathToResume == s.pathToResume && s'.numAutoGeneratedCriteria == s.numAutoGeneratedCriteria
    requires Finished(s', o, env)
    ensures Finished(s, o.(trace := [EvaluateCriteria] + o.trace), env)
  {
  }

  /** A successful visit of evaluate_criteria keeps the decisions in order and one longer. */
  lemma EvaluateKeepsJudged(s: State, env: Env)
    requires Judged(s, env)
    requires Execute(EvaluateCriteria, s, env).Success?
    ensures |s.decisions| < |s.criteria.value|
    ensures var s' := Execute(EvaluateCriteria, s, env).value;
      && Judged(s', env)
      && s'.criteria == s.criteria && s'.resume == s.resume && s'.jobDescription == s.jobDescription
      && s'.pathToResume == s.pathToResume && s'.numAutoGeneratedCriteria == s.numAutoGeneratedCriteria
      && |s'.decisions| == |s.decisions| + 1
  {
    EvaluateAppendsOne(s, env);
  }

  /** One visit of evaluate_criteria in a run that does not fail: it appends the verdict for
      the next criterion and hands over to itself while criteria remain, else to
      overall_decision. */
  lemma EvaluateOnce(s: State, env: Env)
    requires Judged(s, env)
    requires Engine.Run(Graph(env), To(EvaluateCriteria), s).error.None?
    ensures |s.decisions| < |s.criteria.value|
    ensures Execute(EvaluateCriteria, s, env).Success?
    ensures var s' := Execute(EvaluateCriteria, s, env).value;
      && Judged(s', env)
      && s'.criteria == s.criteria && s'.resume == s.resume && s'.jobDescription == s.jobDescription
      && s'.pathToResume == s.pathToResume && s'.numAutoGeneratedCriteria == s.numAutoGeneratedCriteria
      && |s'.decisions| == |s.decisions| + 1
      && var t := if |s'.decisions| < |s.criteria.value| then To(EvaluateCriteria) else To(OverallDecision);
         var o' := Engine.Run(Graph(env), t, s');
         Engine.Run(Graph(env), To(EvaluateCriteria), s) == o'.(trace := [EvaluateCriteria] + o'.trace)
  {
    var w := Graph(env);
    Engine.FirstStepSucceeds(w, EvaluateCriteria, s);
    assert w.exec(EvaluateCriteria, s) == Execute(EvaluateCriteria, s, env);
    EvaluateKeepsJudged(s, env);
    var s' := Execute(EvaluateCriteria, s, env).value;
    var t := if |s'.decisions| < |s.criteria.value| then To(EvaluateCriteria) else To(OverallDecision);
    EvaluateRouterLoops(s');
    Step(env, EvaluateCriteria, s, s', t);
  }

  /** The evaluation loop, from any point where the decisions so far are in order. */
  lemma {:induction false} EvaluatePhase(s: State, env: Env)
    requires Judged(s, env)
    requires Engine.Run(Graph(env), To(EvaluateCriteria), s).error.None?
    ensures var o := Engine.Run(Graph(env), To(EvaluateCriteria), s);
      && |s.decisions| < |s.criteria.value|
      && Finished(s, o, env)
      && o.trace == Repeat(EvaluateCriteria, |s.criteria.value| - |s.decisions|) + [OverallDecision]
    decreases |s.criteria.value| - |s.decisions|
  {
    EvaluateOnce(s, env);
    var c := s.criteria.value;
    var s' := Execute(EvaluateCriteria, s, env).value;
    var t := if |s'.decisions| < |c| then To(EvaluateCriteria) else To(OverallDecision);
    var o' := Engine.Run(Graph(env), t, s');
    var m := |c| - |s'.decisions|;
    if |s'.decisions| < |c| {
      EvaluatePhase(s', env);
    } else {
      OverallPhase(s', env);
      assert Repeat(EvaluateCriteria, 0) == [];
    }
    RepeatOnceMore(m, o'.trace);
    FinishedFromNext(s, s', o', env);
  }

  /** The criteria a run evaluates: the caller's list when it has items, else the list the
      model generated. */
  function CriteriaUsed(init: State, env: Env): Option<seq<string>> {
    if ShouldGenerateCriteria(init) == "criteria" then
      match env.extractList(CriteriaReply(Parsed(init, env), env))
      case Found(list) => Some(list)
      case _ => None
    else init.criteria
  }

  /** The state parse leaves: the text read from the PDF as the resume. */
  function Parsed(init: State, env: Env): State {
    init.(resume := env.readResume(init.pathToResume))
  }

  /** The state evaluate_criteria first sees: the parsed resume and the criteria used. */
  function Evaluating(init: State, env: Env): State {
    Parsed(init, env).(criteria := CriteriaUsed(init, env))
  }

  /** One step of a run: a node that succeeds and routes to t is followed by the run from t
      (the screener never pauses). */
  lemma Step(env: Env, n: Node, s: State, s': State, t: Target<Node>)
    requires Execute(n, s, env) == Success(s') && Next(n, s') == Success(t)
    ensures var o := Engine.Run(Graph(env), t, s');
      Engine.Run(Graph(env), To(n), s) == o.(trace := [n] + o.trace)
  {
    Engine.RunStep(Graph(env), n, s, s', t);
  }

  /** When the PDF cannot be read, the run stops at parse with the input unchanged. */
  lemma ReadFailureStops(init: State, env: Env)
    requires env.readResume(init.pathToResume).None?
    ensures Engine.Run(Graph(env), To(Entry), init)
      == Outcome(init, To(Parse), Some(NodeError("parse", ReadFailed)), [])
  {
    Engine.RunFails(Graph(env), Parse, init, ReadFailed);
  }

  /** With criteria given and the PDF read, parse hands over to evaluate_criteria directly. */
  lemma GivenCriteriaEvaluated(init: State, env: Env)
    requires ShouldGenerateCriteria(init) == "decisions"
    requires env.readResume(init.pathToResume).Some?
    ensures var oe := Engine.Run(Graph(env), To(EvaluateCriteria), Evaluating(init, env));
      Engine.Run(Graph(env), To(Entry), init) == oe.(trace := [Parse] + oe.trace)
  {
    var parsed := Parsed(init, env);
    assert parsed == Evaluating(init, env);
    ParseReads(init, env);
    ParseRoutesTo(parsed);
    Step(env, Parse, init, parsed, To(EvaluateCriteria));
  }

  /** When generate_criteria stores None, evaluate_criteria's read of criteria[0] fails. */
  lemma MissingListFailsNext(s: State, env: Env)
    requires s.criteria.None?
    ensures Engine.Run(Graph(env), To(EvaluateCriteria), s)
      == Outcome(s, To(EvaluateCriteria), Some(NodeError("evaluate_criteria", NoneValue)), [])
  {
    Engine.RunFails(Graph(env), EvaluateCriteria, s, NoneValue);
  }

  /** Without criteria, a run that does not fail reads the PDF, and generate_criteria gets a
      list from the helper and stores it. */
  lemma GenerationSucceeds(init: State, env: Env)
    requires ShouldGenerateCriteria(init) == "criteria"
    requires Engine.Run(Graph(env), To(Entry), init).error.None?
    ensures env.readResume(init.pathToResume).Some?
    ensures CriteriaUsed(init, env).Some?
    ensures Execute(GenerateCriteria, Parsed(init, env), env) == Success(Evaluating(init, env))
  {
    var w := Graph(env);
    Engine.FirstStepSucceeds(w, Parse, init);
    assert w.exec(Parse, init) == Execute(Parse, init, env);
    ParseReads(init, env);
    var parsed := Parsed(init, env);
    ParseRoutesTo(parsed);
    Step(env, Parse, init, parsed, To(GenerateCriteria));
    Engine.FirstStepSucceeds(w, GenerateCriteria, parsed);
    assert w.exec(GenerateCriteria, parsed) == Execute(GenerateCriteria, parsed, env);
    GeneratedListStoredAsIs(parsed, env);
    var s := Execute(GenerateCriteria, parsed, env).value;
    if env.extractList(CriteriaReply(parsed, env)).NoValue? {
      Step(env, GenerateCriteria, parsed, s, To(EvaluateCriteria));
      MissingListFailsNext(s, env);
      assert false;
    }
  }

  /** Without criteria, parse hands over to generate_criteria, and when the list is extracted
      generate_criteria hands over to evaluate_criteria. */
  lemma GeneratedCriteriaEvaluated(init: State, env: Env)
    requires ShouldGenerateCriteria(init) == "criteria"
    requires env.readResume(init.pathToResume).Some?
    requires Execute(GenerateCriteria, Parsed(init, env), env) == Success(Evaluating(init, env))
    ensures var oe := Engine.Run(Graph(env), To(EvaluateCriteria), Evaluating(init, env));
      Engine.Run(Graph(env), To(Entry), init) == oe.(trace := [Parse, GenerateCriteria] + oe.trace)
  {
    var parsed := Parsed(init, env);
    ParseReads(init, env);
    ParseRoutesTo(parsed);
    Step(env, Parse, init, parsed, To(GenerateCriteria));
    Step(env, GenerateCriteria, parsed, Evaluating(init, env), To(EvaluateCriteria));
    var oe := Engine.Run(Graph(env), To(EvaluateCriteria), Evaluating(init, env));
    assert [Parse] + ([GenerateCriteria] + oe.trace) == [Parse, GenerateCriteria] + oe.trace;
  }

  /** The nodes a run visits before its first visit of evaluate_criteria. */
  function Prelude(init: State): seq<Node> {
    if ShouldGenerateCriteria(init) == "criteria" then [Parse, GenerateCriteria] else [Parse]
  }

  /** A run that does not fail reaches evaluate_criteria with the criteria used, after parse
      and, only when no criteria were given, generate_criteria. */
  lemma ReachesEvaluation(init: State, env: Env)
    requires Engine.Run(Graph(env), To(Entry), init).error.None?
    ensures env.readResume(init.pathToResume).Some?
    ensures CriteriaUsed(init, env).Some?
    ensures var oe := Engine.Run(Graph(env), To(EvaluateCriteria), Evaluating(init, env));
      Engine.Run(Graph(env), To(Entry), init) == oe.(trace := Prelude(init) + oe.trace)
  {
    var w := Graph(env);
    Engine.FirstStepSucceeds(w, Parse, init);
    assert w.exec(Parse, init) == Execute(Parse, init, env);
    if ShouldGenerateCriteria(init) == "criteria" {
      GenerationSucceeds(init, env);
      GeneratedCriteriaEvaluated(init, env);
    } else {
      GivenCriteriaEvaluated(init, env);
    }
  }

  /** The state evaluate_criteria first sees holds the criteria used, the extracted resume and
      the decisions given at the start. */
  lemma EvaluatingState(init: State, env: Env)
    ensures var s := Evaluating(init, env);
      && s.criteria == CriteriaUsed(init, env)
      && s.decisions == init.decisions
      && s.resume == env.readResume(init.pathToResume)
      && s.jobDescription == init.jobDescription
  {
  }

  /** The prelude in front of a trace of the loop. */
  lemma TraceJoin(prelude: seq<Node>, loop: seq<Node>, m: nat)
    requires loop == Repeat(EvaluateCriteria, m) + [OverallDecision]
    ensures prelude + loop == prelude + Repeat(EvaluateCriteria, m) + [OverallDecision]
  {
  }

  /** From the first visit of evaluate_criteria, a run that does not fail visits it once per
      criterion, at least once, then overall_decision. */
  lemma LoopVisits(s: State, env: Env)
    requires s.criteria.Some? && s.decisions == []
    requires Engine.Run(Graph(env), To(EvaluateCriteria), s).error.None?
    ensures |s.criteria.value| > 0
    ensures Engine.Run(Graph(env), To(EvaluateCriteria), s).trace
      == Repeat(EvaluateCriteria, |s.criteria.value|) + [OverallDecision]
  {
    EvaluatePhase(s, env);
  }

  /** From the first visit of evaluate_criteria, a run that does not fail leaves every
      criterion judged and tagged, and an overall decision. */
  lemma LoopDecides(s: State, env: Env)
    requires s.criteria.Some? && s.decisions == []
    requires Engine.Run(Graph(env), To(EvaluateCriteria), s).error.None?
    ensures Finished(s, Engine.Run(Graph(env), To(EvaluateCriteria), s), env)
  {
    EvaluatePhase(s, env);
  }

  /** Finished says nothing about the trace. */
  lemma FinishedIgnoresTrace(s: State, o: Outcome<Node, State>, trace: seq<Node>, env: Env)
    requires s.criteria.Some? && Finished(s, o, env)
    ensures Finished(s, o.(trace := trace), env)
  {
  }

  /** The nodes a successful screening visits: parse, generate_criteria only when no criteria
      were given, evaluate_criteria once per criterion used (at least one), overall_decision. */
  lemma ScreeningVisits(init: State, env: Env)
    requires init.decisions == []
    requires Engine.Run(Graph(env), To(Entry), init).error.None?
    ensures CriteriaUsed(init, env).Some?
    ensures var o := Engine.Run(Graph(env), To(Entry), init); var c := CriteriaUsed(init, env).value;
      && |c| > 0
      && o.trace == Prelude(init) + Repeat(EvaluateCriteria, |c|) + [OverallDecision]
  {
    ReachesEvaluation(init, env);
    var s := Evaluating(init, env);
    EvaluatingState(init, env);
    LoopVisits(s, env);
    var oe := Engine.Run(Graph(env), To(EvaluateCriteria), s);
    TraceJoin(Prelude(init), oe.trace, |s.criteria.value|);
  }

  /** What a successful screening returns: the text read from the PDF, the criteria used (the
      generated list stored untruncated), decisions[i] the model's verdict for criteria[i]
      tagged with it, the decision and reason the model gave on that tagged list, and END as
      the next node. */
  lemma ScreeningDecides(init: State, env: Env)
    requires init.decisions == []
    requires Engine.Run(Graph(env), To(Entry), init).error.None?
    ensures CriteriaUsed(init, env).Some? && env.readResume(init.pathToResume).Some?
    ensures var o := Engine.Run(Graph(env), To(Entry), init);
      && o.values.resume == env.readResume(init.pathToResume)
      && Finished(Evaluating(init, env), o, env)
  {
    ReachesEvaluation(init, env);
    var s := Evaluating(init, env);
    EvaluatingState(init, env);
    LoopDecides(s, env);
    var oe := Engine.Run(Graph(env), To(EvaluateCriteria), s);
    FinishedIgnoresTrace(s, oe, Prelude(init) + oe.trace, env);
  }

  /** Every criterion used gets exactly one decision, tagged with that criterion. */
  lemma ScreeningTagsEveryCriterion(init: State, env: Env)
    requires init.decisions == []
    requires Engine.Run(Graph(env), To(Entry), init).error.None?
    ensures var v := Engine.Run(Graph(env), To(Entry), init).values;
      && v.criteria.Some?
      && |v.decisions| == |v.criteria.value| > 0
      && forall i :: 0 <= i < |v.decisions| ==> v.decisions[i].criterion == Some(v.criteria.value[i])
  {
    ScreeningVisits(init, env);
    ScreeningDecides(init, env);
  }

  /** The failure the graph does not guard against: when no criteria are given and the model
      generates an empty list, generate_criteria still hands over to evaluate_criteria, whose
      read of criteria[0] is out of range. */
  lemma EmptyGeneratedListFails(init: State, env: Env)
    requires init.decisions == []
    requires ShouldGenerateCriteria(init) == "criteria"
    requires env.readResume(init.pathToResume).Some?
    requires env.extractList(CriteriaReply(Parsed(init, env), env)) == Found([])
    ensures var o := Engine.Run(Graph(env), To(Entry), init);
      && o.error == Some(NodeError("evaluate_criteria", IndexOutOfRange(0, 0)))
      && o.next == To(EvaluateCriteria)
      && o.trace == [Parse, GenerateCriteria]
  {
    var parsed := Parsed(init, env);
    ParseReads(init, env);
    ParseRoutesTo(parsed);
    Step(env, Parse, init, parsed, To(GenerateCriteria));
    GeneratedListStoredAsIs(parsed, env);
    var s := parsed.(criteria := Some([]));
    Step(env, GenerateCriteria, parsed, s, To(EvaluateCriteria));
    Engine.RunFails(Graph(env), EvaluateCriteria, s, IndexOutOfRange(0, 0));
  }

  /** When no criteria are given and the helper returns None for the generated list,
      generate_criteria stores None and evaluate_criteria's read of criteria[0] fails. */
  lemma MissingGeneratedListFails(init: State, env: Env)
    requires ShouldGenerateCriteria(init) == "criteria"
    requires env.readResume(init.pathToResume).Some?
    requires env.extractList(CriteriaReply(Parsed(init, env), env)).NoValue?
    ensures var o := Engine.Run(Graph(env), To(Entry), init);
      && o.error == Some(NodeError("evaluate_criteria", NoneValue))
      && o.next == To(EvaluateCriteria)
      && o.trace == [Parse, GenerateCriteria]
  {
    var parsed := Parsed(init, env);
    ParseReads(init, env);
    ParseRoutesTo(parsed);
    Step(env, Parse, init, parsed, To(GenerateCriteria));
    GeneratedListStoredAsIs(parsed, env);
    var s := parsed.(criteria := None);
    Step(env, GenerateCriteria, parsed, s, To(EvaluateCriteria));
    MissingListFailsNext(s, env);
  }

  /** One node run as the source runs it: overall_decision's tagging goes through the
      in-place loop TagDecisions. */
  method ExecuteNode(n: Node, s: State, env: Env) returns (x: Result<State, Cause>)
    ensures x == Execute(n, s, env)
  {
    if n == OverallDecision {
      var tagged, failed := TagDecisions(s.decisions, s.criteria);
      if failed.Some? {
        return Failure(failed.value);
      }
      var t := s.(decisions := tagged);
      var d := OverallDecisionDelta(t, env);
      x := if d.Success? then Success(Apply(t, d.value)) else Failure(d.error);
    } else {
      x := Execute(n, s, env);
    }
  }

  /** The graph's invoke: runs from parse to END and returns the final state, or the error of
      the node that failed, with the nodes that completed. */
  method Invoke(pathToResume: string, jobDescription: string, criteria: Option<seq<string>>,
                numAutoGeneratedCriteria: Option<int>, env: Env)
    returns (r: Result<State, NodeError>, visited: seq<Node>)
    ensures var o := Engine.Run(Graph(env), To(Entry), Initial(pathToResume, jobDescription, criteria, numAutoGeneratedCriteria));
      && visited == o.trace
      && (r.Success? <==> o.error.None?)
      && (r.Success? ==> r.value == o.values && o.next == End)
      && (r.Failure? ==> o.error == Some(r.error))
    ensures r.Success? ==>
      && r.value.criteria.Some?
      && |r.value.decisions| == |r.value.criteria.value| > 0
      && forall i :: 0 <= i < |r.value.decisions| ==> r.value.decisions[i].criterion == Some(r.value.criteria.value[i])
  {
    var init := Initial(pathToResume, jobDescription, criteria, numAutoGeneratedCriteria);
    var o := Engine.Invoke(Graph(env), To(Entry), init);
    visited := o.trace;
    if o.error.Some? {
      r := Failure(o.error.value);
    } else {
      ScreeningTagsEveryCriterion(init, env);
      ScreeningDecides(init, env);
      r := Success(o.values);
    }
  }
}
