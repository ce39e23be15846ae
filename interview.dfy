/** The interview simulator graph: introduction, then ask_question, then either
    pre_review_answer, review_answer and back to ask_question, or wrap_up and END. The graph is
    checkpointed and pauses after introduction and after every ask_question; the tab resumes it
    by adding the candidate's reply as if ask_question had written it, then invoking with no
    input. */
module InterviewSimulator {
  import opened Wrappers
  import opened Json
  import opened Text
  import opened Engine
  import opened Chat

  datatype Node = Introduction | AskQuestion | ReviewAnswer | PreReviewAnswer | WrapUp

  function Name(n: Node): string {
    match n
    case Introduction => "introduction"
    case AskQuestion => "ask_question"
    case ReviewAnswer => "review_answer"
    case PreReviewAnswer => "pre_review_answer"
    case WrapUp => "wrap_up"
  }

  /** The fields the tab's first invoke supplies and no node writes. */
  datatype Context = Context(resume: string, persona: string, jobDescription: string, interviewQuestions: Json)

  /** InterviewSimulatorState. messages is declared with operator.add; last_question and ended
      are replaced when written. */
  datatype State = State(context: Context, messages: seq<Message>, lastQuestion: Option<string>, ended: Option<bool>)

  function Initial(context: Context): State {
    State(context, [], None, None)
  }

  /** The values the system prompt is built from: the job description, the resume and the
      persona. */
  datatype SystemPrompt = SystemPrompt(jobDescription: string, resume: string, persona: string)

  function System(c: Context): SystemPrompt {
    SystemPrompt(c.jobDescription, c.resume, c.persona)
  }

  /** What the interviewer is asked, reduced to the values that vary. Each prompt starts with
      the system prompt; all but the introduction then carry the whole conversation so far.
      Only ask_question's prompt carries the interview questions. */
  datatype Prompt =
    | IntroductionPrompt(system: SystemPrompt)
    | AskPrompt(system: SystemPrompt, history: seq<Message>, questions: Json)
    | ReviewPrompt(system: SystemPrompt, history: seq<Message>, question: Option<string>, answer: string)
    | WrapUpPrompt(system: SystemPrompt, history: seq<Message>)

  // ---- nodes ----

  /** A node run and its delta merged: messages appended, last_question and ended replaced. */
  function Execute(n: Node, s: State, llm: Prompt -> string): Result<State, Cause> {
    match n
    case Introduction =>
      var reply := llm(IntroductionPrompt(System(s.context)));
      Success(s.(messages := s.messages + [Message(AI, reply)]))
    case AskQuestion =>
      var reply := llm(AskPrompt(System(s.context), s.messages, s.context.interviewQuestions));
      Success(s.(messages := s.messages + [Message(AI, reply)], lastQuestion := Some(reply)))
    case PreReviewAnswer =>
      Success(s)
    case ReviewAnswer =>
      var answer :- Last(s.messages);
      var reply := llm(ReviewPrompt(System(s.context), s.messages, s.lastQuestion, answer.content));
      Success(s.(messages := s.messages + [Message(AI, reply)]))
    case WrapUp =>
      var reply := llm(WrapUpPrompt(System(s.context), s.messages));
      Success(s.(messages := s.messages + [Message(AI, reply)], ended := Some(true)))
  }

  // ---- edges ----

  /** should_end_or_review: "wrap_up" when the last message, upper-cased, is "DONE". */
  function ShouldEndOrReview(s: State): Result<string, Cause> {
    var last :- Last(s.messages);
    if Upper(last.content) == "DONE" then Success("wrap_up") else Success("pre_review_answer")
  }

  /** The router is registered without a mapping, so its outcome names the node to go to. */
  const NodeNames: map<string, Target<Node>> := map[
    "introduction" := To(Introduction), "ask_question" := To(AskQuestion),
    "review_answer" := To(ReviewAnswer), "pre_review_answer" := To(PreReviewAnswer),
    "wrap_up" := To(WrapUp), EndName := End]

  /** The add_edge calls; the edge from introduction is added twice, which is one edge. */
  const FixedEdges: set<(Node, Target<Node>)> := {
    (Introduction, To(AskQuestion)), (Introduction, To(AskQuestion)),
    (PreReviewAnswer, To(ReviewAnswer)), (ReviewAnswer, To(AskQuestion)), (WrapUp, End)}

  const Entry: Node := Introduction

  const InterruptAfter: set<Node> := {Introduction, AskQuestion}

  function Next(n: Node, s: State): Result<Target<Node>, Cause> {
    match n
    case Introduction => Success(To(AskQuestion))
    case AskQuestion =>
      var outcome :- ShouldEndOrReview(s);
      Resolve(NodeNames, outcome)
    case PreReviewAnswer => Success(To(ReviewAnswer))
    case ReviewAnswer => Success(To(AskQuestion))
    case WrapUp => Success(End)
  }

  function Rank(t: Target<Node>): nat {
    match t
    case To(PreReviewAnswer) => 3
    case To(ReviewAnswer) => 2
    case To(_) => 1
    case End => 0
  }

  function Graph(llm: Prompt -> string): (w: Engine.Workflow<Node, State>)
    ensures Terminating(w)
  {
    Engine.Workflow(Name, (n, s) => Execute(n, s, llm), Next, InterruptAfter, Rank, _ => 0)
  }

  // ---- the checkpointed thread ----

  /** One conversation's checkpoint: the state values and the node the next invoke starts at. */
  class Thread {
    const context: Context
    var messages: seq<Message>
    var lastQuestion: Option<string>
    var ended: Option<bool>
    var next: Target<Node>

    function Values(): State
      reads this
    {
      State(context, messages, lastQuestion, ended)
    }

    /** A thread holding the tab's input, ready to start at the entry node. */
    constructor(context: Context)
      ensures Values() == Initial(context) && next == To(Entry)
    {
      this.context := context;
      messages := [];
      lastQuestion := None;
      ended := None;
      next := To(Entry);
    }

    /** invoke: runs from the checkpoint until a pause, END or a failure; on a failure the
        checkpoint stays at the last state reached before the failing node. */
    method Invoke(llm: Prompt -> string) returns (error: Option<NodeError>)
      modifies this
      ensures var o := Engine.Run(Graph(llm), old(next), old(Values()));
        Values() == o.values && next == o.next && error == o.error
    {
      var o := Engine.Invoke(Graph(llm), next, Values());
      MessagesOnlyGrow(next, Values(), llm);
      messages, lastQuestion, ended, next := o.values.messages, o.values.lastQuestion, o.values.ended, o.next;
      error := o.error;
    }

    /** update_state with the candidate's reply as ask_question: the reply is appended and
        ask_question's router is evaluated again on the new state to set the next node. */
    method UpdateAsAskQuestion(answer: string)
      modifies this
      ensures messages == old(messages) + [Message(Human, answer)]
      ensures lastQuestion == old(lastQuestion) && ended == old(ended)
      ensures Next(AskQuestion, Values()) == Success(next)
      ensures next == if SpellsDone(answer) then To(WrapUp) else To(PreReviewAnswer)
    {
      messages := messages + [Message(Human, answer)];
      UpperIsDone(answer);
      next := if Upper(answer) == "DONE" then To(WrapUp) else To(PreReviewAnswer);
    }
  }

  // ---- properties ----

  /** The router chooses wrap_up exactly when the last message spells "done" in any mix of
      cases, and fails only on an empty conversation; there is no trimming. */
  lemma RouterEndsOnDone(s: State)
    ensures ShouldEndOrReview(s).Failure? <==> s.messages == []
    ensures ShouldEndOrReview(s) == Success("wrap_up")
      <==> s.messages != [] && SpellsDone(s.messages[|s.messages| - 1].content)
    ensures ShouldEndOrReview(s).Success? ==> ShouldEndOrReview(s).value in NodeNames
  {
    if s.messages != [] {
      UpperIsDone(s.messages[|s.messages| - 1].content);
    }
  }

  /** A reply of " done" (with a leading space) is reviewed, not taken as the end. */
  lemma PaddedDoneIsReviewed(s: State)
    requires s.messages != [] && s.messages[|s.messages| - 1].content == " done"
    ensures Next(AskQuestion, s) == Success(To(PreReviewAnswer))
  {
    RouterEndsOnDone(s);
  }

  /** The nodes without a router follow exactly their add_edge edges. */
  lemma FixedEdgesFollowed(n: Node, s: State, t: Target<Node>)
    requires n != AskQuestion
    ensures Next(n, s) == Success(t) <==> (n, t) in FixedEdges
  {
  }

  /** Every node appends to messages and never drops or rewrites earlier ones: one new AI
      message for every node but pre_review_answer, which changes nothing. Only wrap_up
      writes ended, only ask_question writes last_question, and no node changes the context. */
  lemma ExecuteAppends(n: Node, s: State, llm: Prompt -> string)
    ensures var r := Execute(n, s, llm);
      r.Success? ==>
        && r.value.context == s.context
        && (n == PreReviewAnswer ==> r.value == s)
        && (n != PreReviewAnswer ==>
              |r.value.messages| == |s.messages| + 1
              && r.value.messages[..|s.messages|] == s.messages
              && r.value.messages[|s.messages|].role == AI)
        && (n != WrapUp ==> r.value.ended == s.ended)
        && (n == WrapUp ==> r.value.ended == Some(true))
        && (n != AskQuestion ==> r.value.lastQuestion == s.lastQuestion)
        && (n == AskQuestion ==> r.value.lastQuestion == Some(r.value.messages[|s.messages|].content))
    ensures Execute(n, s, llm).Failure? <==> n == ReviewAnswer && s.messages == []
  {
  }

  /** Over any number of invokes, messages only grows: the conversation before a run is a
      prefix of the conversation after it. */
  lemma MessagesOnlyGrow(at: Target<Node>, s: State, llm: Prompt -> string)
    ensures s.messages <= Engine.Run(Graph(llm), at, s).values.messages
    ensures s.context == Engine.Run(Graph(llm), at, s).values.context
  {
    var keeps := (x: State, y: State) => x.messages <= y.messages && x.context == y.context;
    forall n, x | Execute(n, x, llm).Success?
      ensures keeps(x, Execute(n, x, llm).value)
    {
      ExecuteAppends(n, x, llm);
    }
    RunKeeps(Graph(llm), at, s, keeps);
  }

  /** The first invoke runs introduction alone, adding its one AI message, and pauses with
      ask_question next. */
  lemma IntroductionPauses(context: Context, llm: Prompt -> string)
    ensures Engine.Run(Graph(llm), To(Entry), Initial(context))
      == Outcome(Initial(context).(messages := [Message(AI, llm(IntroductionPrompt(System(context))))]),
                 To(AskQuestion), None, [Introduction])
  {
    var m := Message(AI, llm(IntroductionPrompt(System(context))));
    assert Initial(context).messages + [m] == [m];
  }

  /** An answer that is not "done", resumed at pre_review_answer: the answer is reviewed
      against last_question, a new question is asked and stored as last_question, and the
      run pauses after ask_question with the router's choice for the question as next node. */
  lemma ReviewCycle(s: State, llm: Prompt -> string)
    requires s.messages != []
    ensures var o := Engine.Run(Graph(llm), To(PreReviewAnswer), s);
      var review := llm(ReviewPrompt(System(s.context), s.messages, s.lastQuestion, s.messages[|s.messages| - 1].content));
      var history := s.messages + [Message(AI, review)];
      var question := llm(AskPrompt(System(s.context), history, s.context.interviewQuestions));
      && o.error == None
      && o.trace == [PreReviewAnswer, ReviewAnswer, AskQuestion]
      && o.values == s.(messages := history + [Message(AI, question)], lastQuestion := Some(question))
      && o.next == if SpellsDone(question) then To(WrapUp) else To(PreReviewAnswer)
  {
    var review := llm(ReviewPrompt(System(s.context), s.messages, s.lastQuestion, s.messages[|s.messages| - 1].content));
    var history := s.messages + [Message(AI, review)];
    var question := llm(AskPrompt(System(s.context), history, s.context.interviewQuestions));
    var w := Graph(llm);
    var s2 := s.(messages := history);
    assert Execute(ReviewAnswer, s, llm) == Success(s2);
    var s3 := s.(messages := history + [Message(AI, question)], lastQuestion := Some(question));
    assert Execute(AskQuestion, s2, llm) == Success(s3);
    RouterEndsOnDone(s3);
    var t := if SpellsDone(question) then To(WrapUp) else To(PreReviewAnswer);
    assert Next(AskQuestion, s3) == Success(t);
    assert Engine.Run(w, To(AskQuestion), s2) == Outcome(s3, t, None, [AskQuestion]);
    assert Engine.Run(w, To(ReviewAnswer), s) == Outcome(s3, t, None, [ReviewAnswer, AskQuestion]);
  }

  /** A "done" answer, resumed at wrap_up: one closing AI message, ended set, and END. */
  lemma WrapUpEnds(s: State, llm: Prompt -> string)
    ensures Engine.Run(Graph(llm), To(WrapUp), s)
      == Outcome(s.(messages := s.messages + [Message(AI, llm(WrapUpPrompt(System(s.context), s.messages)))], ended := Some(true)),
                 End, None, [WrapUp])
  {
  }

  /** The first reply to the introduction is routed by ask_question's router, although
      ask_question has not run: unless it is "done" it is reviewed at once, with no question
      on record (last_question is still None). */
  lemma FirstReplyReviewedWithoutQuestion(context: Context, answer: string, llm: Prompt -> string)
    requires !SpellsDone(answer)
    ensures var paused := Engine.Run(Graph(llm), To(Entry), Initial(context)).values;
      var s := paused.(messages := paused.messages + [Message(Human, answer)]);
      && s.lastQuestion == None
      && Next(AskQuestion, s) == Success(To(PreReviewAnswer))
      && |Engine.Run(Graph(llm), To(PreReviewAnswer), s).values.messages| == 4
      && Engine.Run(Graph(llm), To(PreReviewAnswer), s).values.messages[2]
           == Message(AI, llm(ReviewPrompt(System(context), s.messages, None, answer)))
  {
    IntroductionPauses(context, llm);
    var paused := Engine.Run(Graph(llm), To(Entry), Initial(context)).values;
    var s := paused.(messages := paused.messages + [Message(Human, answer)]);
    RouterEndsOnDone(s);
    ReviewCycle(s, llm);
  }
}
