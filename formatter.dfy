/** The resume formatter graph: format_resume, a pause, then the no-op check_user_input gate,
    whose router either loops back to format_resume or is meant to end the chat. The tab
    resumes it by adding the user's message to the checkpoint and invoking with no input. */
module ResumeFormatter {
  import opened Wrappers
  import opened Text
  import opened Engine
  import opened Chat

  datatype Node = FormatResume | CheckUserInput

  function Name(n: Node): string {
    match n
    case FormatResume => "format_resume"
    case CheckUserInput => "check_user_input"
  }

  /** The fields the tab's invoke supplies and no node writes. */
  datatype Context = Context(formatStyle: string, resume: string, jobDescription: string)

  /** ResumeFormatterState; messages is declared with operator.add. */
  datatype State = State(context: Context, messages: seq<Message>)

  function Initial(context: Context): State {
    State(context, [])
  }

  /** Stand-ins for the two fixed style instructions; their wording is not modelled, only
      that they differ. */
  const ContractStylePrompt: string := "contract style instructions"
  const ChronologicalStylePrompt: string := "chronological style instructions"

  /** The style instruction of the first turn: the contract one exactly when format_style is
      "contract", the chronological one for any other value. */
  function StylePrompt(style: string): (p: string)
    ensures p == ContractStylePrompt <==> style == "contract"
    ensures p == ChronologicalStylePrompt <==> style != "contract"
  {
    if style == "contract" then ContractStylePrompt else ChronologicalStylePrompt
  }

  /** What the formatter asks the model: the system prompt built from the resume and job
      description, then the conversation it is given. */
  datatype Prompt = FormatPrompt(resume: string, jobDescription: string, conversation: seq<Message>)

  /** The messages format_resume contributes: on the first turn (no messages yet) the style
      instruction and the reply to it, afterwards only the reply to the whole conversation. */
  function FormatResumeDelta(s: State, llm: Prompt -> string): seq<Message> {
    var first := if |s.messages| > 0 then [] else [Message(Human, StylePrompt(s.context.formatStyle))];
    var reply := llm(FormatPrompt(s.context.resume, s.context.jobDescription, s.messages + first));
    first + [Message(AI, reply)]
  }

  function Execute(n: Node, s: State, llm: Prompt -> string): Result<State, Cause> {
    match n
    case FormatResume => Success(s.(messages := s.messages + FormatResumeDelta(s, llm)))
    case CheckUserInput => Success(s)
  }

  /** should_format_resume: the literal string "END" when the last message, lower-cased and
      stripped, is "done"; "format_resume" otherwise. */
  function ShouldFormatResume(s: State): Result<string, Cause> {
    var last :- Last(s.messages);
    if Strip(Lower(last.content)) == "done" then Success("END") else Success("format_resume")
  }

  /** The router's mapping: its keys are LangGraph's END constant and "format_resume". */
  const Routes: map<string, Target<Node>> := map[EndName := End, "format_resume" := To(FormatResume)]

  const Entry: Node := FormatResume

  const InterruptAfter: set<Node> := {FormatResume}

  function Next(n: Node, s: State): Result<Target<Node>, Cause> {
    match n
    case FormatResume => Success(To(CheckUserInput))
    case CheckUserInput =>
      var outcome :- ShouldFormatResume(s);
      Resolve(Routes, outcome)
  }

  function Rank(t: Target<Node>): nat {
    match t
    case To(CheckUserInput) => 2
    case To(FormatResume) => 1
    case End => 0
  }

  function Graph(llm: Prompt -> string): (w: Engine.Workflow<Node, State>)
    ensures Terminating(w)
  {
    Engine.Workflow(Name, (n, s) => Execute(n, s, llm), Next, InterruptAfter, Rank, _ => 0)
  }

  /** One chat's checkpoint: the state values and the node the next invoke starts at. */
  class Thread {
    var context: Context
    var messages: seq<Message>
    var next: Target<Node>

    function Values(): State
      reads this
    {
      State(context, messages)
    }

    /** A thread holding the tab's input, ready to start at the entry node. */
    constructor(context: Context)
      ensures Values() == Initial(context) && next == To(Entry)
    {
      this.context := context;
      messages := [];
      next := To(Entry);
    }

    /** invoke: runs from the checkpoint until a pause, END or a failure; on a failure the
        checkpoint stays at the last state reached before the failing node. */
    method Invoke(llm: Prompt -> string) returns (error: Option<NodeError>)
      modifies this
      ensures var o := Engine.Run(Graph(llm), old(next), old(Values()));
        Values() == o.values && next == o.next && error == o.error
    {
      var o := Engine.Invoke(Graph(llm), next, Values());
      MessagesOnlyGrow(next, Values(), llm);
      messages, next := o.values.messages, o.next;
      error := o.error;
    }

    /** invoke with the tab's input on a thread that may already hold a checkpoint: a new run
        from the entry node, with resume, job description and style replaced and the
        transcript kept, since the input has no messages. */
    method Start(context: Context, llm: Prompt -> string) returns (error: Option<NodeError>)
      modifies this
      ensures var o := Engine.Run(Graph(llm), To(Entry), State(context, old(messages)));
        Values() == o.values && next == o.next && error == o.error
    {
      this.context := context;
      next := To(Entry);
      error := Invoke(llm);
    }

    /** update_state with the user's message and no as_node: the update counts as written by
        format_resume, the last node to run, so the next invoke starts at check_user_input. */
    method UpdateState(input: string)
      modifies this
      ensures Values() == old(Values()).(messages := old(messages) + [Message(Human, input)])
      ensures Next(FormatResume, Values()) == Success(next)
    {
      messages := messages + [Message(Human, input)];
      next := To(CheckUserInput);
    }
  }

  // ---- properties ----

  /** format_resume on the first turn adds the style instruction and the model's reply to it;
      on every later turn it adds exactly one message, the reply to the whole conversation.
      Earlier messages are kept as they were. */
  lemma FormatResumeAppends(s: State, llm: Prompt -> string)
    ensures var r := Execute(FormatResume, s, llm).value; var c := s.context;
      && r.context == c
      && (s.messages == [] ==>
            var style := Message(Human, StylePrompt(c.formatStyle));
            r.messages == [style, Message(AI, llm(FormatPrompt(c.resume, c.jobDescription, [style])))])
      && (s.messages != [] ==>
            r.messages == s.messages + [Message(AI, llm(FormatPrompt(c.resume, c.jobDescription, s.messages)))])
  {
    if s.messages == [] {
      var style := Message(Human, StylePrompt(s.context.formatStyle));
      assert s.messages + [style] == [style];
    } else {
      assert s.messages + [] == s.messages;
    }
  }

  /** check_user_input changes nothing. */
  lemma GateIsNoOp(s: State, llm: Prompt -> string)
    ensures Execute(CheckUserInput, s, llm) == Success(s)
  {
  }

  /** The router says "END" exactly when the last message is "done" in any mix of cases with
      any surrounding whitespace, and fails only on an empty conversation. */
  lemma RouterSaysEndOnDone(s: State)
    ensures ShouldFormatResume(s).Failure? <==> s.messages == []
    ensures ShouldFormatResume(s) == Success("END")
      <==> s.messages != [] && SpellsDone(Strip(s.messages[|s.messages| - 1].content))
    ensures ShouldFormatResume(s).Success? && ShouldFormatResume(s) != Success("END")
      ==> ShouldFormatResume(s) == Success("format_resume")
  {
    if s.messages != [] {
      var c := s.messages[|s.messages| - 1].content;
      StripLower(c);
      LowerIsDone(Strip(c));
    }
  }

  /** The mapping's keys are END's own name and "format_resume", not the string "END". */
  lemma EndIsNotAKey()
    ensures "END" !in Routes && EndName in Routes
  {
    assert "END"[0] != EndName[0] && "END"[0] != "format_resume"[0];
    assert Routes.Keys == {EndName, "format_resume"};
  }

  /** The router's "END" is not a key of its mapping, whose end key is END's own name: the
      done path leads nowhere, and resuming after "done" fails at check_user_input, leaving
      the checkpoint where it was. */
  lemma DoneHasNoRoute(s: State, llm: Prompt -> string)
    requires s.messages != [] && SpellsDone(Strip(s.messages[|s.messages| - 1].content))
    ensures "END" !in Routes && EndName in Routes
    ensures Next(CheckUserInput, s) == Failure(UnmappedOutcome("END"))
    ensures Engine.Run(Graph(llm), To(CheckUserInput), s)
      == Outcome(s, To(CheckUserInput), Some(NodeError("check_user_input", UnmappedOutcome("END"))), [])
  {
    EndIsNotAKey();
    RouterSaysEndOnDone(s);
    assert ShouldFormatResume(s) == Success("END");
    assert Next(CheckUserInput, s) == Failure(UnmappedOutcome("END"));
  }

  /** Any reply but "done" routes check_user_input back to format_resume. */
  lemma OtherReplyRoutesBack(s: State)
    requires s.messages != [] && !SpellsDone(Strip(s.messages[|s.messages| - 1].content))
    ensures Next(CheckUserInput, s) == Success(To(FormatResume))
  {
    RouterSaysEndOnDone(s);
  }

  /** Any other reply loops: check_user_input, then format_resume adds exactly one reply to
      the whole conversation, and the run pauses with check_user_input next. */
  lemma OtherReplyLoops(s: State, llm: Prompt -> string)
    requires s.messages != [] && !SpellsDone(Strip(s.messages[|s.messages| - 1].content))
    ensures var c := s.context;
      var reply := Message(AI, llm(FormatPrompt(c.resume, c.jobDescription, s.messages)));
      Engine.Run(Graph(llm), To(CheckUserInput), s)
        == Outcome(s.(messages := s.messages + [reply]), To(CheckUserInput), None, [CheckUserInput, FormatResume])
  {
    var w := Graph(llm);
    var c := s.context;
    OtherReplyRoutesBack(s);
    Engine.RunStep(w, CheckUserInput, s, s, To(FormatResume));
    FormatResumeAppends(s, llm);
    var s2 := s.(messages := s.messages + [Message(AI, llm(FormatPrompt(c.resume, c.jobDescription, s.messages)))]);
    Engine.RunPause(w, FormatResume, s, s2, To(CheckUserInput));
  }

  /** The first invoke runs format_resume alone and pauses with check_user_input next. */
  lemma FirstTurnPauses(context: Context, llm: Prompt -> string)
    ensures var style := Message(Human, StylePrompt(context.formatStyle));
      var reply := Message(AI, llm(FormatPrompt(context.resume, context.jobDescription, [style])));
      Engine.Run(Graph(llm), To(Entry), Initial(context))
        == Outcome(Initial(context).(messages := [style, reply]), To(CheckUserInput), None, [FormatResume])
  {
    FormatResumeAppends(Initial(context), llm);
  }

  /** Invoking with the tab's input again on a thread that already holds a transcript runs
      format_resume once more: it adds one reply to the transcript as it stands and pauses
      with check_user_input next. */
  lemma RestartAddsReply(context: Context, messages: seq<Message>, llm: Prompt -> string)
    requires messages != []
    ensures var reply := Message(AI, llm(FormatPrompt(context.resume, context.jobDescription, messages)));
      Engine.Run(Graph(llm), To(Entry), State(context, messages))
        == Outcome(State(context, messages + [reply]), To(CheckUserInput), None, [FormatResume])
  {
    FormatResumeAppends(State(context, messages), llm);
  }

  /** Over any number of invokes, messages only grows: the transcript before a run is a
      prefix of the transcript after it. */
  lemma MessagesOnlyGrow(at: Target<Node>, s: State, llm: Prompt -> string)
    ensures s.messages <= Engine.Run(Graph(llm), at, s).values.messages
    ensures s.context == Engine.Run(Graph(llm), at, s).values.context
  {
    var keeps := (x: State, y: State) => x.messages <= y.messages && x.context == y.context;
    forall n, x | Execute(n, x, llm).Success?
      ensures keeps(x, Execute(n, x, llm).value)
    {
    }
    RunKeeps(Graph(llm), at, s, keeps);
  }
}
