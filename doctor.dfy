/** The resume doctor graph: generate_persona, update_resume, generate_interview_questions,
    then END, each node writing one field. It has no router, no checkpointer and no pause. */
module ResumeDoctor {
  import opened Wrappers
  import opened Json
  import opened Engine

  datatype Node = GeneratePersona | UpdateResume | GenerateInterviewQuestions

  function Name(n: Node): string {
    match n
    case GeneratePersona => "generate_persona"
    case UpdateResume => "update_resume"
    case GenerateInterviewQuestions => "generate_interview_questions"
  }

  /** ResumeDoctorState; every field is replaced when written. None stands for a field not
      yet written, or written with None. */
  datatype State = State(
    ageCategory: string,
    resume: string,
    jobDescription: string,
    persona: Option<string>,
    updatedResume: Option<string>,
    interviewQuestions: Option<Json>)

  function Initial(ageCategory: string, resume: string, jobDescription: string): State {
    State(ageCategory, resume, jobDescription, None, None, None)
  }

  /** What the doctor asks the model, reduced to the values that vary; each prompt starts
      with the system prompt built from the job description and the resume. */
  datatype Prompt =
    | PersonaPrompt(resume: string, jobDescription: string, ageCategory: string)
    | RewritePrompt(resume: string, jobDescription: string, persona: Option<string>)
    | QuestionsPrompt(resume: string, jobDescription: string, persona: Option<string>)

  /** The language model and the JSON object extraction helper, which may raise, return None,
      or return the object it parsed. */
  datatype Env = Env(llm: Prompt -> string, extractObject: string -> Extracted<map<string, Json>>)

  function Execute(n: Node, s: State, env: Env): Result<State, Cause> {
    match n
    case GeneratePersona =>
      Success(s.(persona := Some(env.llm(PersonaPrompt(s.resume, s.jobDescription, s.ageCategory)))))
    case UpdateResume =>
      Success(s.(updatedResume := Some(env.llm(RewritePrompt(s.resume, s.jobDescription, s.persona)))))
    case GenerateInterviewQuestions =>
      match env.extractObject(env.llm(QuestionsPrompt(s.resume, s.jobDescription, s.persona)))
      case Raised => Failure(ExtractionFailed)
      case NoValue => Success(s.(interviewQuestions := None))
      case Found(questions) => Success(s.(interviewQuestions := Some(JObject(questions))))
  }

  const Entry: Node := GeneratePersona

  const FixedEdges: set<(Node, Target<Node>)> :=
    {(GeneratePersona, To(UpdateResume)), (UpdateResume, To(GenerateInterviewQuestions)), (GenerateInterviewQuestions, End)}

  function Next(n: Node, s: State): Result<Target<Node>, Cause> {
    match n
    case GeneratePersona => Success(To(UpdateResume))
    case UpdateResume => Success(To(GenerateInterviewQuestions))
    case GenerateInterviewQuestions => Success(End)
  }

  function Rank(t: Target<Node>): nat {
    match t
    case To(GeneratePersona) => 3
    case To(UpdateResume) => 2
    case To(GenerateInterviewQuestions) => 1
    case End => 0
  }

  function Graph(env: Env): (w: Engine.Workflow<Node, State>)
    ensures Terminating(w)
  {
    Engine.Workflow(Name, (n, s) => Execute(n, s, env), Next, {}, Rank, _ => 0)
  }

  // ---- properties ----

  /** Every node follows exactly its add_edge edge. */
  lemma FixedEdgesFollowed(n: Node, s: State, t: Target<Node>)
    ensures Next(n, s) == Success(t) <==> (n, t) in FixedEdges
  {
  }

  /** Each node writes its own field and no other: generate_persona the persona,
      update_resume the updated resume (never the original), generate_interview_questions what
      the helper returns (the questions, or None), failing exactly when the helper raises. */
  lemma OneFieldPerNode(n: Node, s: State, env: Env)
    ensures var r := Execute(n, s, env);
      var e := env.extractObject(env.llm(QuestionsPrompt(s.resume, s.jobDescription, s.persona)));
      && (r.Failure? <==> n == GenerateInterviewQuestions && e.Raised?)
      && (r.Failure? ==> r.error == ExtractionFailed)
      && (r.Success? ==> match n
            case GeneratePersona => r.value == s.(persona := r.value.persona) && r.value.persona.Some?
            case UpdateResume => r.value == s.(updatedResume := r.value.updatedResume) && r.value.updatedResume.Some?
            case GenerateInterviewQuestions =>
              r.value == s.(interviewQuestions := r.value.interviewQuestions)
              && r.value.interviewQuestions == if e.Found? then Some(JObject(e.value)) else None)
  {
  }

  /** The inputs age_category, resume and job_description are the same after any run. */
  lemma InputsNeverWritten(at: Target<Node>, s: State, env: Env)
    ensures var v := Engine.Run(Graph(env), at, s).values;
      v.ageCategory == s.ageCategory && v.resume == s.resume && v.jobDescription == s.jobDescription
  {
    var keeps := (x: State, y: State) =>
      x.ageCategory == y.ageCategory && x.resume == y.resume && x.jobDescription == y.jobDescription;
    forall n, x | Execute(n, x, env).Success?
      ensures keeps(x, Execute(n, x, env).value)
    {
      OneFieldPerNode(n, x, env);
    }
    RunKeeps(Graph(env), at, s, keeps);
  }

  /** One invoke runs the three nodes once each, in order; the rewrite and the questions are
      asked for with the persona just generated. When the helper returns the questions or
      None, the run ends at END with that value stored; when it raises, the run stops at
      generate_interview_questions with persona and updated resume already written. */
  lemma PipelineRunsInOrder(ageCategory: string, resume: string, jobDescription: string, env: Env)
    ensures var init := Initial(ageCategory, resume, jobDescription);
      var persona := Some(env.llm(PersonaPrompt(resume, jobDescription, ageCategory)));
      var updated := Some(env.llm(RewritePrompt(resume, jobDescription, persona)));
      var questions := env.extractObject(env.llm(QuestionsPrompt(resume, jobDescription, persona)));
      var written := init.(persona := persona, updatedResume := updated);
      var o := Engine.Run(Graph(env), To(Entry), init);
      match questions
      case Found(q) =>
        o == Outcome(written.(interviewQuestions := Some(JObject(q))), End, None,
                     [GeneratePersona, UpdateResume, GenerateInterviewQuestions])
      case NoValue =>
        o == Outcome(written, End, None, [GeneratePersona, UpdateResume, GenerateInterviewQuestions])
      case Raised =>
        o == Outcome(written, To(GenerateInterviewQuestions),
                     Some(NodeError("generate_interview_questions", ExtractionFailed)),
                     [GeneratePersona, UpdateResume])
  {
    var w := Graph(env);
    var init := Initial(ageCategory, resume, jobDescription);
    var persona := Some(env.llm(PersonaPrompt(resume, jobDescription, ageCategory)));
    var s1 := init.(persona := persona);
    var s2 := s1.(updatedResume := Some(env.llm(RewritePrompt(resume, jobDescription, persona))));
    var questions := env.extractObject(env.llm(QuestionsPrompt(resume, jobDescription, persona)));
    var o3 := Engine.Run(w, To(GenerateInterviewQuestions), s2);
    if questions.Raised? {
      Engine.RunFails(w, GenerateInterviewQuestions, s2, ExtractionFailed);
    } else {
      var s3 := s2.(interviewQuestions := if questions.Found? then Some(JObject(questions.value)) else None);
      assert Execute(GenerateInterviewQuestions, s2, env) == Success(s3);
      Engine.RunStep(w, GenerateInterviewQuestions, s2, s3, End);
      assert [GenerateInterviewQuestions] + [] == [GenerateInterviewQuestions];
      assert o3 == Outcome(s3, End, None, [GenerateInterviewQuestions]);
    }
    Engine.RunStep(w, UpdateResume, s1, s2, To(GenerateInterviewQuestions));
    Engine.RunStep(w, GeneratePersona, init, s1, To(UpdateResume));
  }
}
