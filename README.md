# Resume assistant workflows in Dafny

The resume assistant runs four LangGraph workflows over opaque language-model calls:

- **the screener** parses a resume, generates criteria when none are given, judges the resume
  against one criterion per visit of `evaluate_criteria`, then makes an overall decision;
- **the resume doctor** is a straight pipeline: persona, rewritten resume, then interview
  questions;
- **the formatter** is a checkpointed chat that reformats a resume until the user says "done";
- **the interview simulator** is a checkpointed interview. It introduces itself, then asks,
  reviews and asks again until the candidate answers "done".

The matching tab turns its criteria text box into the screener's criteria list. It also shows
"A match" or "Not a match" for each verdict.

The model has one module per source file, plus shared modules:

- `Engine` holds the part of LangGraph the graphs rely on:
  - a node's delta is merged per field: `operator.add` fields append, all others replace;
  - fixed edges, and routers resolved through their mapping;
  - pausing after the nodes named in `interrupt_after`;
  - a failing node or router stops the run and keeps the last good state.

  `Engine.Run` is the run as a function. `Engine.Invoke` is the executor's `while` loop, proved
  equal to it.
- `Screener`, `ResumeDoctor`, `ResumeFormatter` and `InterviewSimulator` each define their
  state record, their nodes (delta plus merge), their routers and mappings, and their entry
  and interrupt points. They instantiate the engine.
- The two checkpointed graphs have a `Thread` class. Its fields are the checkpoint: the state
  values and the node the next invoke starts at. Its methods are the tab's protocol:
  - `invoke`;
  - `update_state` with the user's message.
- `ResumeMatching` models `get_criteria` and the status choice.
- `Text` models Python's `strip`, `split`, `upper` and `lower`.

The language model is a function from a per-workflow prompt datatype to a string. The prompt
datatype holds the values each prompt is built from. The JSON helpers `extra_json_object` and
`extract_json_list` are function parameters. Each call either raises, returns None, or returns
what it parsed, and each node handles the three as its code does. The PDF reader is a function
parameter that either gives the text or raises.

Where the program's own comments, prompts or evident intent promise more than its code does,
the model follows the code:

- **The formatter never ends on "done".** `should_format_resume` returns the string `"END"`
  on "done" (resume_formatter.py:118-119), evidently meaning to end the chat. But its
  mapping's keys are LangGraph's `END` constant (`"__end__"`) and `"format_resume"`
  (resume_formatter.py:81). The model resolves routers through their mapping, so the done
  path has no destination.
  - `ResumeFormatter.DoneHasNoRoute` proves that resuming after "done" fails at
    `check_user_input`.
  - The checkpoint stays as it was.
- **The generated list is not truncated.** The criteria prompt asks for "not more than
  {num_criteria} criteria" (resume_screener.py:108). The code stores whatever the helper
  returns (resume_screener.py:269-271), a list of any length or None.
- **An empty or missing generated list fails the run.** An empty list makes
  `evaluate_criteria` index out of range (`Screener.EmptyGeneratedListFails`). A None makes
  it index None (`Screener.MissingGeneratedListFails`).
- **Verdicts are not checked.** The `ScreeningDecision` docstring says a decision is either
  "pass" or "fail" (resume_screener.py:20). Nothing in the code checks this. The tab shows
  "Not a match" only for the exact string "fail" (`ResumeMatching.Status`).

## Model

| member | source | states |
|---|---|---|
| Engine.Run | interview_simulator.py:118-122 | A run that fails names the node it failed at, which is also the next node. The state it keeps is the one that node ran on, and on that state the node or its edge fails with the reported cause. A run that ends without error and with a next node has paused after a node named in interrupt_after, and no earlier node of the run is an interrupt point. |
| Engine.Invoke | interview_simulation_tab.py:47-55 | The executor's loop runs one node at a time until END, a pause or a failure. It returns exactly what Run describes: state, next node, error and completed nodes. |
| Engine.RunKeeps | interview_simulator.py:28 | Suppose a reflexive and transitive relation holds between every node's input and output. Then it holds between the state before any run and the state after it. |
| Chat.Last | interview_simulator.py:192 | messages[-1] succeeds exactly on a non-empty list and gives its last element. |
| Text.Strip | resume_matching_tab.py:73 | The result is a slice of the input. Everything outside the slice is whitespace, and the result neither starts nor ends with whitespace. |
| Text.StripEmpty | resume_matching_tab.py:73 | Stripping leaves nothing exactly when the string is all whitespace. |
| Text.Split | resume_matching_tab.py:73 | split gives at least one piece, and no piece holds the separator. |
| Text.JoinSplit | resume_matching_tab.py:73 | Joining the pieces with the separator gives back the input. |
| Text.UpperIsDone | interview_simulator.py:193 | s.upper() == "DONE" holds exactly for the case variants of "done". |
| Text.LowerIsDone | resume_formatter.py:118 | s.lower() == "done" holds exactly for the case variants of "done". |
| Text.StripLower | resume_formatter.py:118 | lower() and strip() commute, so the router's lower().strip() test is "the stripped text spells done". |
| Screener.RequestedCount | resume_screener.py:263 | The count asked for is num_auto_generated_criteria, or 3 when that is None or 0. |
| Screener.TagDecisions | resume_screener.py:176-179 | The in-place loop tags decisions[i] with criteria[i]. On an index error, or when criteria is None, it stops with the earlier records tagged. It fails exactly when Tag does. |
| Screener.ShouldGenerateCriteria | resume_screener.py:216-223 | The result is "criteria" exactly when criteria is absent, None or empty, and "decisions" otherwise. |
| Screener.Graph | resume_screener.py:128-161 | The graph terminates: every step lowers the node rank, or else, on the evaluate_criteria loop, lowers len(criteria) - len(decisions). |
| Screener.RoutesCoverOutcomes | resume_screener.py:141-157 | Every outcome of both routers is a key of its mapping. |
| Screener.ParseRoutesTo | resume_screener.py:141-148 | After parse, the run goes to generate_criteria when no criteria were given, and to evaluate_criteria otherwise. |
| Screener.FixedEdgesFollowed | resume_screener.py:149-159 | generate_criteria and overall_decision follow exactly their add_edge edges. |
| Screener.EvaluateRouterLoops | resume_screener.py:288-291 | The loop router goes back to evaluate_criteria exactly while len(criteria) > len(decisions), and to overall_decision otherwise. |
| Screener.EvaluateAppendsOne | resume_screener.py:307-332 | evaluate_criteria appends exactly the verdict for criteria[len(decisions)] and changes no other field. It fails with an index error when that index is out of range. |
| Screener.ParseReads | resume_screener.py:225-240 | parse stores the text read from the PDF and changes nothing else. It fails exactly when the loader raises. |
| Screener.ReadFailureStops | resume_screener.py:225-240 | When the PDF cannot be read, the run stops at parse with its input unchanged. |
| Screener.GeneratedListStoredAsIs | resume_screener.py:263-271 | generate_criteria stores what the helper returns unchanged: a list, whatever the count asked for, or None. It fails exactly when the helper raises. |
| Screener.OverallTagsAndDecides | resume_screener.py:176-199 | overall_decision tags decisions[i] with criteria[i] and shows the model that tagged list. decision and reason become the reply's "decision" and "reason" entries, and the node succeeds exactly when both can be read. Every other field is unchanged. |
| Screener.OverallPhase | resume_screener.py:159 | Once every criterion has a verdict, overall_decision runs once and the run ends at END with every decision tagged. |
| Screener.EvaluateKeepsJudged | resume_screener.py:307-308 | A successful evaluate_criteria keeps decisions[i] the verdict for criteria[i], with one more decision. |
| Screener.EvaluateOnce | resume_screener.py:150-157 | One loop visit appends a verdict. It hands over to itself while criteria remain, else to overall_decision. |
| Screener.EvaluatePhase | resume_screener.py:150-157 | The loop visits evaluate_criteria once per criterion still open, then overall_decision. It leaves decisions[i] the verdict for criteria[i], tagged with it. |
| Screener.GivenCriteriaEvaluated | resume_screener.py:141-148 | With criteria given, parse hands over to evaluate_criteria. |
| Screener.MissingListFailsNext | resume_screener.py:307-308 | With criteria None, evaluate_criteria fails, keeping the state. |
| Screener.GenerationSucceeds | resume_screener.py:269-271 | Without criteria, a run that does not fail read the PDF, and the helper returned a list, which is stored. |
| Screener.GeneratedCriteriaEvaluated | resume_screener.py:149 | Without criteria, parse and generate_criteria lead to evaluate_criteria. |
| Screener.ReachesEvaluation | resume_screener.py:141-149 | A run that does not fail reaches evaluate_criteria with the criteria used. It gets there after parse and, only when no criteria were given, generate_criteria. |
| Screener.EvaluatingState | resume_screener.py:225-240 | The state evaluate_criteria first sees holds the text read from the PDF, the criteria used, and the decisions of the input (empty as the matching tab invokes it). |
| Screener.LoopVisits | resume_screener.py:150-157 | From empty decisions, evaluate_criteria runs exactly len(criteria) times, at least once, then overall_decision. |
| Screener.LoopDecides | resume_screener.py:307-332 | From empty decisions the loop leaves one tagged verdict per criterion, in order. decision and reason are the model's answer on that tagged list. |
| Screener.ScreeningVisits | resume_screener.py:135-161 | A successful screening visits parse, then generate_criteria only without criteria, then evaluate_criteria once per criterion used, then overall_decision. |
| Screener.ScreeningDecides | resume_screener.py:163-199 | A successful screening returns the text read from the PDF and the criteria used, with path_to_resume, job_description and num_auto_generated_criteria as given. decisions[i] is the verdict for criteria[i], tagged with it. decision and reason are the entries of the model's reply to the tagged list, and END is next. |
| Screener.ScreeningTagsEveryCriterion | resume_screener.py:176-179 | After a successful screening, each criterion has exactly one decision, tagged with it. |
| Screener.EmptyGeneratedListFails | resume_screener.py:308 | An empty generated list reaches evaluate_criteria, whose criteria[0] is out of range. The run stops there after parse and generate_criteria. |
| Screener.MissingGeneratedListFails | resume_screener.py:269-271 | When the helper returns None for the generated list, the run stores it and fails at evaluate_criteria on None, after parse and generate_criteria. |
| Screener.Execute | resume_screener.py:163-332 | The four nodes with their deltas merged. It has no contract of its own; ParseReads, GeneratedListStoredAsIs, EvaluateAppendsOne and OverallTagsAndDecides state its behaviour. |
| Screener.DecisionAndReason | resume_screener.py:195-199 | Reads "decision" and then "reason" from the parsed reply. It has no contract of its own; EvaluateAppendsOne and OverallTagsAndDecides state its use. |
| Screener.Tag | resume_screener.py:176-179 | The effect of the tagging loop. It has no contract of its own; TagDecisions is proved against it and OverallTagsAndDecides states it per index. |
| Screener.ShouldEvaluateCriteria | resume_screener.py:273-291 | The loop router. It has no contract of its own; EvaluateRouterLoops and RoutesCoverOutcomes state its behaviour. |
| Screener.ExecuteNode | resume_screener.py:163-199 | Running a node with overall_decision's in-place tagging loop gives the node's modelled result. |
| Screener.Invoke | resume_matching_tab.py:159-166 | graph.invoke returns the run's final state or the failing node's error. On success, every criterion used has a decision tagged with it, and there is at least one. |
| ResumeMatching.NonBlank | resume_matching_tab.py:73 | The kept strings are non-empty and come from the input. |
| ResumeMatching.Clean | resume_matching_tab.py:73 | No criterion is empty, and none starts or ends with whitespace. |
| ResumeMatching.CleanKeepsOut | resume_matching_tab.py:73 | A character in no piece is in no criterion. |
| ResumeMatching.GetCriteria | resume_matching_tab.py:72-75 | The result is None exactly for an untouched text box. Otherwise no criterion is blank, holds a vertical bar, or starts or ends with whitespace. |
| ResumeMatching.CleanSelects | resume_matching_tab.py:73 | The k-th criterion is the stripped piece at the k-th kept index. |
| ResumeMatching.CleanKeepsOrder | resume_matching_tab.py:73 | Kept indices increase, and a piece is kept exactly when it does not strip to nothing. |
| ResumeMatching.CleanEmpty | resume_matching_tab.py:73 | No criteria come out exactly when every piece is whitespace. |
| ResumeMatching.SplitBlank | resume_matching_tab.py:73 | Every piece is whitespace exactly when the text holds only separators and whitespace. |
| ResumeMatching.BlankInputMeansGenerated | resume_matching_tab.py:72-75 | Suppose the text box holds only vertical bars and whitespace. Then the screener's first router chooses to generate criteria, and for no other text does it do so. |
| ResumeMatching.Status | resume_matching_tab.py:109-112 | "Not a match" exactly when the decision is the string "fail". |
| ResumeMatching.Rows | resume_matching_tab.py:89-95 | One row per decision, in order, with its criterion and reason. A row says "Not a match" exactly when the decision is "fail". |
| InterviewSimulator.Graph | interview_simulator.py:101-122 | Between two pauses every run is finite. |
| InterviewSimulator.Thread.constructor | interview_simulation_tab.py:47-55 | A new thread holds the tab's input and no messages, and starts at introduction. |
| InterviewSimulator.Thread.Invoke | interview_simulation_tab.py:77 | invoke moves the checkpoint to the state and next node the run reaches and reports its error. On a failure, the checkpoint stays at the last good state. |
| InterviewSimulator.Thread.UpdateAsAskQuestion | interview_simulation_tab.py:71-75 | update_state as ask_question appends the reply as a human message and leaves the other fields unchanged. It sets the next node by ask_question's router: wrap_up exactly on "done" in any case, else pre_review_answer. |
| InterviewSimulator.RouterEndsOnDone | interview_simulator.py:192-196 | The router chooses wrap_up exactly when the last message spells "done" in any case, and fails only on no messages. Both outcomes are node names. |
| InterviewSimulator.PaddedDoneIsReviewed | interview_simulator.py:193 | " done" with a leading space is reviewed, not taken as the end. |
| InterviewSimulator.FixedEdgesFollowed | interview_simulator.py:107-114 | Every node but ask_question follows exactly its add_edge edge. The duplicated introduction edge is one edge. |
| InterviewSimulator.ExecuteAppends | interview_simulator.py:154-288 | Every node but pre_review_answer appends one AI message and keeps the earlier ones; pre_review_answer changes nothing. Only ask_question writes last_question, with its own reply, and only wrap_up writes ended, as true. Only review_answer can fail, and only on no messages. |
| InterviewSimulator.Execute | interview_simulator.py:154-288 | The five nodes with their deltas merged. It has no contract of its own; ExecuteAppends states its behaviour. |
| InterviewSimulator.ShouldEndOrReview | interview_simulator.py:176-196 | ask_question's router. It has no contract of its own; RouterEndsOnDone states its behaviour. |
| InterviewSimulator.MessagesOnlyGrow | interview_simulator.py:28 | After any run, the earlier conversation is a prefix of the new one, and the context is unchanged. |
| InterviewSimulator.IntroductionPauses | interview_simulator.py:116-122 | The first invoke runs introduction alone, adds one AI message and pauses with ask_question next. |
| InterviewSimulator.ReviewCycle | interview_simulator.py:198-261 | Resumed at pre_review_answer, the run reviews the last message against last_question, then asks a new question. The question is stored as last_question, and the run pauses with the router's choice next. |
| InterviewSimulator.WrapUpEnds | interview_simulator.py:263-288 | wrap_up adds one closing message, sets ended, and leads to END. |
| InterviewSimulator.FirstReplyReviewedWithoutQuestion | interview_simulation_tab.py:71-77 | The first reply after the introduction is routed by ask_question's router. Unless it is "done", it is reviewed while last_question is still None. |
| ResumeFormatter.StylePrompt | resume_formatter.py:104-107 | The contract prompt is chosen exactly when format_style is "contract". Any other value gets the chronological prompt. |
| ResumeFormatter.Graph | resume_formatter.py:72-87 | Between two pauses every run is finite. |
| ResumeFormatter.Thread.constructor | resume_formatter_tab.py:20-27 | A new thread holds the tab's input and no messages, and starts at format_resume. |
| ResumeFormatter.Thread.Invoke | resume_formatter_tab.py:37 | invoke moves the checkpoint to the state and next node the run reaches and reports its error. On a failure, the checkpoint stays at the last good state. |
| ResumeFormatter.Thread.Start | resume_formatter_tab.py:13-27 | invoke with the tab's input on an existing thread starts a new run at format_resume. Resume, job description and style are replaced and the transcript is kept. The checkpoint and error are those of that run. |
| ResumeFormatter.RestartAddsReply | resume_formatter_tab.py:75-77 | On a thread that already has a transcript, that restart adds one more reply to the transcript as it stands and pauses with check_user_input next. |
| ResumeFormatter.Thread.UpdateState | resume_formatter_tab.py:35 | update_state appends the user's message as format_resume's write, so check_user_input is next. Resume, job description and format_style are kept. |
| ResumeFormatter.FormatResumeAppends | resume_formatter.py:96-114 | On the first turn, format_resume adds the style prompt and the reply to it. Later it adds exactly one reply to the whole conversation. Earlier messages are kept. |
| ResumeFormatter.Execute | resume_formatter.py:96-124 | format_resume and check_user_input with their deltas merged. It has no contract of its own; FormatResumeAppends and GateIsNoOp state its behaviour. |
| ResumeFormatter.FormatResumeDelta | resume_formatter.py:96-114 | The messages format_resume returns. It has no contract of its own; FormatResumeAppends states them. |
| ResumeFormatter.ShouldFormatResume | resume_formatter.py:116-121 | The router after check_user_input. It has no contract of its own; RouterSaysEndOnDone states its behaviour. |
| ResumeFormatter.GateIsNoOp | resume_formatter.py:123-124 | check_user_input leaves the state unchanged. |
| ResumeFormatter.RouterSaysEndOnDone | resume_formatter.py:116-121 | The router says "END" exactly when the last message, stripped, spells "done" in any case. Otherwise it says "format_resume". It fails only on no messages. |
| ResumeFormatter.EndIsNotAKey | resume_formatter.py:78-82 | The mapping has END's own name as a key, not the string "END". |
| ResumeFormatter.DoneHasNoRoute | resume_formatter.py:119 | After "done" the router's outcome has no mapped destination. Resuming fails at check_user_input and leaves the state as it was. |
| ResumeFormatter.OtherReplyRoutesBack | resume_formatter.py:116-121 | Any other reply routes check_user_input back to format_resume. |
| ResumeFormatter.OtherReplyLoops | resume_formatter.py:77-87 | Resumed after any other reply, the run adds exactly one reply and pauses with check_user_input next. |
| ResumeFormatter.FirstTurnPauses | resume_formatter.py:83-87 | The first invoke runs format_resume alone and pauses with check_user_input next. |
| ResumeFormatter.MessagesOnlyGrow | resume_formatter.py:9 | After any run, the earlier transcript is a prefix of the new one, and the context is unchanged. |
| ResumeDoctor.Graph | resume_doctor.py:66-72 | Every run is finite. |
| ResumeDoctor.FixedEdgesFollowed | resume_doctor.py:66-68 | Each node follows exactly its add_edge edge. |
| ResumeDoctor.Execute | resume_doctor.py:81-122 | The three nodes with their deltas merged. It has no contract of its own; OneFieldPerNode states its behaviour. |
| ResumeDoctor.OneFieldPerNode | resume_doctor.py:81-122 | Each node writes only its own field: persona, updated_resume, or interview_questions with what the helper returns, the questions or None. Only generate_interview_questions can fail, and only when the helper raises. |
| ResumeDoctor.InputsNeverWritten | resume_doctor.py:7-13 | age_category, resume and job_description are the same after any run. |
| ResumeDoctor.PipelineRunsInOrder | resume_doctor.py:66-72 | One invoke runs the three nodes once each, in order. When the helper returns the questions or None, the run ends at END with that value stored. When it raises, the run stops at generate_interview_questions with persona and updated_resume already written. |

## Left out

- The Streamlit UI is not modelled: main.py, widgets, file upload, rendering and session state. The calls the tabs make on the graphs are modelled as operations, but not the order in which Streamlit reruns make them. For example, the formatter tab restarts the thread (`ResumeFormatter.Thread.Start`) on every rerun with a style selected, before it adds the user's message.
- Prompt wording and `.format` templating are not modelled. A prompt is the datatype of the values it is built from. The two formatter style prompts are stand-in strings that only differ.
- The language model is a function of its prompt, so two calls with the same prompt give the same reply. A real model may answer differently each time.
- PDF text extraction (`parse_resume` in utils.py) is a function parameter that gives the text or raises; what PyPDFLoader accepts is not modelled. The deletion of the uploaded file (resume_screener.py:238-239) is not modelled.
- `extra_json_object` and `extract_json_list` are not part of this model. They are function parameters that may raise, return None or return a value, so the model covers every behaviour the real helpers could have. A raise stops the run with `ExtractionFailed`. A None is stored as it is by generate_criteria and generate_interview_questions. The doctor's run then completes, while the screener's run fails at evaluate_criteria. Reading "decision" from None fails with `NoneValue`. A returned value of the wrong shape, such as a list for an object, is not modelled.
- `get_model`, `get_memory`, `get_thread` and `clear_thread` are not part of this model. A thread is a `Thread` object.
- LangGraph's compile-time validation and checkpoint storage are not modelled. An unmapped router outcome is an error of the run that resumes.
- JSON numbers are integers, and list items from the extractor are strings. Floats and other item types do not occur in the model.
- Case mapping covers ASCII letters only. The code only compares mapped text with "DONE" or "done", and in Python no non-ASCII character maps onto those letters, so the comparisons come out the same.
- Screener.TagDecisions: the decision dictionaries are values, so the aliasing of the in-place update is not modelled. overall_decision's prompt is modelled as sent with the tagged list.
- Screener.Invoke: LangGraph's default recursion limit of 25 steps is not modelled. `graph.invoke` at resume_matching_tab.py:159 passes no config, so a screening of more than about 23 criteria raises GraphRecursionError there, while the model's run succeeds for any number of criteria. The same limit on the checkpointed threads is not reached by a single invoke, which pauses after at most three nodes.
- Screener.Invoke: the screener's run goes through the generic executor loop `Engine.Invoke`. `Screener.ExecuteNode` proves separately that the node step using the in-place tagging loop equals the node's function.
- The formatter tab appends the message to a copy of the checkpoint's values (resume_formatter_tab.py:33) before calling update_state. That copy is discarded, so the model leaves the append out.
- InterviewSimulator.FirstReplyReviewedWithoutQuestion: the engine reads a state key that nothing has written as None. Nothing writes `last_question` before the first review, and review_answer reads it with `state["last_question"]` (interview_simulator.py:220). Whether that read gives None or raises KeyError depends on the LangGraph version. On versions that leave unwritten channels out of a node's input, every first answer fails at review_answer, while the model reviews it with no question on record. The same reading applies to the screener's `criteria`, which the matching tab always writes (resume_matching_tab.py:159-166).
- The display of `has_ended`, and what the tabs show after a run, are not modelled.
