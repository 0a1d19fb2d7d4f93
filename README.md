# DualAgent session model

This project models `DualAgent`, a page script that chains two calls to an OpenAI
chat-completions endpoint. Stage 1, the planner, turns a task into a structured plan.
The user may edit that plan. Stage 2, the responder, then applies the plan to a target
subject. The model keeps the session state machine and drops the DOM and the network.

The state consists of:

- the stored API key;
- the plan artifact `agent1OutputData`;
- the shared busy flag;
- the three input fields;
- the disabled flags of the controls;
- the text of the two output panels;
- the stage runs that have started and not finished;
- the stage-2 requests handed to the endpoint so far, in order.

The project has these files:

- `text.dfy`: JavaScript's `trim` over ECMAScript white space, `startsWith`, and
  `length` counted in UTF-16 code units.
- `credential.dfy`: the key rules of `isValidKeyFormat`, `processApiKey` and `handleKeyInput`.
- `api.dfy`:
  - the two requests sent to the endpoint;
  - the outcomes a request can settle to;
  - the two mappings from an outcome to user-facing text: `callOpenAI`'s thrown
    message and `testApiKey`'s status line.
- `prompts.dfy`:
  - `createAgent1Prompt` and `createAgent2Prompt`;
  - readers that take a built prompt apart again, so that "embeds the text verbatim"
    is proved as a round trip.
- `workflow.dfy`: the class `DualAgent`, with one method per handler. Each async stage
  is split into three steps:
  - Start runs up to the first delay. Stage 2 reads its target here.
  - Send runs after the delays, up to the fetch. It reads the plan or the task field,
    and the key, as they are at that moment. Without a key, `callOpenAI` refuses at
    once and the stage ends in failure.
  - Complete is the continuation once the request settles.

  Counters and a queue of waiting targets stand for the pending continuations.
- `scenarios.dfy`: whole sessions driven through the handlers in order:
  - the intended path;
  - an edited plan;
  - a rejected key;
  - the races that a reset or a key change in the middle of a stage opens up.
- `session.dfy`: an arbitrary sequence of page events, each delivered only when the page
  can deliver it. Elapsed delays and settled requests are events too. The proof covers
  every interleaving.

Four invariants are stated on the class:

- `Gate`: edit and proceed are enabled together. Execute and the target field are
  enabled only while proceed is, and proceed only while a plan text is stored.
- `Exclusive`: at most one stage run is unfinished, and the busy flag says whether one is.
  A stage-2 run that is waiting or in flight implies that proceed is enabled, so its end
  can re-enable execute without breaking `Gate`.
- `PlanGuard`: an enabled proceed button, an enabled target field or a typed target
  each imply that a plan text exists.
- `SendGuard`: while a stage-2 run waits in its delays, a plan text is stored.

`Session.Run` proves four things over every event order:

- `PlanGuard` holds, and a stored key is always one that `processApiKey` accepted.
- The requests it returns are exactly the stage-2 requests the session handed to the
  endpoint, in order. Each was built by `createAgent2Prompt` from the plan and target
  it records, and sent with an accepted key.
- `SendGuard` holds at the end, and every stage-2 request embeds a plan text, as long as
  no reset lands while a stage-2 run waits in its delays.
- `Gate` and `Exclusive` hold as long as no reset lands while any stage run is unfinished.

In several places the code does not do what the page is meant to do. The model follows
the code:

- A failed stage 1 is meant to leave no plan; the code keeps whatever plan was stored
  before. After a first failure it is still `undefined`; after a success followed by a
  failed re-run, the earlier plan remains.
- `runAgent2` does not check that a plan exists, and reads the plan only after its
  delays. A reset in that window clears the plan, and the request then embeds the word
  "null" (`Scenarios.ResetBeforeResponderSend`). Without such a reset, a missing plan
  cannot reach a request: execute and the target field become usable only through the
  proceed button, and a reset empties and locks the target field.
- `runAgent1` reads the task field only after its delays. A reset in that window
  empties the field, and the planner prompt goes out over the empty task
  (`Scenarios.ResetBeforePlannerSend`).
- The key is read only when the request is built. Clearing the key field during the
  delays makes the stage fail with 'No API key provided', and analyze ends up enabled
  with no key stored (`Scenarios.KeyClearedDuringDelay`).
- A reset in the middle of a stage clears the busy flag anyway. This lets:
  - a second stage-1 call run beside the first (`Scenarios.ResetDuringPlanner`);
  - a stage-2 completion re-enable execute after the plan was cleared
    (`Scenarios.ResetDuringResponder`).

  Mutual exclusion and the stage-2 gate are therefore not invariants of the code as
  written.

## Model

| member | source | states |
|---|---|---|
| Text.Trim | script.js:80 | JavaScript's `trim`; its properties are stated by `Text.TrimFacts`, `Text.TrimOfTrimmed` and `Text.TrimIdempotent` |
| Text.TrimStartFacts | script.js:80 | the leading part `trim` drops is all white space; what remains is a suffix of the input that is empty or starts with a non-space |
| Text.TrimEndFacts | script.js:80 | the trailing part `trim` drops is all white space; what remains is a prefix that is empty or ends with a non-space |
| Text.TrimFacts | script.js:101 | the trimmed key is a contiguous slice of the field's text with no white space at either end; it is empty exactly when the field holds only white space |
| Text.TrimOfTrimmed | script.js:213 | text with no white space at its ends is its own trim |
| Text.TrimIdempotent | script.js:213 | trimming an already trimmed task changes nothing |
| Text.Utf16Length | script.js:121 | a key's `length` counts UTF-16 code units: at least one and at most two per character |
| Text.Utf16LengthAppend | script.js:121 | the `length` of a concatenation is the sum of the lengths |
| Credential.ProjectPrefixSubsumed | script.js:139 | every key that starts with "sk-proj-" already starts with "sk-" |
| Credential.IsValidKeyFormat | script.js:138-140 | a key has the accepted format exactly when it starts with "sk-"; the "sk-proj-" alternative adds nothing |
| Credential.StorableKey | script.js:103-127 | the condition under which `processApiKey` keeps a key: trimmed, starting with "sk-", at least 20 UTF-16 units; `Credential.ClassifyKey` proves it is exactly the accepted verdict, and `Credential.AstralKeyAccepted` exhibits one |
| Credential.ClassifyKey | script.js:100-128 | the confirmed key is refused as blank exactly when its trim is empty; for a bad prefix exactly when the trim is non-empty and does not start with "sk-"; as too short exactly when it starts with "sk-" and is shorter than 20 UTF-16 units; it is accepted exactly when it is trimmed, starts with "sk-" and is at least 20 units long |
| Credential.VerdictNotice | script.js:103-131 | only a blank key hides the status line, and only an accepted key is announced as remembered |
| Credential.VerdictNoticeInjective | script.js:103-131 | the four verdicts show four different status lines |
| Credential.AstralKeyAccepted | script.js:121 | "sk-" followed by nine characters outside the Basic Multilingual Plane is twelve characters long and yet accepted, because `length` counts 21 UTF-16 units |
| Credential.TypingHint | script.js:90-97 | while the key is typed, the "press Enter" hint appears exactly for keys of 10 or more UTF-16 units starting with "sk-", "keep typing" exactly for shorter keys, and the format error exactly for keys of 10 or more units with another prefix |
| Api.SystemMessage | script.js:512 | the system message naming the stage; `Api.SystemMessageInjective` proves it determines the stage name |
| Api.SystemMessageInjective | script.js:512 | the system message names the stage: different stage names give different messages |
| Api.CompletionRequest | script.js:500-521 | what `callOpenAI` sends: the key as bearer, model gpt-4o, the system message naming the stage, the prompt as the user message, 2000 tokens, temperature 0.7; its properties are stated by `Api.CompletionRequestInjective` and `Api.KeyTestIsNoStageCall` |
| Api.CompletionRequestInjective | script.js:500-521 | a stage request determines the key, the stage and the prompt: two requests are equal exactly when all three agree, so the prompt goes out verbatim |
| Api.KeyTestIsNoStageCall | script.js:153-169 | the key test authenticates with the key it tests and is never one of the stage calls made with that key |
| Api.StatusKind | script.js:531-540 | a failing status is classed as invalid key exactly when it is 401, billing exactly when 402, forbidden exactly when 403, rate limit exactly when 429, and generic exactly when it is none of the four |
| Api.PayloadMessage | script.js:529 | the message is never empty; it is the payload's `error.message` whenever that is present and non-empty, and otherwise 'API request failed' |
| Api.FixedFailure | script.js:531-539 | the fixed texts for 401, 429, 402 and 403; `Api.FailureMessage` states when they are used and `Api.FixedFailureIdentifiesStatus` that they tell the four classes apart |
| Api.FailureMessage | script.js:524-541 | a singled-out status throws its fixed message, whatever the payload; any other failing status throws the payload's message or the default |
| Api.FixedFailureIdentifiesStatus | script.js:531-540 | the four fixed messages are distinct: the message thrown for a singled-out status names its class |
| Api.CallResult | script.js:524-545 | the call succeeds exactly when the endpoint answered ok, with the text verbatim; an HTTP failure rejects with a non-empty message, which for 401, 402, 403 and 429 names the status's class; a transport failure rejects with the transport's own message |
| Api.TestKeyMessage | script.js:171-189 | any status not singled out gives 'API key test failed' |
| Api.TestMessageMatchesVerdict | script.js:171-192 | the key test's status line ignores the payload and tells every verdict apart: two outcomes show the same line exactly when they are both successes, both transport errors, or failures in the same status class |
| Prompts.PlannerPrompt | script.js:267-290 | `createAgent1Prompt`: the task between a fixed head and tail; its properties are stated by the three lemmas below |
| Prompts.PlannerPromptParts | script.js:267-290 | the stage-1 prompt is the fixed head, the task verbatim between quotes, then the fixed tail with the five mandated sections |
| Prompts.PlannerTaskRoundTrip | script.js:267-290 | reading the task back out of a built stage-1 prompt gives exactly the task that went in |
| Prompts.PlannerPromptInjective | script.js:267-290 | two different tasks never give the same stage-1 prompt |
| Prompts.ResponderPrompt | script.js:442-453 | `createAgent2Prompt`: the rendered plan and the target between fixed texts; its properties are stated by the lemmas below |
| Prompts.ResponderPromptParts | script.js:442-453 | the stage-2 prompt is the fixed head, the rendered plan verbatim, the fixed middle, the target verbatim between quotes, then the fixed suffix |
| Prompts.ResponderPlanRoundTrip | script.js:442-453 | reading the plan back out of a built stage-2 prompt gives exactly the rendered plan |
| Prompts.ResponderPromptDeterminesPlan | script.js:442-453 | for one target, two stage-2 prompts are equal exactly when their rendered plans are equal |
| Prompts.PlanTextsDistinguished | script.js:446 | for one target, two plan texts give the same stage-2 prompt exactly when they are the same text |
| Prompts.MissingPlanReadsAsWord | script.js:446 | nothing checks the plan: a cleared plan goes out exactly as the plan text "null" would, an unset one as "undefined", and the two differ |
| Workflow.ErrorDisplay | script.js:260 | the error panel holds the rejection's message verbatim between the fixed head and tail |
| Workflow.ErrorDisplayInjective | script.js:435 | two error panels are equal exactly when the messages are |
| Workflow.DualAgent.HasKey | script.js:212 | `!!this.apiKey` holds, under the key invariant, exactly when a key is stored |
| Workflow.DualAgent.constructor | script.js:2-10 | a fresh session holds no key, an unset plan, nothing typed, every control disabled and nothing in flight; the invariants and both guards hold |
| Workflow.DualAgent.ValidateTaskInput | script.js:211-216 | analyze is enabled exactly when a key is stored, the trimmed task is non-empty and the busy flag is clear |
| Workflow.DualAgent.TaskInput | script.js:63-69 | typing a task or clicking an example card sets the task and re-evaluates the analyze predicate |
| Workflow.DualAgent.TargetInput | script.js:29 | a disabled target field keeps its value; an enabled one takes the typed text; the plan guard is kept |
| Workflow.DualAgent.HandleKeyInput | script.js:78-98 | typing never stores a key; blank input clears the key and disables test and analyze; other input leaves key and buttons alone and only shows the typing hint |
| Workflow.DualAgent.ProcessApiKey | script.js:100-136 | confirming stores the trimmed key exactly when it is accepted, and clears it otherwise; the test button is enabled exactly when the key is stored; analyze is re-evaluated; the status line matches the verdict; afterwards the stored key is always an accepted one |
| Workflow.DualAgent.StartKeyTest | script.js:142-169 | without a key, the test only says so and changes nothing; with one, it disables the test button and sends the minimal request |
| Workflow.DualAgent.CompleteKeyTest | script.js:171-195 | once the test settles, its status line is the mapped message and the test button is enabled again |
| Workflow.DualAgent.StartAgent1 | script.js:219-229 | while busy, nothing changes; otherwise the session becomes busy, analyze is disabled, the start-up text is shown and one run waits in its delays; the invariant is kept |
| Workflow.DualAgent.SendAgent1 | script.js:237-244 | after the delays, with a key stored now, the planner prompt over the task field as trimmed now goes out with that key; without one, the run fails at once with 'No API key provided', the session is idle and analyze is enabled; the invariant is kept |
| Workflow.DualAgent.AwaitPlanner | script.js:237-244 | the stage-1 request is out: the progress text is shown and one request is in flight |
| Workflow.DualAgent.FailPlanner | script.js:258-264 | a failed stage-1 run shows the error, leaves the session idle and enables analyze |
| Workflow.DualAgent.CompleteAgent1 | script.js:244-264 | success stores the text verbatim as the plan, shows it and enables edit and proceed; failure shows the error and keeps the plan and the gate as they were; either way the session is idle and analyze is enabled; the invariant and both guards are kept |
| Workflow.DualAgent.EditAgent1Output | script.js:337-340 | the panel becomes an editor over the text it was showing |
| Workflow.DualAgent.SaveEdit | script.js:365-368 | saving makes the edited text the plan, verbatim, and shows it; both guards hold afterwards |
| Workflow.DualAgent.CancelEdit | script.js:370-372 | cancelling shows the text from before the edit again and leaves the plan untouched |
| Workflow.DualAgent.EnableAgent2 | script.js:377-379 | proceed enables the target field and execute; a click through an enabled proceed button keeps the invariant and the plan guard |
| Workflow.DualAgent.StartAgent2 | script.js:393-409 | while busy, nothing changes; with a blank target only the alert is raised; otherwise the session becomes busy, execute is disabled, the start-up text for the trimmed target is shown and that target joins the waiting runs; a click through an enabled execute button keeps the invariant, and under the plan guard the send guard is kept |
| Workflow.DualAgent.SendAgent2 | script.js:417-423 | after the delays, with a key stored now, the responder prompt over the plan as it is now and the target taken at the start goes out with that key and is added to the requests sent; without one, the run fails at once, nothing is sent, the session is idle and execute is enabled; the invariant is kept, and under the send guard a request that goes out finds a plan text |
| Workflow.DualAgent.AwaitResponder | script.js:417-423 | the stage-2 request for the target is out: its progress text is shown and one request is in flight |
| Workflow.DualAgent.FailResponder | script.js:433-439 | a failed stage-2 run shows the error, leaves the session idle and enables execute |
| Workflow.DualAgent.CompleteAgent2 | script.js:423-439 | the response text verbatim, or the error, goes to the result panel; the session is idle and execute is enabled |
| Workflow.DualAgent.ResetWorkflow | script.js:549-575 | reset leaves the plan null, the task and target empty, edit, proceed, execute, the target field and analyze disabled, the session not busy and the key unchanged; the test button is disabled without a key; the gate and the plan guard hold afterwards; the invariant survives only a reset with nothing in flight |
| Workflow.DualAgent.ResetPlanner | script.js:550-555 | the stage-1 half of the reset: the plan is null, the waiting text is shown, edit and proceed are disabled |
| Workflow.DualAgent.ResetResponder | script.js:557-563 | the stage-2 half of the reset: the target is empty and locked, the waiting text is shown, execute is disabled |
| Workflow.DualAgent.ResetTask | script.js:565-570 | the task field is empty, analyze is disabled and the busy flag is cleared |
| Scenarios.Prepared | script.js:78-216 | a key typed and confirmed, then a task typed, leaves the key stored and analyze and test enabled, with no plan, a closed gate, nothing in flight and the invariant holding |
| Scenarios.Analyze | script.js:219-244 | analyze on a session holding a key and a trimmed task, with its delays undisturbed, sends the planner prompt for exactly that task |
| Scenarios.Planned | script.js:219-264 | a successful stage 1 stores and shows the returned text as the plan and opens the gate |
| Scenarios.Proceed | script.js:377-379 | after proceed, the typed target is held and execute is enabled, with the invariant kept |
| Scenarios.Execute | script.js:393-423 | execute through an open gate, with its delays undisturbed, sends the responder prompt over the stored plan and target |
| Scenarios.ExecuteAndSettle | script.js:393-440 | execute through an open gate sends the responder prompt over the stored plan and target, records it as sent, and once it answers shows the result verbatim and leaves the session idle and valid |
| Scenarios.HappyPath | script.js:219-440 | over the whole intended path, stage 1 sends the task, stage 2 sends the plan stage 1 produced together with the target, and the result is shown verbatim |
| Scenarios.EditedPlan | script.js:337-453 | a plan edited and saved before proceeding is the one stage 2 sends; when the edit changed the text, the request differs from the one the original plan would have produced |
| Scenarios.ReopenedEditor | script.js:337-363 | pressing edit while the editor is open opens an editor over the two button labels: the text being edited is lost |
| Scenarios.RejectedKey | script.js:219-264 | a 401 answer to stage 1 shows the invalid-key message, leaves no plan and a closed gate, and leaves analyze usable |
| Scenarios.KeyClearedDuringDelay | script.js:229-264 | the key field emptied during stage 1's delays makes the run fail with 'No API key provided'; analyze ends up enabled with no key stored |
| Scenarios.ResetBeforePlannerSend | script.js:239-566 | a reset during stage 1's delays empties the task field, and the planner prompt then goes out over the empty task |
| Scenarios.ResetThenSendPlanner | script.js:239-566 | a reset, then a waiting stage-1 run resuming, sends the planner prompt over the empty task |
| Scenarios.ResetBeforeResponderSend | script.js:419-551 | a reset during stage 2's delays clears the plan, and the responder request then goes out with the plan rendered as "null" |
| Scenarios.ResetThenSendResponder | script.js:419-551 | a reset, then the waiting stage-2 run resuming, sends the responder prompt with the null plan |
| Scenarios.ResetDuringResponder | script.js:423-575 | a reset while stage 2's request is in flight leaves execute enabled with a null plan once the call settles, so the gate is broken; pressing execute only raises the target alert |
| Scenarios.ResetThenSettleResponder | script.js:423-575 | after a reset, a settling stage-2 request re-enables execute over a closed gate and a null plan |
| Scenarios.ResetThenReanalyze | script.js:219-244 | after a reset, a newly typed task and analyze send the planner prompt over that task and add one request in flight to those already there |
| Scenarios.ResetDuringPlanner | script.js:244-575 | a reset while stage 1's request is in flight lets a second stage-1 request go out beside the first; after the first settles, the session reports itself idle with a call still in flight |
| Session.DispatchInput | script.js:41-52 | events from the key field, the key test and the task field keep the key invariant, the invariant and both guards, and send no stage-2 request |
| Session.DispatchPlanner | script.js:51-55 | analyze, stage 1 resuming after its delays, stage-1 completion, edit, save and cancel keep the key invariant, the invariant and both guards, and send no stage-2 request |
| Session.DispatchGate | script.js:54-58 | proceed and target typing keep the key invariant, the invariant and both guards, and send no stage-2 request |
| Session.DispatchResponder | script.js:393-423 | execute and stage 2 resuming after its delays keep the key invariant and the invariant, and under the plan guard the send guard; a stage-2 request goes out exactly when a waiting run resumes with a key stored, built from the plan as it is then and the oldest waiting target, and it is the one request added to those sent; under the send guard that plan is a plan text |
| Session.DispatchEnd | script.js:59-60 | neither sends a stage-2 request; a stage-2 completion keeps everything; a reset keeps the key invariant and the plan guard, keeps the send guard unless a stage-2 run waits in its delays, and keeps the invariant unless a stage run is unfinished |
| Session.Dispatch | script.js:39-69 | one delivered event keeps the key invariant and the plan guard; only a reset while a stage-2 run waits breaks the send guard, and only a reset while a run is unfinished breaks the invariant; it reports the stage-2 request it sent exactly when a waiting run resumed with a key, built from the current plan and the oldest target, with a plan text under the send guard; the requests sent grow by exactly the one it reports |
| Session.Run | script.js:39-69 | over any sequence of page events from page load, a stored key is always an accepted one and the plan guard holds; the requests it returns are exactly the stage-2 requests handed to the endpoint, in order, and each is the prompt over its recorded plan and target, sent with an accepted key; without a reset during a stage-2 delay the send guard holds and every stage-2 request embeds a plan text; without a reset during any unfinished run the invariant holds at the end |

## Left out

- Styling and status narration are left out: the status lines of both stages, their colours and
  animations, key-status auto-hiding, and the focus animation. They are presentation and
  do not feed back into the state.
- The two delays of each stage are modelled as one window between the Start and Send
  steps. The panel texts shown between the two delays (lines 232 and 412) are omitted;
  the start-up text stays in the model until the Send step. During a re-run of stage 1
  edit is still enabled, so an editor opened then, and its cancel, show the start-up
  text rather than the line-232 text.
- The fetch, JSON encoding and response parsing are replaced by the abstract outcome.
  A response body that is not JSON, or a successful body without `choices`, makes the
  call reject, which the transport outcome covers with its message. A non-string
  `error.message` is not modelled.
- A successful body whose `choices[0].message.content` is missing or null is not
  modelled. The code then resolves with `undefined` or `null`, stores it as the plan
  with edit and proceed enabled, and stage 2 embeds the word. The model's successful
  outcome always carries a string. The plan-text guarantees of `CompleteAgent1`,
  `SendAgent2` and `Session.Run` therefore assume that the endpoint returns string content.
- Logging to the console has no effect on the state.
- The page markup that sets the initial disabled flags (index.html) is not part of this
  model. The constructor starts from the flags `resetWorkflow` leaves, with every control
  locked.
- The `alert` dialog of an empty stage-2 target is returned as a value rather than shown.
- The example-card wiring is modelled only as its effect, through `TaskInput`.
- Session.Run: its plan-text guarantee is conditional on no reset during a stage-2
  delay, and its invariant guarantee on no reset during an unfinished run. The code
  breaks both otherwise (`Scenarios.ResetBeforeResponderSend`,
  `Scenarios.ResetDuringResponder`, `Scenarios.ResetDuringPlanner`); only the key
  invariant and the plan guard hold on every path.
- Api.TestKeyMessage: its own contract states only the generic-status case. The full
  mapping is stated by `Api.TestMessageMatchesVerdict`, which shows that the message
  determines the verdict, and not byte for byte against each emoji literal.
