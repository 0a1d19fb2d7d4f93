/**
 * The session state machine of `DualAgent` without the DOM and the network: the
 * credential, the plan artifact, the busy flag, the values of the three input fields,
 * the disabled flags of the controls and the text of the two output panels.
 *
 * Each stage is asynchronous and suspends twice, so it is split into three steps:
 * a Start step (everything before the narration delays), a Send step (the code after
 * the delays, which reads the task or the plan and the key and hands the request to
 * the endpoint) and a Complete step (the continuation once the request settles).
 * Counters and a queue record the calls waiting at each suspension point, standing
 * for the pending continuations, so that a step can only resume a call that exists.
 */
module Workflow {
  import opened Wrappers
  import opened Text
  import opened Credential
  import opened Api
  import opened Prompts

  /** The stage-1 output panel: plain text, or the editor opened on the text it showed. */
  datatype Panel = Shown(text: string) | Editing(original: string)

  const SaveLabel := "Save Changes"
  const CancelLabel := "Cancel"

  /**
   * The panel's `textContent`. While the editor is open that is the text of its
   * children: the textarea contributes nothing (its value is not a child text node),
   * the two buttons their labels.
   */
  function TextContent(p: Panel): string
  {
    match p
    case Shown(text) => text
    case Editing(_) => SaveLabel + CancelLabel
  }

  const PlannerStarting :=
    "\U{1F916} Agent 1 is starting up...\n\n"
    + "Preparing to analyze your task..."
  const PlannerWorking :=
    "\U{26A1} Generating structured framework...\n\n"
    + "\U{2022} Defining evaluation criteria\n"
    + "\U{2022} Setting constraints\n"
    + "\U{2022} Building action plan\n\n"
    + "This may take 10-30 seconds..."
  const PlannerWaiting := "Waiting for task analysis..."
  const ResponderWaiting := "Waiting for structured plan and target..."
  const TargetAlert := "Please enter a target/subject for analysis"
  const NoKeyToTest := "No API key to test"
  const TestingNotice := "\U{1F504} Testing API key..."

  const StartingHead := "\U{1F916} Agent 2 is starting up...\n\nPreparing to analyze: \""
  const WorkingHead := "\U{26A1} Analyzing \""
  const WorkingTail :=
    "\" using structured approach...\n\n"
    + "\U{2022} Applying evaluation criteria\n"
    + "\U{2022} Gathering insights\n"
    + "\U{2022} Structuring comprehensive response\n\n"
    + "This may take 15-45 seconds..."

  /** What the result panel shows as soon as a stage-2 run for `target` starts. */
  function ResponderStarting(target: string): string
  {
    StartingHead + target + "\""
  }

  /** What the result panel shows while the stage-2 request for `target` is in flight. */
  function ResponderWorking(target: string): string
  {
    WorkingHead + target + WorkingTail
  }

  const ErrorHead := "\U{1F6A8} Error occurred:\n\n"
  const ErrorTail := "\n\nPlease check your API key and try again."

  /** What a stage panel shows when its call rejects with `message`. */
  function ErrorDisplay(message: string): (display: string)
    ensures |display| == |ErrorHead| + |message| + |ErrorTail|
    ensures display[|ErrorHead|..|ErrorHead| + |message|] == message
  {
    ErrorHead + message + ErrorTail
  }

  /** The error panel shows the rejection's message verbatim: different messages, different panels. */
  lemma ErrorDisplayInjective(m1: string, m2: string)
    ensures ErrorDisplay(m1) == ErrorDisplay(m2) <==> m1 == m2
  {
    if ErrorDisplay(m1) == ErrorDisplay(m2) {
      assert |m1| == |m2|;
      assert m1 == ErrorDisplay(m1)[|ErrorHead|..|ErrorHead| + |m1|];
      assert m2 == ErrorDisplay(m2)[|ErrorHead|..|ErrorHead| + |m2|];
    }
  }

  /** How the click that starts a stage ends: ignored while busy, an alert, or a run started. */
  datatype Launch = Busy | Alerted(message: string) | Started

  /**
   * How the code after the delays ends: `callOpenAI` refuses at once because no key is
   * stored, or the request is handed to the endpoint.
   */
  datatype Call = NoKey | Sent(request: Request)

  class DualAgent {
    /** `apiKey`: the stored key, or `null`. */
    var apiKey: Option<string>
    /** `agent1OutputData`: the plan artifact. */
    var plan: PlanValue
    /** `isProcessing`: the busy flag shared by both stages. */
    var isProcessing: bool
    /** The values of the key, task and target input fields. */
    var keyInput: string
    var taskInput: string
    var targetInput: string
    /** The `disabled` flags of the test, analyze, edit, proceed and execute buttons and the target field. */
    var testKeyDisabled: bool
    var analyzeDisabled: bool
    var editDisabled: bool
    var proceedDisabled: bool
    var executeDisabled: bool
    var targetDisabled: bool
    /** The text of the stage-1 and stage-2 output panels. */
    var planPanel: Panel
    var resultPanel: string
    /** Stage-1 runs inside their narration delays. */
    var waiting1: nat
    /** The targets of the stage-2 runs inside their narration delays, oldest first. */
    var waiting2: seq<string>
    /** Requests in flight: stage 1, stage 2 and key tests. */
    var pending1: nat
    var pending2: nat
    var pendingTests: nat
    /** The stage-2 requests handed to the endpoint so far, oldest first. */
    var stage2Sent: seq<Request>

    /**
     * `!!this.apiKey`: a non-empty key is stored. Under the key invariant that is just
     * "a key is stored", since an accepted key is never empty.
     */
    predicate HasKey(): (has: bool)
      reads this`apiKey
      ensures KeyInvariant() ==> (has <==> apiKey.Some?)
    {
      apiKey.Some? && apiKey.value != ""
    }

    /** A stored key is one `processApiKey` accepted. */
    ghost predicate KeyInvariant()
      reads this`apiKey
    {
      apiKey.Some? ==> StorableKey(apiKey.value)
    }

    /**
     * The stage-2 gate: edit and proceed are enabled together, execute and the target
     * field only while proceed is, and proceed only while a plan text is stored.
     */
    ghost predicate Gate()
      reads this`editDisabled, this`proceedDisabled, this`executeDisabled, this`targetDisabled, this`plan
    {
      && editDisabled == proceedDisabled
      && (!executeDisabled ==> !proceedDisabled)
      && (!targetDisabled ==> !proceedDisabled)
      && (!proceedDisabled ==> plan.Text?)
    }

    /** How many stage runs have started and not yet finished. */
    function InFlight(): nat
      reads this`waiting1, this`pending1, this`waiting2, this`pending2
    {
      waiting1 + pending1 + |waiting2| + pending2
    }

    /**
     * Mutual exclusion: at most one stage run is unfinished, the busy flag says whether
     * one is, and a stage-2 run was started through an open gate.
     */
    ghost predicate Exclusive()
      reads this`waiting1, this`pending1, this`waiting2, this`pending2, this`isProcessing, this`proceedDisabled
    {
      && InFlight() <= 1
      && (isProcessing <==> InFlight() == 1)
      && (|waiting2| + pending2 > 0 ==> !proceedDisabled)
    }

    /**
     * The plan guard: proceed enabled, the target field enabled, or a target typed, each
     * imply that a plan text is stored. Unlike `Valid`, it survives every interleaving,
     * resets in the middle of a stage included.
     */
    ghost predicate PlanGuard()
      reads this`proceedDisabled, this`targetDisabled, this`targetInput, this`plan
    {
      && (!proceedDisabled ==> plan.Text?)
      && (!targetDisabled ==> plan.Text?)
      && (targetInput != "" ==> plan.Text?)
    }

    /**
     * The send guard: while a stage-2 run waits in its delays, a plan text is stored,
     * so the prompt it builds afterwards embeds one. Only a reset during those delays
     * breaks it.
     */
    ghost predicate SendGuard()
      reads this`waiting2, this`plan
    {
      |waiting2| > 0 ==> plan.Text?
    }

    ghost predicate Valid()
      reads this`apiKey, this`editDisabled, this`proceedDisabled, this`executeDisabled, this`targetDisabled
      reads this`plan, this`waiting1, this`pending1, this`waiting2, this`pending2, this`isProcessing
    {
      KeyInvariant() && Gate() && Exclusive()
    }

    /**
     * A fresh session. The page markup is not part of this model: the controls start
     * as `resetWorkflow` leaves them, with the test button disabled and nothing typed.
     */
    constructor ()
      ensures Valid() && PlanGuard() && SendGuard()
      ensures apiKey == None && plan == Undefined && !isProcessing
      ensures keyInput == "" && taskInput == "" && targetInput == ""
      ensures testKeyDisabled && analyzeDisabled && editDisabled && proceedDisabled
      ensures executeDisabled && targetDisabled
      ensures planPanel == Shown(PlannerWaiting) && resultPanel == ResponderWaiting
      ensures waiting1 == 0 && waiting2 == [] && pending1 == 0 && pending2 == 0 && pendingTests == 0
      ensures stage2Sent == []
    {
      apiKey := None;
      plan := Undefined;
      isProcessing := false;
      keyInput, taskInput, targetInput := "", "", "";
      testKeyDisabled, analyzeDisabled, editDisabled := true, true, true;
      proceedDisabled, executeDisabled, targetDisabled := true, true, true;
      planPanel := Shown(PlannerWaiting);
      resultPanel := ResponderWaiting;
      waiting1, waiting2 := 0, [];
      pending1, pending2, pendingTests := 0, 0, 0;
      stage2Sent := [];
    }

    /**
     * `validateTaskInput`: analyze is enabled exactly when a key is stored, the trimmed
     * task is non-empty and the busy flag is clear.
     */
    method ValidateTaskInput()
      modifies this`analyzeDisabled
      ensures !analyzeDisabled <==> HasKey() && Trim(taskInput) != "" && !isProcessing
    {
      var hasKey := HasKey();
      var hasTask := |Trim(taskInput)| > 0;
      analyzeDisabled := !hasKey || !hasTask || isProcessing;
    }

    /** The task field changes (typing, or a click on an example card) and is validated. */
    method TaskInput(value: string)
      modifies this`taskInput, this`analyzeDisabled
      ensures taskInput == value
      ensures !analyzeDisabled <==> HasKey() && Trim(value) != "" && !isProcessing
    {
      taskInput := value;
      ValidateTaskInput();
    }

    /** The target field changes; a disabled field takes no input. */
    method TargetInput(value: string)
      modifies this`targetInput
      ensures targetInput == (if old(targetDisabled) then old(targetInput) else value)
      ensures old(PlanGuard()) ==> PlanGuard()
    {
      if !targetDisabled {
        targetInput := value;
      }
    }

    /**
     * `handleKeyInput`, run after each change of the key field. A blank key clears the
     * stored key and disables test and analyze; any other text only earns a hint.
     * It never stores a key.
     */
    method HandleKeyInput(value: string) returns (notice: Option<string>)
      modifies this`keyInput, this`apiKey, this`testKeyDisabled, this`analyzeDisabled
      ensures keyInput == value
      ensures Trim(value) == "" ==> apiKey == None && testKeyDisabled && analyzeDisabled && notice == None
      ensures Trim(value) != "" ==>
        && apiKey == old(apiKey) && testKeyDisabled == old(testKeyDisabled)
        && analyzeDisabled == old(analyzeDisabled)
        && notice == Some(TypingHint(Trim(value)))
      ensures old(KeyInvariant()) ==> KeyInvariant()
      ensures old(Valid()) ==> Valid()
    {
      keyInput := value;
      var key := Trim(keyInput);
      if |key| == 0 {
        testKeyDisabled := true;
        apiKey := None;
        ValidateTaskInput();
        notice := None;
        return;
      }
      notice := Some(TypingHint(key));
    }

    /**
     * `processApiKey`, run when the key field loses focus or Enter is pressed: the
     * trimmed key is stored exactly when it is accepted; otherwise the stored key is
     * cleared. The test button follows the verdict, analyze is revalidated.
     */
    method ProcessApiKey() returns (notice: Option<string>)
      modifies this`apiKey, this`testKeyDisabled, this`analyzeDisabled
      ensures apiKey == (if StorableKey(Trim(keyInput)) then Some(Trim(keyInput)) else None)
      ensures testKeyDisabled == !StorableKey(Trim(keyInput))
      ensures !analyzeDisabled <==> apiKey.Some? && Trim(taskInput) != "" && !isProcessing
      ensures notice == VerdictNotice(ClassifyKey(keyInput))
      ensures KeyInvariant()
      ensures old(Gate()) ==> Gate()
      ensures old(Valid()) ==> Valid()
    {
      var key := Trim(keyInput);
      var verdict := ClassifyKey(keyInput);
      if verdict == Accepted {
        apiKey := Some(key);
        testKeyDisabled := false;
      } else {
        testKeyDisabled := true;
        apiKey := None;
      }
      ValidateTaskInput();
      notice := VerdictNotice(verdict);
    }

    /**
     * The first part of `testApiKey`: without a key it only says so; otherwise it
     * disables the test button and sends the minimal request.
     */
    method StartKeyTest() returns (notice: string, request: Option<Request>)
      modifies this`testKeyDisabled, this`pendingTests
      ensures !HasKey() ==> notice == NoKeyToTest && request == None && unchanged(this)
      ensures HasKey() ==>
        && notice == TestingNotice && request == Some(KeyTestRequest(apiKey.value))
        && testKeyDisabled && pendingTests == old(pendingTests) + 1
    {
      if !HasKey() {
        notice := NoKeyToTest;
        request := None;
        return;
      }
      testKeyDisabled := true;
      notice := TestingNotice;
      request := Some(KeyTestRequest(apiKey.value));
      pendingTests := pendingTests + 1;
    }

    /** The rest of `testApiKey` once its request settles: report, re-enable the button. */
    method CompleteKeyTest(outcome: Outcome) returns (notice: string)
      requires pendingTests > 0
      modifies this`testKeyDisabled, this`pendingTests
      ensures notice == TestKeyMessage(outcome)
      ensures !testKeyDisabled && pendingTests == old(pendingTests) - 1
    {
      notice := TestKeyMessage(outcome);
      testKeyDisabled := false;
      pendingTests := pendingTests - 1;
    }

    /**
     * The start of `runAgent1`, up to its first delay. While busy nothing
     * happens. Otherwise the session becomes busy, analyze is disabled and the run
     * waits in its delays. Nothing here looks at the key or the task.
     */
    method StartAgent1() returns (launch: Launch)
      modifies this`isProcessing, this`analyzeDisabled, this`planPanel, this`waiting1
      ensures old(isProcessing) ==> launch == Busy && unchanged(this)
      ensures !old(isProcessing) ==>
        && launch == Started && isProcessing && analyzeDisabled
        && planPanel == Shown(PlannerStarting) && waiting1 == old(waiting1) + 1
      ensures old(Valid()) ==> Valid()
    {
      if isProcessing {
        return Busy;
      }
      isProcessing := true;
      analyzeDisabled := true;
      planPanel := Shown(PlannerStarting);
      waiting1 := waiting1 + 1;
      launch := Started;
    }

    /**
     * `runAgent1` after its delays, up to the fetch. It reads the task field as it is
     * now and builds the planner prompt over its trim. `callOpenAI` refuses at once
     * when no key is stored now; the failure is reported and the session is idle
     * again. Otherwise the request goes out with the key stored now.
     */
    method SendAgent1() returns (call: Call)
      requires waiting1 > 0
      modifies this`planPanel, this`isProcessing, this`analyzeDisabled, this`waiting1, this`pending1
      ensures waiting1 == old(waiting1) - 1
      ensures HasKey() ==>
        && call == Sent(CompletionRequest(apiKey.value, "Agent 1", PlannerPrompt(Trim(taskInput))))
        && planPanel == Shown(PlannerWorking) && pending1 == old(pending1) + 1
        && isProcessing == old(isProcessing) && analyzeDisabled == old(analyzeDisabled)
      ensures !HasKey() ==>
        && call == NoKey && planPanel == Shown(ErrorDisplay(NoKeyMessage))
        && !isProcessing && !analyzeDisabled && pending1 == old(pending1)
      ensures old(Valid()) ==> Valid()
    {
      waiting1 := waiting1 - 1;
      if !HasKey() {
        FailPlanner(NoKeyMessage);
        return NoKey;
      }
      AwaitPlanner();
      var prompt := PlannerPrompt(Trim(taskInput));
      call := Sent(CompletionRequest(apiKey.value, "Agent 1", prompt));
    }

    /** The stage-1 request goes out: the last progress text is shown, one request in flight. */
    method AwaitPlanner()
      modifies this`planPanel, this`pending1
      ensures planPanel == Shown(PlannerWorking) && pending1 == old(pending1) + 1
    {
      planPanel := Shown(PlannerWorking);
      pending1 := pending1 + 1;
    }

    /** A stage-1 run ends in failure: the error is shown, the session idle, analyze enabled. */
    method FailPlanner(message: string)
      modifies this`planPanel, this`isProcessing, this`analyzeDisabled
      ensures planPanel == Shown(ErrorDisplay(message)) && !isProcessing && !analyzeDisabled
    {
      planPanel := Shown(ErrorDisplay(message));
      isProcessing := false;
      analyzeDisabled := false;
    }

    /**
     * The rest of `runAgent1` once its request settles. Success stores the text
     * verbatim as the plan, shows it and enables edit and proceed; a failure shows the
     * error and keeps whatever plan was there. Either way the session is idle again
     * and analyze is enabled without consulting `validateTaskInput`.
     */
    method CompleteAgent1(outcome: Outcome)
      requires pending1 > 0
      modifies this`plan, this`planPanel, this`editDisabled, this`proceedDisabled,
               this`isProcessing, this`analyzeDisabled, this`pending1
      ensures !isProcessing && !analyzeDisabled && pending1 == old(pending1) - 1
      ensures outcome.Ok? ==>
        && plan == Text(outcome.text) && planPanel == Shown(outcome.text)
        && !editDisabled && !proceedDisabled
      ensures !outcome.Ok? ==>
        && plan == old(plan) && planPanel == Shown(ErrorDisplay(CallResult(outcome).error))
        && editDisabled == old(editDisabled) && proceedDisabled == old(proceedDisabled)
      ensures old(Valid()) ==> Valid()
      ensures old(PlanGuard()) ==> PlanGuard()
      ensures old(SendGuard()) ==> SendGuard()
    {
      pending1 := pending1 - 1;
      var result := CallResult(outcome);
      match result {
        case Success(response) =>
          planPanel := Shown(response);
          plan := Text(response);
          editDisabled := false;
          proceedDisabled := false;
          isProcessing := false;
          analyzeDisabled := false;
        case Failure(message) =>
          FailPlanner(message);
      }
    }

    /** `editAgent1Output`: the panel becomes an editor over the text it was showing. */
    method EditAgent1Output()
      modifies this`planPanel
      ensures planPanel == Editing(TextContent(old(planPanel)))
    {
      var currentOutput := TextContent(planPanel);
      planPanel := Editing(currentOutput);
    }

    /** The editor's save button: the edited text replaces the plan and is shown. */
    method SaveEdit(edited: string)
      requires planPanel.Editing?
      modifies this`plan, this`planPanel
      ensures plan == Text(edited) && planPanel == Shown(edited)
      ensures old(Valid()) ==> Valid()
      ensures PlanGuard() && SendGuard()
    {
      plan := Text(edited);
      planPanel := Shown(edited);
    }

    /** The editor's cancel button: the old text is shown again; the plan is untouched. */
    method CancelEdit()
      requires planPanel.Editing?
      modifies this`planPanel
      ensures planPanel == Shown(old(planPanel).original)
    {
      planPanel := Shown(planPanel.original);
    }

    /**
     * `enableAgent2`, the proceed button's handler: enables the target field and
     * execute. It checks nothing itself; the gate holds because the browser delivers
     * the click only while proceed is enabled.
     */
    method EnableAgent2()
      modifies this`targetDisabled, this`executeDisabled
      ensures !targetDisabled && !executeDisabled
      ensures old(Valid()) && !old(proceedDisabled) ==> Valid()
      ensures old(PlanGuard()) && !old(proceedDisabled) ==> PlanGuard()
    {
      targetDisabled := false;
      executeDisabled := false;
    }

    /**
     * The start of `runAgent2`, up to its first delay. While busy nothing
     * happens; with a blank target only an alert is raised. Otherwise the trimmed
     * target is taken, the session becomes busy, execute is disabled and the run waits
     * in its delays. Nothing here checks that a plan exists; under the plan guard a
     * non-empty target implies one.
     */
    method StartAgent2() returns (launch: Launch)
      modifies this`isProcessing, this`executeDisabled, this`resultPanel, this`waiting2
      ensures old(isProcessing) ==> launch == Busy && unchanged(this)
      ensures !old(isProcessing) && Trim(targetInput) == "" ==>
        launch == Alerted(TargetAlert) && unchanged(this)
      ensures !old(isProcessing) && Trim(targetInput) != "" ==>
        && launch == Started && isProcessing && executeDisabled
        && resultPanel == ResponderStarting(Trim(targetInput))
        && waiting2 == old(waiting2) + [Trim(targetInput)]
      ensures old(Valid()) && !old(executeDisabled) ==> Valid()
      ensures old(PlanGuard() && SendGuard()) ==> SendGuard()
    {
      if isProcessing {
        return Busy;
      }
      var target := Trim(targetInput);
      if |target| == 0 {
        return Alerted(TargetAlert);
      }
      isProcessing := true;
      executeDisabled := true;
      resultPanel := ResponderStarting(target);
      waiting2 := waiting2 + [target];
      launch := Started;
    }

    /**
     * `runAgent2` after its delays, up to the fetch, for the oldest waiting run: the
     * responder prompt embeds the plan as it is now and the target taken at the start.
     * `callOpenAI` refuses at once when no key is stored now; the failure is reported
     * and the session is idle again. Otherwise the request goes out with the key stored
     * now, and is added to the requests sent.
     */
    method SendAgent2() returns (call: Call)
      requires |waiting2| > 0
      modifies this`resultPanel, this`isProcessing, this`executeDisabled, this`waiting2, this`pending2,
        this`stage2Sent
      ensures waiting2 == old(waiting2)[1..]
      ensures stage2Sent == old(stage2Sent) + (if call.Sent? then [call.request] else [])
      ensures HasKey() ==>
        && call == Sent(CompletionRequest(apiKey.value, "Agent 2", ResponderPrompt(plan, old(waiting2)[0])))
        && resultPanel == ResponderWorking(old(waiting2)[0]) && pending2 == old(pending2) + 1
        && isProcessing == old(isProcessing) && executeDisabled == old(executeDisabled)
      ensures !HasKey() ==>
        && call == NoKey && resultPanel == ErrorDisplay(NoKeyMessage)
        && !isProcessing && !executeDisabled && pending2 == old(pending2)
      ensures old(Valid()) ==> Valid()
      ensures old(SendGuard()) && call.Sent? ==> plan.Text?
    {
      var target := waiting2[0];
      waiting2 := waiting2[1..];
      if !HasKey() {
        FailResponder(NoKeyMessage);
        return NoKey;
      }
      AwaitResponder(target);
      var prompt := ResponderPrompt(plan, target);
      call := Sent(CompletionRequest(apiKey.value, "Agent 2", prompt));
      stage2Sent := stage2Sent + [call.request];
    }

    /** The stage-2 request for `target` goes out: its progress text is shown, one request in flight. */
    method AwaitResponder(target: string)
      modifies this`resultPanel, this`pending2
      ensures resultPanel == ResponderWorking(target) && pending2 == old(pending2) + 1
    {
      resultPanel := ResponderWorking(target);
      pending2 := pending2 + 1;
    }

    /** A stage-2 run ends in failure: the error is shown, the session idle, execute enabled. */
    method FailResponder(message: string)
      modifies this`resultPanel, this`isProcessing, this`executeDisabled
      ensures resultPanel == ErrorDisplay(message) && !isProcessing && !executeDisabled
    {
      resultPanel := ErrorDisplay(message);
      isProcessing := false;
      executeDisabled := false;
    }

    /**
     * The rest of `runAgent2` once its request settles: the response text verbatim,
     * or the error, goes to the result panel; the session is idle again and execute is
     * enabled, whatever happened in between.
     */
    method CompleteAgent2(outcome: Outcome)
      requires pending2 > 0
      modifies this`resultPanel, this`isProcessing, this`executeDisabled, this`pending2
      ensures outcome.Ok? ==> resultPanel == outcome.text
      ensures !outcome.Ok? ==> resultPanel == ErrorDisplay(CallResult(outcome).error)
      ensures !isProcessing && !executeDisabled && pending2 == old(pending2) - 1
      ensures old(Valid()) ==> Valid()
    {
      pending2 := pending2 - 1;
      var result := CallResult(outcome);
      match result {
        case Success(response) =>
          resultPanel := response;
          isProcessing := false;
          executeDisabled := false;
        case Failure(message) =>
          FailResponder(message);
      }
    }

    /**
     * `resetWorkflow`: clears the plan, the task and the target, closes the gate,
     * revalidates analyze (always disabled, the task being empty) and then clears the
     * busy flag, even while a stage is in flight. The key is kept; the test button is
     * disabled if there is none. The invariant survives only a reset with nothing in
     * flight, and the send guard only one with no stage-2 run in its delays.
     */
    method ResetWorkflow()
      modifies this`plan, this`planPanel, this`editDisabled, this`proceedDisabled,
               this`targetInput, this`targetDisabled, this`resultPanel, this`executeDisabled,
               this`taskInput, this`analyzeDisabled, this`isProcessing, this`testKeyDisabled
      ensures plan == Null && planPanel == Shown(PlannerWaiting) && resultPanel == ResponderWaiting
      ensures taskInput == "" && targetInput == ""
      ensures editDisabled && proceedDisabled && executeDisabled && targetDisabled && analyzeDisabled
      ensures !isProcessing
      ensures testKeyDisabled == (!HasKey() || old(testKeyDisabled))
      ensures Gate() && PlanGuard()
      ensures old(Valid()) && old(InFlight()) == 0 ==> Valid()
    {
      ResetPlanner();
      ResetResponder();
      ResetTask();
      if !HasKey() {
        testKeyDisabled := true;
      }
    }

    /** The stage-1 half of `resetWorkflow`: the plan becomes `null` and the gate closes. */
    method ResetPlanner()
      modifies this`plan, this`planPanel, this`editDisabled, this`proceedDisabled
      ensures plan == Null && planPanel == Shown(PlannerWaiting) && editDisabled && proceedDisabled
    {
      plan := Null;
      planPanel := Shown(PlannerWaiting);
      editDisabled := true;
      proceedDisabled := true;
    }

    /**
     * The task part of `resetWorkflow`: the task is cleared, analyze revalidated (and so
     * disabled), and only then the busy flag cleared.
     */
    method ResetTask()
      modifies this`taskInput, this`analyzeDisabled, this`isProcessing
      ensures taskInput == "" && analyzeDisabled && !isProcessing
    {
      taskInput := "";
      ValidateTaskInput();
      isProcessing := false;
    }

    /** The stage-2 half of `resetWorkflow`: the target is cleared and locked, execute disabled. */
    method ResetResponder()
      modifies this`targetInput, this`targetDisabled, this`resultPanel, this`executeDisabled
      ensures targetInput == "" && targetDisabled && resultPanel == ResponderWaiting && executeDisabled
    {
      targetInput := "";
      targetDisabled := true;
      resultPanel := ResponderWaiting;
      executeDisabled := true;
    }
  }
}
