/**
 * Whole sessions driven through `DualAgent`'s handlers in the order the page permits:
 * the intended path, an edited plan, a rejected key, and the interleavings that a
 * reset or a key change while a stage is unfinished opens up.
 */
module Scenarios {
  import opened Wrappers
  import opened Text
  import opened Credential
  import opened Api
  import opened Prompts
  import opened Workflow

  /** A fresh session in which `key` was typed and accepted and `task` was typed. */
  method Prepared(key: string, task: string) returns (a: DualAgent)
    requires StorableKey(key) && IsTrimmed(task) && task != ""
    ensures fresh(a) && a.Valid() && a.PlanGuard()
    ensures a.apiKey == Some(key) && a.taskInput == task && a.plan == Undefined
    ensures !a.analyzeDisabled && !a.testKeyDisabled && !a.isProcessing
    ensures a.proceedDisabled && a.executeDisabled && a.targetDisabled
    ensures a.waiting1 == 0 && a.waiting2 == [] && a.pending1 == 0 && a.pending2 == 0
  {
    TrimOfTrimmed(key);
    TrimOfTrimmed(task);
    a := new DualAgent();
    var hint := a.HandleKeyInput(key);
    var notice := a.ProcessApiKey();
    a.TaskInput(task);
  }

  /**
   * Analyze on an idle session that stores `key` and holds the trimmed `task`, with
   * its delays elapsing undisturbed: the planner request for exactly that task goes out.
   */
  method Analyze(a: DualAgent, key: string, task: string) returns (call: Call)
    requires !a.isProcessing && a.apiKey == Some(key) && key != ""
    requires a.taskInput == task && IsTrimmed(task)
    modifies a`isProcessing, a`analyzeDisabled, a`planPanel, a`waiting1, a`pending1
    ensures old(a.Valid()) ==> a.Valid()
    ensures a.isProcessing && a.waiting1 == old(a.waiting1) && a.pending1 == old(a.pending1) + 1
    ensures call == Sent(CompletionRequest(key, "Agent 1", PlannerPrompt(task)))
  {
    TrimOfTrimmed(task);
    var launch := a.StartAgent1();
    call := a.SendAgent1();
    assert Trim(a.taskInput) == task;
  }

  /** `Prepared`, then a stage-1 run answered with `planText`: the gate is open. */
  method Planned(key: string, task: string, planText: string) returns (a: DualAgent, first: Call)
    requires StorableKey(key) && IsTrimmed(task) && task != ""
    ensures fresh(a) && a.Valid() && a.PlanGuard()
    ensures first == Sent(CompletionRequest(key, "Agent 1", PlannerPrompt(task)))
    ensures a.apiKey == Some(key) && a.plan == Text(planText) && a.planPanel == Shown(planText)
    ensures !a.isProcessing && !a.analyzeDisabled && !a.proceedDisabled && !a.editDisabled
    ensures a.waiting1 == 0 && a.waiting2 == [] && a.pending1 == 0 && a.pending2 == 0
  {
    a := Prepared(key, task);
    first := Analyze(a, key, task);
    a.CompleteAgent1(Ok(planText));
  }

  /** Proceed, then type `target` into the field proceed enabled. */
  method Proceed(a: DualAgent, target: string)
    requires a.Valid() && !a.proceedDisabled
    modifies a`targetDisabled, a`executeDisabled, a`targetInput
    ensures a.Valid() && !a.executeDisabled && !a.targetDisabled && a.targetInput == target
  {
    a.EnableAgent2();
    a.TargetInput(target);
  }

  /**
   * Execute on a valid, idle session with a key, an open gate and a trimmed target,
   * with its delays elapsing undisturbed: the responder request over the stored plan
   * and that target goes out.
   */
  method Execute(a: DualAgent) returns (call: Call)
    requires a.Valid() && !a.isProcessing && !a.executeDisabled && a.HasKey()
    requires IsTrimmed(a.targetInput) && a.targetInput != ""
    modifies a`isProcessing, a`executeDisabled, a`resultPanel, a`waiting2, a`pending2, a`stage2Sent
    ensures a.Valid() && a.isProcessing && a.waiting2 == [] && a.pending2 == old(a.pending2) + 1
    ensures call == Sent(CompletionRequest(a.apiKey.value, "Agent 2", ResponderPrompt(a.plan, a.targetInput)))
    ensures a.stage2Sent == old(a.stage2Sent) + [call.request]
  {
    TrimOfTrimmed(a.targetInput);
    var launch := a.StartAgent2();
    call := a.SendAgent2();
  }

  /**
   * Execute as in `Execute`, then the stage-2 request answers with `result`: the result
   * is shown as received and the session is idle and valid again.
   */
  method ExecuteAndSettle(a: DualAgent, result: string) returns (call: Call)
    requires a.Valid() && !a.isProcessing && !a.executeDisabled && a.HasKey()
    requires IsTrimmed(a.targetInput) && a.targetInput != ""
    modifies a`isProcessing, a`executeDisabled, a`resultPanel, a`waiting2, a`pending2, a`stage2Sent
    ensures a.Valid() && !a.isProcessing && !a.executeDisabled && a.resultPanel == result
    ensures call == Sent(CompletionRequest(a.apiKey.value, "Agent 2", ResponderPrompt(a.plan, a.targetInput)))
    ensures a.stage2Sent == old(a.stage2Sent) + [call.request]
  {
    call := Execute(a);
    a.CompleteAgent2(Ok(result));
  }

  /**
   * Analyze, proceed, type a target, execute: stage 1's request carries the task,
   * stage 2's the plan stage 1 produced and the target, and the result is shown as
   * received. The session ends idle and valid.
   */
  method HappyPath(key: string, task: string, planText: string, target: string, result: string)
    returns (a: DualAgent, first: Call, second: Call)
    requires StorableKey(key) && IsTrimmed(task) && task != ""
    requires IsTrimmed(target) && target != ""
    ensures fresh(a) && a.Valid()
    ensures first == Sent(CompletionRequest(key, "Agent 1", PlannerPrompt(task)))
    ensures second == Sent(CompletionRequest(key, "Agent 2", ResponderPrompt(Text(planText), target)))
    ensures a.plan == Text(planText) && a.planPanel == Shown(planText) && a.resultPanel == result
    ensures !a.isProcessing && !a.executeDisabled && !a.analyzeDisabled
  {
    a, first := Planned(key, task, planText);
    Proceed(a, target);
    second := ExecuteAndSettle(a, result);
  }

  /**
   * A plan edited and saved before proceeding is what stage 2 sends, and the text it
   * replaced is not.
   */
  method EditedPlan(key: string, task: string, planText: string, edited: string, target: string)
    returns (a: DualAgent, second: Call)
    requires StorableKey(key) && IsTrimmed(task) && task != ""
    requires IsTrimmed(target) && target != ""
    ensures fresh(a) && a.Valid()
    ensures second == Sent(CompletionRequest(key, "Agent 2", ResponderPrompt(Text(edited), target)))
    ensures edited != planText ==>
      second != Sent(CompletionRequest(key, "Agent 2", ResponderPrompt(Text(planText), target)))
  {
    var first;
    a, first := Planned(key, task, planText);
    a.EditAgent1Output();
    a.SaveEdit(edited);
    Proceed(a, target);
    second := Execute(a);
    CompletionRequestInjective(key, "Agent 2", ResponderPrompt(Text(edited), target),
                               key, "Agent 2", ResponderPrompt(Text(planText), target));
    PlanTextsDistinguished(edited, planText, target);
  }

  /**
   * Pressing edit while the editor is open opens a new editor over the panel's text,
   * which is then only the two button labels: the text being edited is lost.
   */
  method ReopenedEditor(a: DualAgent)
    modifies a`planPanel
    ensures a.planPanel == Editing(SaveLabel + CancelLabel)
  {
    a.EditAgent1Output();
    a.EditAgent1Output();
  }

  /**
   * A 401 answer to stage 1: the panel shows the invalid-key message, no plan exists,
   * the gate stays closed and analyze can be pressed again.
   */
  method RejectedKey(key: string, task: string, payload: Option<string>) returns (a: DualAgent)
    requires StorableKey(key) && IsTrimmed(task) && task != ""
    ensures fresh(a) && a.Valid()
    ensures a.planPanel == Shown(ErrorDisplay(InvalidKeyFailure))
    ensures a.plan == Undefined && a.proceedDisabled && a.editDisabled
    ensures !a.isProcessing && !a.analyzeDisabled
  {
    a := Prepared(key, task);
    var first := Analyze(a, key, task);
    a.CompleteAgent1(HttpErr(401, payload));
  }

  /**
   * The key field emptied while stage 1 waits in its delays: `callOpenAI` refuses, the
   * panel shows the missing-key error, and analyze ends up enabled although no key is
   * stored, since `runAgent1` re-enables it without `validateTaskInput`.
   */
  method KeyClearedDuringDelay(key: string, task: string) returns (a: DualAgent, call: Call)
    requires StorableKey(key) && IsTrimmed(task) && task != ""
    ensures fresh(a) && a.Valid()
    ensures call == NoKey && a.planPanel == Shown(ErrorDisplay(NoKeyMessage))
    ensures !a.HasKey() && !a.analyzeDisabled && !a.isProcessing
  {
    a := Prepared(key, task);
    var launch := a.StartAgent1();
    var hint := a.HandleKeyInput("");
    call := a.SendAgent1();
  }

  /**
   * A reset while stage 1 waits in its delays: the run resumes after the reset and
   * sends the planner prompt over the emptied task field.
   */
  method ResetBeforePlannerSend(key: string, task: string) returns (a: DualAgent, call: Call)
    requires StorableKey(key) && IsTrimmed(task) && task != ""
    ensures fresh(a) && a.taskInput == ""
    ensures call == Sent(CompletionRequest(key, "Agent 1", PlannerPrompt(a.taskInput)))
  {
    a := Prepared(key, task);
    var launch := a.StartAgent1();
    call := ResetThenSendPlanner(a, key);
  }

  /** The reset, then the waiting stage-1 run resuming. */
  method ResetThenSendPlanner(a: DualAgent, key: string) returns (call: Call)
    requires a.waiting1 > 0 && a.apiKey == Some(key) && key != ""
    modifies a
    ensures a.taskInput == ""
    ensures call == Sent(CompletionRequest(key, "Agent 1", PlannerPrompt(a.taskInput)))
  {
    a.ResetWorkflow();
    TrimOfTrimmed(a.taskInput);
    call := a.SendAgent1();
  }

  /**
   * A reset while stage 2 waits in its delays: the run resumes after the reset and
   * sends the responder prompt with the cleared plan, which reads as the word "null".
   */
  method ResetBeforeResponderSend(key: string, task: string, planText: string, target: string)
    returns (a: DualAgent, call: Call)
    requires StorableKey(key) && IsTrimmed(task) && task != ""
    requires IsTrimmed(target) && target != ""
    ensures fresh(a) && a.plan == Null && a.waiting2 == []
    ensures call == Sent(CompletionRequest(key, "Agent 2", ResponderPrompt(Null, target)))
  {
    var first;
    a, first := Planned(key, task, planText);
    Proceed(a, target);
    TrimOfTrimmed(target);
    var launch := a.StartAgent2();
    call := ResetThenSendResponder(a, key, target);
  }

  /** The reset, then the waiting stage-2 run for `target` resuming. */
  method ResetThenSendResponder(a: DualAgent, key: string, target: string) returns (call: Call)
    requires a.waiting2 == [target] && a.apiKey == Some(key) && key != ""
    modifies a
    ensures a.plan == Null && a.waiting2 == []
    ensures call == Sent(CompletionRequest(key, "Agent 2", ResponderPrompt(Null, target)))
  {
    a.ResetWorkflow();
    call := a.SendAgent2();
  }

  /**
   * A reset while the stage-2 request is in flight: when the call settles, execute is
   * enabled again although the gate is closed and no plan exists. The target field
   * stays disabled and empty, so pressing execute only raises the target alert.
   */
  method ResetDuringResponder(key: string, task: string, planText: string, target: string,
                              outcome: Outcome, typed: string)
    returns (a: DualAgent, again: Launch)
    requires StorableKey(key) && IsTrimmed(task) && task != ""
    requires IsTrimmed(target) && target != ""
    ensures fresh(a)
    ensures !a.executeDisabled && a.proceedDisabled && a.plan == Null && !a.Gate()
    ensures again == Alerted(TargetAlert)
  {
    var first, second;
    a, first := Planned(key, task, planText);
    Proceed(a, target);
    second := Execute(a);
    again := ResetThenSettleResponder(a, outcome, typed);
  }

  /** The reset, the stage-2 request settling, a target typed, and execute pressed. */
  method ResetThenSettleResponder(a: DualAgent, outcome: Outcome, typed: string) returns (again: Launch)
    requires a.pending2 > 0
    modifies a
    ensures !a.executeDisabled && a.proceedDisabled && a.plan == Null && !a.Gate()
    ensures again == Alerted(TargetAlert)
  {
    a.ResetWorkflow();
    a.CompleteAgent2(outcome);
    a.TargetInput(typed);
    again := a.StartAgent2();
  }

  /**
   * A reset, a newly typed task and analyze, with the delays undisturbed: the reset
   * leaves the session idle, so a stage-1 request goes out over the new task, whatever
   * is still in flight.
   */
  method ResetThenReanalyze(a: DualAgent, key: string, task: string) returns (call: Call)
    requires a.apiKey == Some(key) && key != "" && IsTrimmed(task)
    modifies a
    ensures a.isProcessing && a.pending1 == old(a.pending1) + 1
    ensures call == Sent(CompletionRequest(key, "Agent 1", PlannerPrompt(task)))
  {
    a.ResetWorkflow();
    a.TaskInput(task);
    call := Analyze(a, key, task);
  }

  /**
   * A reset while the stage-1 request is in flight: the busy flag is cleared, a newly
   * typed task enables analyze, and a second stage-1 request goes out beside the first.
   * When the first settles the session reports itself idle with the second in flight.
   */
  method ResetDuringPlanner(key: string, task: string, task2: string, outcome: Outcome)
    returns (a: DualAgent, second: Call)
    requires StorableKey(key) && IsTrimmed(task) && task != ""
    requires IsTrimmed(task2) && task2 != ""
    ensures fresh(a)
    ensures second == Sent(CompletionRequest(key, "Agent 1", PlannerPrompt(task2)))
    ensures a.pending1 == 1 && !a.isProcessing && !a.Exclusive()
  {
    a := Prepared(key, task);
    var first := Analyze(a, key, task);
    second := ResetThenReanalyze(a, key, task2);
    a.CompleteAgent1(outcome);
  }
}
