/**
 * The page as the browser drives it: any sequence of user actions, elapsed delays and
 * settling requests, each delivered to `DualAgent` only when the page can deliver it
 * (a click reaches an enabled button, the editor's buttons exist only while it is
 * open, a run resumes only while it waits in its delays, a request settles only while
 * it is in flight). Whatever the order, a stored key is always one `processApiKey`
 * accepted, and every stage-2 request is the prompt over the plan and target it was
 * built from, sent with such a key. Every stage-2 request carries a plan text, and the
 * stage invariant holds, as long as no reset lands in the middle of a stage.
 */
module Session {
  import opened Wrappers
  import opened Credential
  import opened Api
  import opened Prompts
  import opened Workflow

  /** One thing that can happen on the page. */
  datatype Event =
    | KeyTyped(key: string)
    | KeyCommitted
    | TestClicked
    | TestSettled(testOutcome: Outcome)
    | TaskTyped(task: string)
    | AnalyzeClicked
    | PlannerResumed
    | PlannerSettled(plannerOutcome: Outcome)
    | EditClicked
    | SaveClicked(edited: string)
    | CancelClicked
    | ProceedClicked
    | TargetTyped(target: string)
    | ExecuteClicked
    | ResponderResumed
    | ResponderSettled(responderOutcome: Outcome)
    | ResetClicked

  /**
   * A stage-2 request as it went out: the request itself, the plan value it embedded
   * and the target it was built for.
   */
  datatype Stage2Request = Stage2Request(request: Request, plan: PlanValue, target: string)

  /** `sent` was built by `createAgent2Prompt` from its own plan and target, and sent with `key`. */
  predicate BuiltFrom(sent: Stage2Request, key: string)
  {
    sent.request == CompletionRequest(key, "Agent 2", ResponderPrompt(sent.plan, sent.target))
  }

  /** Key field, key test and task field: events that touch neither stage. */
  method DispatchInput(a: DualAgent, e: Event)
    requires e.KeyTyped? || e.KeyCommitted? || e.TestClicked? || e.TestSettled? || e.TaskTyped?
    modifies a
    ensures old(a.KeyInvariant()) ==> a.KeyInvariant()
    ensures old(a.PlanGuard()) ==> a.PlanGuard()
    ensures old(a.SendGuard()) ==> a.SendGuard()
    ensures old(a.Valid()) ==> a.Valid()
    ensures a.stage2Sent == old(a.stage2Sent)
  {
    match e {
      case KeyTyped(key) =>
        var notice := a.HandleKeyInput(key);
      case KeyCommitted =>
        var notice := a.ProcessApiKey();
      case TestClicked =>
        if !a.testKeyDisabled {
          var notice, request := a.StartKeyTest();
        }
      case TestSettled(outcome) =>
        if a.pendingTests > 0 {
          var notice := a.CompleteKeyTest(outcome);
        }
      case TaskTyped(task) =>
        a.TaskInput(task);
    }
  }

  /** Stage 1 and its editor. */
  method DispatchPlanner(a: DualAgent, e: Event)
    requires e.AnalyzeClicked? || e.PlannerResumed? || e.PlannerSettled? || e.EditClicked?
          || e.SaveClicked? || e.CancelClicked?
    modifies a
    ensures old(a.KeyInvariant()) ==> a.KeyInvariant()
    ensures old(a.PlanGuard()) ==> a.PlanGuard()
    ensures old(a.SendGuard()) ==> a.SendGuard()
    ensures old(a.Valid()) ==> a.Valid()
    ensures a.stage2Sent == old(a.stage2Sent)
  {
    match e {
      case AnalyzeClicked =>
        if !a.analyzeDisabled {
          var launch := a.StartAgent1();
        }
      case PlannerResumed =>
        if a.waiting1 > 0 {
          var call := a.SendAgent1();
        }
      case PlannerSettled(outcome) =>
        if a.pending1 > 0 {
          a.CompleteAgent1(outcome);
        }
      case EditClicked =>
        if !a.editDisabled {
          a.EditAgent1Output();
        }
      case SaveClicked(edited) =>
        if a.planPanel.Editing? {
          a.SaveEdit(edited);
        }
      case CancelClicked =>
        if a.planPanel.Editing? {
          a.CancelEdit();
        }
    }
  }

  /** The proceed button and the target field. */
  method DispatchGate(a: DualAgent, e: Event)
    requires e.ProceedClicked? || e.TargetTyped?
    modifies a
    ensures old(a.KeyInvariant()) ==> a.KeyInvariant()
    ensures old(a.PlanGuard()) ==> a.PlanGuard()
    ensures old(a.SendGuard()) ==> a.SendGuard()
    ensures old(a.Valid()) ==> a.Valid()
    ensures a.stage2Sent == old(a.stage2Sent)
  {
    match e {
      case ProceedClicked =>
        if !a.proceedDisabled {
          a.EnableAgent2();
        }
      case TargetTyped(target) =>
        a.TargetInput(target);
    }
  }

  /**
   * Stage 2 up to its request. `sent` is the stage-2 request this event sent, if any:
   * one goes out exactly when a waiting run resumes with a key stored, built over the
   * plan as it is then and the oldest waiting target.
   */
  method DispatchResponder(a: DualAgent, e: Event) returns (sent: Option<Stage2Request>)
    requires e.ExecuteClicked? || e.ResponderResumed?
    modifies a
    ensures old(a.KeyInvariant()) ==> a.KeyInvariant()
    ensures old(a.PlanGuard()) ==> a.PlanGuard()
    ensures old(a.PlanGuard() && a.SendGuard()) ==> a.SendGuard()
    ensures old(a.Valid()) ==> a.Valid()
    ensures sent.Some? <==> e.ResponderResumed? && |old(a.waiting2)| > 0 && a.HasKey()
    ensures sent.Some? ==>
      && sent.value.plan == a.plan && sent.value.target == old(a.waiting2)[0]
      && BuiltFrom(sent.value, a.apiKey.value)
    ensures old(a.SendGuard()) && sent.Some? ==> sent.value.plan.Text?
    ensures a.stage2Sent == old(a.stage2Sent) + (if sent.Some? then [sent.value.request] else [])
  {
    sent := None;
    match e {
      case ExecuteClicked =>
        if !a.executeDisabled {
          var launch := a.StartAgent2();
        }
      case ResponderResumed =>
        if |a.waiting2| > 0 {
          var target := a.waiting2[0];
          var call := a.SendAgent2();
          if call.Sent? {
            sent := Some(Stage2Request(call.request, a.plan, target));
          }
        }
    }
  }

  /** A stage-2 request settling, and the reset button. */
  method DispatchEnd(a: DualAgent, e: Event)
    requires e.ResponderSettled? || e.ResetClicked?
    modifies a
    ensures old(a.KeyInvariant()) ==> a.KeyInvariant()
    ensures old(a.PlanGuard()) ==> a.PlanGuard()
    ensures old(a.SendGuard()) && !(e.ResetClicked? && |old(a.waiting2)| > 0) ==> a.SendGuard()
    ensures old(a.Valid()) && (e.ResetClicked? ==> old(a.InFlight()) == 0) ==> a.Valid()
    ensures a.stage2Sent == old(a.stage2Sent)
  {
    match e {
      case ResponderSettled(outcome) =>
        if a.pending2 > 0 {
          a.CompleteAgent2(outcome);
        }
      case ResetClicked =>
        a.ResetWorkflow();
    }
  }

  /**
   * Delivers one event, or drops it when the page could not deliver it. Only a reset
   * while a stage-2 run waits in its delays breaks the send guard, and only a reset
   * while any stage run is unfinished breaks the invariant. `sent` is the stage-2
   * request the event sent, if any.
   */
  method Dispatch(a: DualAgent, e: Event) returns (sent: Option<Stage2Request>)
    modifies a
    ensures old(a.KeyInvariant()) ==> a.KeyInvariant()
    ensures old(a.PlanGuard()) ==> a.PlanGuard()
    ensures old(a.PlanGuard() && a.SendGuard()) && !(e.ResetClicked? && |old(a.waiting2)| > 0) ==>
      a.SendGuard()
    ensures old(a.Valid()) && (e.ResetClicked? ==> old(a.InFlight()) == 0) ==> a.Valid()
    ensures sent.Some? <==> e.ResponderResumed? && |old(a.waiting2)| > 0 && a.HasKey()
    ensures sent.Some? ==>
      && sent.value.plan == a.plan && sent.value.target == old(a.waiting2)[0]
      && BuiltFrom(sent.value, a.apiKey.value)
    ensures old(a.SendGuard()) && sent.Some? ==> sent.value.plan.Text?
    ensures a.stage2Sent == old(a.stage2Sent) + (if sent.Some? then [sent.value.request] else [])
  {
    sent := None;
    if e.KeyTyped? || e.KeyCommitted? || e.TestClicked? || e.TestSettled? || e.TaskTyped? {
      DispatchInput(a, e);
    } else if e.AnalyzeClicked? || e.PlannerResumed? || e.PlannerSettled? || e.EditClicked?
           || e.SaveClicked? || e.CancelClicked? {
      DispatchPlanner(a, e);
    } else if e.ProceedClicked? || e.TargetTyped? {
      DispatchGate(a, e);
    } else if e.ExecuteClicked? || e.ResponderResumed? {
      sent := DispatchResponder(a, e);
    } else {
      DispatchEnd(a, e);
    }
  }

  /**
   * A whole session from page load: the events in order, in any interleaving.
   * `requests` are the stage-2 requests that went out, in order; `raced` says whether
   * a reset was delivered while a stage-2 run waited in its delays, `interrupted`
   * whether one was delivered while any stage run was unfinished. A stored key is
   * always one that was accepted, and every stage-2 request was built by the prompt
   * builder and sent with an accepted key. Without a race the send guard holds and
   * every stage-2 request embeds a plan text; without an interruption the invariant
   * holds at the end.
   */
  method Run(events: seq<Event>)
    returns (a: DualAgent, requests: seq<Stage2Request>, raced: bool, interrupted: bool)
    ensures fresh(a)
    ensures a.KeyInvariant() && a.PlanGuard()
    ensures forall i :: 0 <= i < |requests| ==>
      StorableKey(requests[i].request.bearer) && BuiltFrom(requests[i], requests[i].request.bearer)
    ensures !raced ==> a.SendGuard()
    ensures !raced ==> forall i :: 0 <= i < |requests| ==> requests[i].plan.Text?
    ensures !interrupted ==> a.Valid()
    ensures raced ==> interrupted
    ensures |requests| == |a.stage2Sent|
    ensures forall i :: 0 <= i < |requests| ==> requests[i].request == a.stage2Sent[i]
  {
    a := new DualAgent();
    requests := [];
    raced, interrupted := false, false;
    var k := 0;
    while k < |events|
      invariant 0 <= k <= |events|
      invariant a.KeyInvariant() && a.PlanGuard()
      invariant forall i :: 0 <= i < |requests| ==>
        StorableKey(requests[i].request.bearer) && BuiltFrom(requests[i], requests[i].request.bearer)
      invariant !raced ==> a.SendGuard()
      invariant !raced ==> forall i :: 0 <= i < |requests| ==> requests[i].plan.Text?
      invariant !interrupted ==> a.Valid()
      invariant raced ==> interrupted
      invariant |requests| == |a.stage2Sent|
      invariant forall i :: 0 <= i < |requests| ==> requests[i].request == a.stage2Sent[i]
    {
      var e := events[k];
      if e.ResetClicked? && |a.waiting2| > 0 {
        raced := true;
      }
      if e.ResetClicked? && a.InFlight() > 0 {
        interrupted := true;
      }
      var sent := Dispatch(a, e);
      if sent.Some? {
        requests := requests + [sent.value];
      }
      k := k + 1;
    }
  }
}
