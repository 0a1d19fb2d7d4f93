/**
 * The two prompt builders of `DualAgent`, and readers that take a built prompt apart
 * again, so that "embeds the text verbatim" is stated as a round trip.
 */
module Prompts {
  import opened Wrappers

  /** The stage-1 prompt up to the opening quote around the task. */
  const PlannerHead :=
    "You are Agent 1 (Planner) in a two-agent workflow. Your "
    + "role is to analyze high-level tasks and create structured, "
    + "detailed plans for Agent 2 to execute.\n"
    + "\n"
    + "TASK TO ANALYZE: \""

  /** The stage-1 prompt from the closing quote after the task: the five mandated sections. */
  const PlannerTail :=
    "\"\n"
    + "\n"
    + "Please analyze this task and provide:\n"
    + "\n"
    + "1. **TASK BREAKDOWN**: Break down the high-level task into "
    + "specific components and focus areas\n"
    + "2. **KEY CRITERIA**: What are the most important criteria "
    + "to evaluate or analyze?\n"
    + "3. **STRUCTURED PLAN**: Create a detailed action plan that "
    + "Agent 2 can use to analyze any specific target/subject\n"
    + "4. **OUTPUT FORMAT**: Specify how Agent 2 should structure "
    + "its response\n"
    + "5. **CONSTRAINTS**: Any limitations or boundaries Agent 2 "
    + "should observe\n"
    + "\n"
    + "Format your response as a clear, structured plan that Agent "
    + "2 can directly use. The plan should be comprehensive enough "
    + "that Agent 2 can provide detailed, actionable analysis of "
    + "any specific target provided to it.\n"
    + "\n"
    + "Make sure the structured plan is:\n"
    + "- Specific and actionable\n"
    + "- Comprehensive in scope\n"
    + "- Clear in its requirements\n"
    + "- Professional in tone\n"
    + "- Results-oriented\n"
    + "\n"
    + "Your output will be passed directly to Agent 2 along with a "
    + "specific target/subject to analyze."

  /** `createAgent1Prompt(userTask)`: the task spliced between head and tail. */
  function PlannerPrompt(task: string): string
  {
    PlannerHead + task + PlannerTail
  }

  /** The stage-1 prompt is the fixed head, then the task verbatim, then the fixed tail. */
  lemma PlannerPromptParts(task: string)
    ensures var p := PlannerPrompt(task);
      && |p| == |PlannerHead| + |task| + |PlannerTail|
      && p[..|PlannerHead|] == PlannerHead
      && p[|PlannerHead|..|PlannerHead| + |task|] == task
      && p[|PlannerHead| + |task|..] == PlannerTail
  {
  }

  /** Reads the task back out of a stage-1 prompt; None if the text is not one. */
  function PlannerTask(p: string): Option<string>
  {
    if |p| >= |PlannerHead| + |PlannerTail|
       && p[..|PlannerHead|] == PlannerHead
       && p[|p| - |PlannerTail|..] == PlannerTail
    then Some(p[|PlannerHead|..|p| - |PlannerTail|])
    else None
  }

  /** Reading a built stage-1 prompt gives back exactly the task that went in. */
  lemma PlannerTaskRoundTrip(task: string)
    ensures PlannerTask(PlannerPrompt(task)) == Some(task)
  {
    var p := PlannerPrompt(task);
    assert |p| - |PlannerTail| == |PlannerHead| + |task|;
  }

  /** Two tasks give the same stage-1 prompt only if they are the same task. */
  lemma PlannerPromptInjective(t1: string, t2: string)
    requires PlannerPrompt(t1) == PlannerPrompt(t2)
    ensures t1 == t2
  {
    PlannerTaskRoundTrip(t1);
    PlannerTaskRoundTrip(t2);
  }

  /**
   * The field `agent1OutputData`: never assigned until stage 1 first succeeds, `null`
   * after a workflow reset, otherwise the plan text.
   */
  datatype PlanValue = Undefined | Null | Text(text: string)

  /** How a template literal renders the field: `${undefined}` and `${null}` are words. */
  function PlanText(plan: PlanValue): string
  {
    match plan
    case Undefined => "undefined"
    case Null => "null"
    case Text(t) => t
  }

  /** The stage-2 prompt up to the plan. */
  const ResponderHead :=
    "You are Agent 2 (Responder) in a two-agent workflow. You "
    + "will receive a structured plan from Agent 1 and execute it "
    + "on a specific target.\n"
    + "\n"
    + "STRUCTURED PLAN FROM AGENT 1:\n"
  /** Between the plan and the opening quote around the target. */
  const ResponderMiddle :=
    "\n"
    + "\n"
    + "TARGET/SUBJECT TO ANALYZE: \""
  /** From the closing quote after the target. */
  const ResponderClosing :=
    "\"\n"
    + "\n"
    + "Please execute the structured plan above on the specified "
    + "target. Follow all the guidelines, criteria, and format "
    + "requirements provided by Agent 1. Provide a comprehensive, "
    + "detailed analysis that directly addresses all the points "
    + "outlined in the structured plan.\n"
    + "\n"
    + "Be thorough, factual, and actionable in your response."

  /** Everything of the stage-2 prompt after the plan: the target in quotes, then the suffix. */
  function ResponderTail(target: string): string
  {
    ResponderMiddle + target + ResponderClosing
  }

  /**
   * `createAgent2Prompt(target)`, which reads `agent1OutputData`: the fixed head, the
   * plan as the template renders it, the fixed middle, the target in quotes, the
   * fixed suffix. Nothing checks that a plan exists.
   */
  function ResponderPrompt(plan: PlanValue, target: string): string
  {
    ResponderHead + PlanText(plan) + ResponderTail(target)
  }

  /**
   * The stage-2 prompt is the fixed head, the rendered plan verbatim, the fixed middle,
   * the target verbatim between quotes, then the fixed suffix.
   */
  lemma ResponderPromptParts(plan: PlanValue, target: string)
    ensures var p := ResponderPrompt(plan, target);
      var k := |ResponderHead| + |PlanText(plan)| + |ResponderMiddle|;
      && |p| == k + |target| + |ResponderClosing|
      && p[..|ResponderHead|] == ResponderHead
      && p[|ResponderHead|..|ResponderHead| + |PlanText(plan)|] == PlanText(plan)
      && p[|ResponderHead| + |PlanText(plan)|..k] == ResponderMiddle
      && p[k..k + |target|] == target
      && p[k + |target|..] == ResponderClosing
  {
    FiveParts(ResponderHead, PlanText(plan), ResponderMiddle, target, ResponderClosing);
  }

  /** Where each of five concatenated strings sits in the whole. */
  lemma FiveParts(a: string, b: string, c: string, d: string, e: string)
    ensures var p := a + b + (c + d + e);
      var k := |a| + |b| + |c|;
      && |p| == k + |d| + |e|
      && p[..|a|] == a
      && p[|a|..|a| + |b|] == b
      && p[|a| + |b|..k] == c
      && p[k..k + |d|] == d
      && p[k + |d|..] == e
  {
    var p := a + b + (c + d + e);
    var k := |a| + |b| + |c|;
    assert p[|a| + |b|..] == c + d + e;
    assert p[k..] == d + e;
  }

  /** Reads the plan text back out of a stage-2 prompt built for `target`. */
  function ResponderPlan(p: string, target: string): Option<string>
  {
    var tail := ResponderTail(target);
    if |p| >= |ResponderHead| + |tail|
       && p[..|ResponderHead|] == ResponderHead
       && p[|p| - |tail|..] == tail
    then Some(p[|ResponderHead|..|p| - |tail|])
    else None
  }

  /** Reading a built stage-2 prompt gives back exactly the rendered plan. */
  lemma ResponderPlanRoundTrip(plan: PlanValue, target: string)
    ensures ResponderPlan(ResponderPrompt(plan, target), target) == Some(PlanText(plan))
  {
    var p := ResponderPrompt(plan, target);
    assert |p| - |ResponderTail(target)| == |ResponderHead| + |PlanText(plan)|;
  }

  /**
   * For one target, the stage-2 prompt determines the rendered plan: whatever text a
   * save put in the field is what the next prompt carries, and nothing of the text it
   * replaced. An absent plan is indistinguishable from the plan text "null".
   */
  lemma ResponderPromptDeterminesPlan(p1: PlanValue, p2: PlanValue, target: string)
    ensures ResponderPrompt(p1, target) == ResponderPrompt(p2, target) <==> PlanText(p1) == PlanText(p2)
  {
    ResponderPlanRoundTrip(p1, target);
    ResponderPlanRoundTrip(p2, target);
  }

  /** Two plan texts give the same stage-2 prompt for a target only if they are the same text. */
  lemma PlanTextsDistinguished(t1: string, t2: string, target: string)
    ensures ResponderPrompt(Text(t1), target) == ResponderPrompt(Text(t2), target) <==> t1 == t2
  {
    ResponderPromptDeterminesPlan(Text(t1), Text(t2), target);
  }

  /**
   * Nothing checks the plan before it is embedded: a cleared plan goes out as the word
   * "null" and a never-set plan as the word "undefined", exactly as if the model had
   * answered with that word.
   */
  lemma MissingPlanReadsAsWord(target: string)
    ensures ResponderPrompt(Null, target) == ResponderPrompt(Text("null"), target)
    ensures ResponderPrompt(Undefined, target) == ResponderPrompt(Text("undefined"), target)
    ensures ResponderPrompt(Null, target) != ResponderPrompt(Undefined, target)
  {
    ResponderPromptDeterminesPlan(Null, Undefined, target);
  }
}
