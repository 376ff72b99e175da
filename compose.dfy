/** The two messages of the draft request: the system prompt assembled from
    the domain label, the chosen rule texts and the few-shot block, and the
    user message carrying the task and its context. */
module Compose {
  import opened Text

  /** The template's lines are indented by twelve spaces, as the literal is
      written inside the button handler. */
  const Indent := "            "

  /** The literal text of the system-prompt template, around its four
      values: domain label, domain rule, structure rule, few-shot block. */
  const SystemTemplate: seq<string> := [
    "\n" + Indent + "You are an Elite Prompt Engineer.\n"
      + Indent + "Goal: Rewrite user request into a Master Prompt.\n"
      + Indent + "Domain: ",
    ". Rules: ",
    "\n" + Indent + "Structure: ",
    "\n" + Indent + "If CSV examples provided: ",
    "\n" + Indent
  ]

  /** The persona and goal lines every system prompt starts with. */
  const Persona := SystemTemplate[0]

  /** The system prompt: the persona, then the domain label and its rule,
      the structure rule and the few-shot block, in that order. */
  function SystemPrompt(domainLabel: string, domainRule: string, structureRule: string, examples: string): (r: string)
    ensures OccursAt(r, Persona, 0)
    ensures InOrder(r, [domainLabel, domainRule, structureRule, examples])
    ensures |r| == TotalLength(SystemTemplate) + |domainLabel| + |domainRule| + |structureRule| + |examples|
  {
    var values := [domainLabel, domainRule, structureRule, examples];
    RenderInOrder(SystemTemplate, values);
    RenderLength(SystemTemplate, values);
    assert TotalLength(values) == |domainLabel| + |domainRule| + |structureRule| + |examples| by {
      assert values[1..] == [domainRule, structureRule, examples];
      assert [domainRule, structureRule, examples][1..] == [structureRule, examples];
      assert [structureRule, examples][1..] == [examples];
      calc {
        TotalLength(values);
        |domainLabel| + TotalLength([domainRule, structureRule, examples]);
        |domainLabel| + |domainRule| + TotalLength([structureRule, examples]);
        |domainLabel| + |domainRule| + |structureRule| + TotalLength([examples]);
      }
    }
    Render(SystemTemplate, values)
  }

  /** The user message: the task after "Task: ", then the context after
      " Context: ". Both values can be read back from their places. */
  function UserMessage(rawTask: string, context: string): (r: string)
    ensures r == "Task: " + rawTask + " Context: " + context
    ensures r[6..6 + |rawTask|] == rawTask
    ensures |r| >= |context| && r[|r| - |context|..] == context
  {
    RenderTwo("Task: ", " Context: ", "", rawTask, context);
    var r := Render(["Task: ", " Context: ", ""], [rawTask, context]);
    assert r == "Task: " + rawTask + " Context: " + context;
    r
  }
}
