/** The Master Architect's draft -> critic -> diet pipeline as a function of
    the session fields it updates, the user's settings and the model
    provider. The provider is a function from request to reply, so every
    reply is whatever the provider answers to the exact request sent. The
    run also records the requests it sent, in order. */
module Pipeline {
  import opened Text
  import opened Strategy
  import opened Compose

  datatype Role = System | User
  datatype Message = Message(role: Role, content: string)
  datatype ChatRequest = ChatRequest(model: string, messages: seq<Message>)

  /** The provider's answer to one request, or the error it raised. */
  datatype Reply = Answered(content: string) | Failed(error: string)

  /** The critic and the diet stage always use the small model. */
  const StageModel := "llama-3.1-8b-instant"
  const CriticRubric := "Critique this prompt. Rate 0-10. If < 9, improve it. Output ONLY the improved version."
  const DietInstruction := "Compress this prompt by 30% without losing meaning. Remove fluff."
  const CriticNote := "Critic improved clarity & constraints."

  /** What the user chose before pressing the button; `examples` is the
      few-shot block built from the uploaded table. */
  datatype Settings = Settings(
    apiKey: string, model: string,
    rawTask: string, context: string,
    domainLabel: string, targetLabel: string, examples: string,
    runCritic: bool, runDiet: bool)

  /** The two session fields the pipeline writes. */
  datatype Fields = Fields(masterPrompt: string, criticFeedback: string)

  /** How a press of the button ends: the missing-key error (before any
      request), all stages done, or the error a request raised, which ends
      the run where it happens. */
  datatype Outcome = MissingKey | Completed | ProviderError(message: string)

  datatype Run = Run(outcome: Outcome, fields: Fields, sent: seq<ChatRequest>)

  /** The draft request: the assembled system prompt and the user message,
      to the model the user picked. */
  function DraftRequest(s: Settings): (r: ChatRequest)
    ensures r.model == s.model && |r.messages| == 2
    ensures r.messages[0].role == System
    ensures OccursAt(r.messages[0].content, Persona, 0)
    ensures InOrder(r.messages[0].content,
      [s.domainLabel, DomainFragment(s.domainLabel), StructureFragment(s.targetLabel), s.examples])
    ensures r.messages[1] == Message(User, "Task: " + s.rawTask + " Context: " + s.context)
  {
    var system := SystemPrompt(s.domainLabel, DomainFragment(s.domainLabel), StructureFragment(s.targetLabel), s.examples);
    ChatRequest(s.model, [Message(System, system), Message(User, UserMessage(s.rawTask, s.context))])
  }

  /** The critic request: the fixed rubric, then the draft, unchanged, to
      the small model. */
  function CriticRequest(draft: string): (r: ChatRequest)
    ensures r.model == StageModel && |r.messages| == 2
    ensures r.messages[0] == Message(System, CriticRubric)
    ensures r.messages[1] == Message(User, draft)
  {
    ChatRequest(StageModel, [Message(System, CriticRubric), Message(User, draft)])
  }

  /** The diet request: the fixed compression instruction, then the current
      master prompt, unchanged, to the small model. */
  function DietRequest(current: string): (r: ChatRequest)
    ensures r.model == StageModel && |r.messages| == 2
    ensures r.messages[0] == Message(System, DietInstruction)
    ensures r.messages[1] == Message(User, current)
  {
    ChatRequest(StageModel, [Message(System, DietInstruction), Message(User, current)])
  }

  /** The critic stage on a draft: with the critic on, its reply becomes the
      master prompt whatever it says, and the feedback note is set; with it
      off, the draft becomes the master prompt and the note stays. */
  function CriticStage(f: Fields, draft: string, s: Settings, provider: ChatRequest -> Reply, sent: seq<ChatRequest>): (r: Run)
    ensures r.outcome.Completed? || r.outcome.ProviderError?
    ensures r.sent == sent + (if s.runCritic then [CriticRequest(draft)] else [])
    ensures r.outcome.ProviderError? ==>
      s.runCritic && r.fields == f && provider(CriticRequest(draft)) == Failed(r.outcome.message)
    ensures r.outcome.Completed? ==>
      if s.runCritic then provider(CriticRequest(draft)) == Answered(r.fields.masterPrompt)
      else r.fields.masterPrompt == draft
    ensures r.fields.criticFeedback == (if s.runCritic && r.outcome.Completed? then CriticNote else f.criticFeedback)
  {
    if s.runCritic then
      match provider(CriticRequest(draft))
      case Failed(e) => Run(ProviderError(e), f, sent + [CriticRequest(draft)])
      case Answered(improved) => Run(Completed, Fields(improved, CriticNote), sent + [CriticRequest(draft)])
    else Run(Completed, f.(masterPrompt := draft), sent)
  }

  /** The diet stage after a completed critic stage: with the diet on, its
      reply to the current master prompt replaces it. */
  function DietStage(r: Run, s: Settings, provider: ChatRequest -> Reply): (d: Run)
    ensures !(r.outcome.Completed? && s.runDiet) ==> d == r
    ensures r.outcome.Completed? && s.runDiet ==>
      && d.sent == r.sent + [DietRequest(r.fields.masterPrompt)]
      && (d.outcome.ProviderError? ==>
            d.fields == r.fields && provider(DietRequest(r.fields.masterPrompt)) == Failed(d.outcome.message))
      && (d.outcome.Completed? ==> provider(DietRequest(r.fields.masterPrompt)) == Answered(d.fields.masterPrompt))
    ensures d.fields.criticFeedback == r.fields.criticFeedback
  {
    if r.outcome.Completed? && s.runDiet then
      var request := DietRequest(r.fields.masterPrompt);
      match provider(request)
      case Failed(e) => Run(ProviderError(e), r.fields, r.sent + [request])
      case Answered(short) => Run(Completed, r.fields.(masterPrompt := short), r.sent + [request])
    else r
  }

  /** One press of "Architect Master Prompt". */
  function Architect(f: Fields, s: Settings, provider: ChatRequest -> Reply): (r: Run)
    ensures s.apiKey == "" ==> r == Run(MissingKey, f, [])
    ensures s.apiKey != "" ==> 1 <= |r.sent| && r.sent[0] == DraftRequest(s)
    ensures |r.sent| <= 1 + (if s.runCritic then 1 else 0) + (if s.runDiet then 1 else 0)
    ensures !s.runCritic ==> r.fields.criticFeedback == f.criticFeedback
    ensures r.outcome.ProviderError? ==>
      r.sent != [] && provider(r.sent[|r.sent| - 1]) == Failed(r.outcome.message)
    ensures r.outcome.Completed? ==>
      s.apiKey != "" && forall k :: 0 <= k < |r.sent| ==> provider(r.sent[k]).Answered?
  {
    if s.apiKey == "" then Run(MissingKey, f, [])
    else
      var request := DraftRequest(s);
      match provider(request)
      case Failed(e) => Run(ProviderError(e), f, [request])
      case Answered(draft) =>
        var critic := CriticStage(f, draft, s, provider, [request]);
        var diet := DietStage(critic, s, provider);
        assert critic.outcome.Completed? ==> forall k :: 0 <= k < |critic.sent| ==> provider(critic.sent[k]).Answered?;
        diet
  }

  /** Without an API key nothing is sent and nothing changes, whatever the
      provider would answer. */
  lemma MissingKeySendsNothing(f: Fields, s: Settings, p1: ChatRequest -> Reply, p2: ChatRequest -> Reply)
    requires s.apiKey == ""
    ensures Architect(f, s, p1) == Architect(f, s, p2) == Run(MissingKey, f, [])
  {
  }

  /** With both stages off, the master prompt is the draft reply. */
  lemma DraftOnly(f: Fields, s: Settings, provider: ChatRequest -> Reply, draft: string)
    requires s.apiKey != "" && !s.runCritic && !s.runDiet
    requires provider(DraftRequest(s)) == Answered(draft)
    ensures Architect(f, s, provider) == Run(Completed, Fields(draft, f.criticFeedback), [DraftRequest(s)])
  {
  }

  /** With the critic on, the critic's reply to the draft becomes the master
      prompt as it is (no score is read from it) and the note is set; the
      diet, when on, then compresses that reply. */
  lemma CriticThenDiet(f: Fields, s: Settings, provider: ChatRequest -> Reply, draft: string, improved: string)
    requires s.apiKey != "" && s.runCritic
    requires provider(DraftRequest(s)) == Answered(draft)
    requires provider(CriticRequest(draft)) == Answered(improved)
    ensures !s.runDiet ==>
      Architect(f, s, provider) == Run(Completed, Fields(improved, CriticNote), [DraftRequest(s), CriticRequest(draft)])
    ensures s.runDiet ==>
      Architect(f, s, provider).sent == [DraftRequest(s), CriticRequest(draft), DietRequest(improved)]
    ensures s.runDiet && provider(DietRequest(improved)).Answered? ==>
      Architect(f, s, provider) == Run(Completed,
        Fields(provider(DietRequest(improved)).content, CriticNote),
        [DraftRequest(s), CriticRequest(draft), DietRequest(improved)])
  {
  }

  /** With the critic off and the diet on, the diet compresses the draft and
      the old feedback note is kept. */
  lemma DietOnDraft(f: Fields, s: Settings, provider: ChatRequest -> Reply, draft: string, short: string)
    requires s.apiKey != "" && !s.runCritic && s.runDiet
    requires provider(DraftRequest(s)) == Answered(draft)
    requires provider(DietRequest(draft)) == Answered(short)
    ensures Architect(f, s, provider) ==
      Run(Completed, Fields(short, f.criticFeedback), [DraftRequest(s), DietRequest(draft)])
  {
  }

  /** A failing diet request keeps what the critic already wrote. */
  lemma DietFailureKeepsCritic(f: Fields, s: Settings, provider: ChatRequest -> Reply, draft: string, improved: string, e: string)
    requires s.apiKey != "" && s.runCritic && s.runDiet
    requires provider(DraftRequest(s)) == Answered(draft)
    requires provider(CriticRequest(draft)) == Answered(improved)
    requires provider(DietRequest(improved)) == Failed(e)
    ensures Architect(f, s, provider).outcome == ProviderError(e)
    ensures Architect(f, s, provider).fields == Fields(improved, CriticNote)
  {
  }

  /** A failing critic request ends the run before either field is
      written. */
  lemma CriticFailureChangesNothing(f: Fields, s: Settings, provider: ChatRequest -> Reply, draft: string, e: string)
    requires s.apiKey != "" && s.runCritic
    requires provider(DraftRequest(s)) == Answered(draft)
    requires provider(CriticRequest(draft)) == Failed(e)
    ensures Architect(f, s, provider) == Run(ProviderError(e), f, [DraftRequest(s), CriticRequest(draft)])
  {
  }

  /** With the critic off, the draft is already the master prompt when the
      diet request is sent, so a failing diet request leaves the draft there
      and the old note in place. */
  lemma DietFailureKeepsDraft(f: Fields, s: Settings, provider: ChatRequest -> Reply, draft: string, e: string)
    requires s.apiKey != "" && !s.runCritic && s.runDiet
    requires provider(DraftRequest(s)) == Answered(draft)
    requires provider(DietRequest(draft)) == Failed(e)
    ensures Architect(f, s, provider) ==
      Run(ProviderError(e), Fields(draft, f.criticFeedback), [DraftRequest(s), DietRequest(draft)])
  {
  }

  /** The critic and the diet requests are never the same request, whatever
      text they carry, so the provider can answer them differently. */
  lemma StageRequestsDiffer(draft: string, current: string)
    ensures CriticRequest(draft) != DietRequest(current)
  {
    assert |CriticRubric| != |DietInstruction|;
  }

  /** A failing draft request changes nothing. */
  lemma DraftFailureChangesNothing(f: Fields, s: Settings, provider: ChatRequest -> Reply, e: string)
    requires s.apiKey != ""
    requires provider(DraftRequest(s)) == Failed(e)
    ensures Architect(f, s, provider) == Run(ProviderError(e), f, [DraftRequest(s)])
  {
  }
}
