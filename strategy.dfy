/** The strategy selector of the Master Architect: substring tests on the
    chosen domain label and target label pick one rule text each. */
module Strategy {
  import opened Text

  const CodingRule := "Include error handling, comments, and efficiency checks."
  const CreativeRule := "Use 'Show Don't Tell', avoid AI clichés, ensure unique voice."
  const XmlRule := "Use XML tags (<role>, <task>, <constraints>)."
  const MarkdownRule := "Use Markdown headers (# Identity, # Steps)."

  /** The options of the "Domain Strategy" select box. The emoji are written
      as code points: technologist (man, zero-width joiner, laptop), writing
      hand with variation selector, bar chart. */
  const GeneralLabel := "General"
  const CodingLabel := "\U{1F468}\U{200D}\U{1F4BB} Coding"
  const CreativeLabel := "\U{270D}\U{FE0F} Creative Writing"
  const DataAnalysisLabel := "\U{1F4CA} Data Analysis"

  /** The options of the "Target AI Structure" radio group. */
  const GeminiLabel := "Gemini (XML)"
  const GptLabel := "GPT-5 (Markdown)"

  /** The domain rule: empty by default, overwritten when the label mentions
      "Coding", then overwritten again when it mentions "Creative". */
  function DomainFragment(domain: string): (r: string)
    ensures Contains(domain, "Creative") ==> r == CreativeRule
    ensures !Contains(domain, "Creative") && Contains(domain, "Coding") ==> r == CodingRule
    ensures r == "" <==> !Contains(domain, "Creative") && !Contains(domain, "Coding")
  {
    var rule := "";
    var rule := if Contains(domain, "Coding") then CodingRule else rule;
    if Contains(domain, "Creative") then CreativeRule else rule
  }

  /** The structure rule: XML tags for a Gemini target, Markdown headers for
      every other target. */
  function StructureFragment(target: string): (r: string)
    ensures r != ""
    ensures r == XmlRule <==> Contains(target, "Gemini")
    ensures r == MarkdownRule <==> !Contains(target, "Gemini")
  {
    if Contains(target, "Gemini") then XmlRule else MarkdownRule
  }

  /** "General" carries no domain rule. */
  lemma GeneralHasNoRule()
    ensures DomainFragment(GeneralLabel) == ""
  {
    MissingCharNotContained(GeneralLabel, "Coding", 'C');
    MissingCharNotContained(GeneralLabel, "Creative", 'C');
  }

  /** The Coding option selects the error-handling rule. */
  lemma CodingOptionRule()
    ensures DomainFragment(CodingLabel) == CodingRule
  {
    OccursAtContains(CodingLabel, "Coding", 4);
    MissingCharNotContained(CodingLabel, "Creative", 'r');
  }

  /** The Creative Writing option selects the "Show Don't Tell" rule. */
  lemma CreativeOptionRule()
    ensures DomainFragment(CreativeLabel) == CreativeRule
  {
    OccursAtContains(CreativeLabel, "Creative", 3);
  }

  /** The Data Analysis option carries no domain rule. */
  lemma DataAnalysisHasNoRule()
    ensures DomainFragment(DataAnalysisLabel) == ""
  {
    MissingCharNotContained(DataAnalysisLabel, "Coding", 'C');
    MissingCharNotContained(DataAnalysisLabel, "Creative", 'C');
  }

  /** What each offered target selects. */
  lemma TargetOptions()
    ensures StructureFragment(GeminiLabel) == XmlRule
    ensures StructureFragment(GptLabel) == MarkdownRule
  {
    OccursAtContains(GeminiLabel, "Gemini", 0);
    MissingCharNotContained(GptLabel, "Gemini", 'e');
  }

  /** A domain label mentioning both "Coding" and "Creative" gets the Creative rule,
      because that test runs last. */
  lemma CreativeWins(domain: string)
    requires Contains(domain, "Coding") && Contains(domain, "Creative")
    ensures DomainFragment(domain) == CreativeRule
  {
  }
}
