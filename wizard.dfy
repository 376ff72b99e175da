/** The Variable Wizard: when enabled, one text input per placeholder found
    in the final prompt, each keyed "var_" followed by the placeholder's
    name. Widget keys must be unique on a page. */
module Wizard {
  import opened Text
  import opened Placeholders

  /** The widget key of the field for placeholder `name`. */
  function WidgetKey(name: string): (r: string)
    ensures |r| == |name| + 4 && r[4..] == name
  {
    "var_" + name
  }

  /** The names the wizard makes fields for, as the code computes them: every
      placeholder occurrence, repeats included; nothing when it is off. */
  function WizardFieldsAsWritten(prompt: string, enabled: bool): (r: seq<string>)
    ensures !enabled ==> r == []
    ensures forall v :: v in r ==> '\n' !in v && Contains(prompt, "{{" + v + "}}")
  {
    if enabled then FindAll(prompt) else []
  }

  /** The position of the first `x` in `s`. */
  function FirstIndex(s: seq<string>, x: string): (r: nat)
    requires x in s
    ensures r < |s| && s[r] == x && x !in s[..r]
  {
    if s[0] == x then 0
    else
      var r := 1 + FirstIndex(s[1..], x);
      assert s[..r] == [s[0]] + s[1..][..r - 1];
      r
  }

  /** `s` with every repeat dropped, keeping first occurrences in order. */
  function Distinct(s: seq<string>): (r: seq<string>)
    ensures forall x :: x in r <==> x in s
    ensures forall i, j :: 0 <= i < j < |r| ==> r[i] != r[j]
  {
    if s == [] then []
    else
      var d := Distinct(s[..|s| - 1]);
      var last := s[|s| - 1];
      assert s == s[..|s| - 1] + [last];
      if last in d then d else d + [last]
  }

  /** The first occurrence of a name in a prefix is its first occurrence in
      the whole sequence. */
  lemma FirstIndexInPrefix(s: seq<string>, n: nat, x: string)
    requires n <= |s| && x in s[..n]
    ensures FirstIndex(s, x) == FirstIndex(s[..n], x)
  {
  }

  /** The distinct names come in the order of their first occurrence. */
  lemma {:induction false} DistinctFirstSeenOrder(s: seq<string>)
    ensures forall i, j :: 0 <= i < j < |Distinct(s)| ==>
      FirstIndex(s, Distinct(s)[i]) < FirstIndex(s, Distinct(s)[j])
  {
    if s != [] {
      var pre := s[..|s| - 1];
      var d := Distinct(pre);
      var last := s[|s| - 1];
      DistinctFirstSeenOrder(pre);
      forall x | x in d
        ensures FirstIndex(s, x) == FirstIndex(pre, x) < |pre|
      {
        FirstIndexInPrefix(s, |s| - 1, x);
      }
      if last !in d {
        assert last !in pre;
        assert FirstIndex(s, last) == |pre| by {
          assert s[..|pre|] == pre;
        }
      }
    }
  }

  /** The wizard's fields once repeats are dropped: one field per distinct
      placeholder name, in first-seen order; nothing when it is off. */
  function WizardFields(prompt: string, enabled: bool): (r: seq<string>)
    ensures forall x :: x in r <==> enabled && x in FindAll(prompt)
    ensures forall i, j :: 0 <= i < j < |r| ==> WidgetKey(r[i]) != WidgetKey(r[j])
  {
    var r := if enabled then Distinct(FindAll(prompt)) else [];
    assert forall i, j :: 0 <= i < j < |r| ==> WidgetKey(r[i])[4..] != WidgetKey(r[j])[4..];
    r
  }

  /** The distinct fields follow the first appearance of each name. */
  lemma WizardFieldsInFirstSeenOrder(prompt: string)
    ensures forall i, j :: 0 <= i < j < |WizardFields(prompt, true)| ==>
      FirstIndex(FindAll(prompt), WizardFields(prompt, true)[i])
        < FirstIndex(FindAll(prompt), WizardFields(prompt, true)[j])
  {
    DistinctFirstSeenOrder(FindAll(prompt));
  }

  /** A prompt without `{{` produces no wizard field, either way. */
  lemma NoBracesNoFields(prompt: string, enabled: bool)
    requires !Contains(prompt, "{{")
    ensures WizardFieldsAsWritten(prompt, enabled) == []
    ensures WizardFields(prompt, enabled) == []
  {
    NoOpenBracesNoPlaceholders(prompt);
  }

  /** The scan keeps repeats: each occurrence of a name is reported. */
  lemma RepeatsAreReported()
    ensures FindAll("{{a}} {{b}} {{a}}") == ["a", "b", "a"]
  {
    ScanExample("{{a}} {{b}} {{a}}");
  }

  /** The example above, for a text not written as a literal (so that the
      verifier takes the scan one step at a time). */
  lemma ScanExample(t: string)
    requires t == "{{a}} {{b}} {{a}}"
    ensures Scan(t, 0) == ["a", "b", "a"]
  {
    ScanExampleFrom5(t);
    OneCharMatch(t, 0, 'a');
    ScanTakes(t, 0, 1);
    assert t[2..3] == "a";
  }

  /** The example scanned from position 5: the `b`, then the second `a`. */
  lemma ScanExampleFrom5(t: string)
    requires t == "{{a}} {{b}} {{a}}"
    ensures Scan(t, 5) == ["b", "a"]
  {
    ScanExampleFrom11(t);
    NotOpenNoMatch(t, 5);
    ScanSkips(t, 5);
    OneCharMatch(t, 6, 'b');
    ScanTakes(t, 6, 1);
    assert t[8..9] == "b";
  }

  /** The example scanned from position 11: the second `a`. */
  lemma ScanExampleFrom11(t: string)
    requires t == "{{a}} {{b}} {{a}}"
    ensures Scan(t, 11) == ["a"]
  {
    NotOpenNoMatch(t, 11);
    ScanSkips(t, 11);
    OneCharMatch(t, 12, 'a');
    ScanTakes(t, 12, 1);
    assert t[14..15] == "a";
    assert Scan(t, 17) == [];
  }

  /** As written, a name used twice gets two fields with the same widget
      key. */
  lemma RepeatedNameDuplicatesKey()
    ensures var fields := WizardFieldsAsWritten("{{a}} {{a}}", true);
      |fields| == 2 && WidgetKey(fields[0]) == WidgetKey(fields[1])
  {
    var t := "{{a}} {{a}}";
    OneCharMatch(t, 6, 'a');
    ScanTakes(t, 6, 1);
    assert Scan(t, 6) == ["a"] by {
      assert t[8..9] == "a";
      assert Scan(t, 11) == [];
    }
    NotOpenNoMatch(t, 5);
    ScanSkips(t, 5);
    OneCharMatch(t, 0, 'a');
    ScanTakes(t, 0, 1);
    assert t[2..3] == "a";
  }
}
