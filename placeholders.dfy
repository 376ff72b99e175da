/** The placeholder scanner: `re.findall(r'\{\{(.*?)\}\}', text)` written as
    a left-to-right scan with the semantics of Python's `re`. At each
    position an opening `{{` is tried; the lazy `.*?` takes the fewest
    characters after which `}}` follows, and `.` never takes a line feed.
    A match resumes the scan after its closing braces, so matches do not
    overlap; a failed attempt moves on by one character. */
module Placeholders {
  import opened Text

  datatype Option<T> = None | Some(value: T)

  /** Reference definition: a match starts at `i` and captures the `k`
      characters after the opening braces. They hold no line feed, the
      closing braces follow them, and no shorter capture is followed by
      closing braces (the lazy quantifier stops at the first chance). */
  ghost predicate MatchAt(text: string, i: nat, k: nat)
  {
    && OccursAt(text, "{{", i)
    && OccursAt(text, "}}", i + 2 + k)
    && '\n' !in text[i + 2..i + 2 + k]
    && forall p :: i + 2 <= p < i + 2 + k ==> !OccursAt(text, "}}", p)
  }

  /** Some match starts at `i`. */
  ghost predicate HasMatchAt(text: string, i: nat)
  {
    exists k: nat :: MatchAt(text, i, k)
  }

  /** The position of the first `}}` at or after `j`, provided no line feed
      comes before it; `None` when a line feed or the end of the text comes
      first. */
  function FindClose(text: string, j: nat): (r: Option<nat>)
    decreases |text| - j
    ensures r.Some? ==>
      && j <= r.value
      && OccursAt(text, "}}", r.value)
      && '\n' !in text[j..r.value]
      && forall p :: j <= p < r.value ==> !OccursAt(text, "}}", p)
    ensures r.None? ==> forall p: nat :: j <= p && OccursAt(text, "}}", p) ==> '\n' in text[j..p]
  {
    if j + 2 > |text| then None
    else if text[j] == '}' && text[j + 1] == '}' then Some(j)
    else if text[j] == '\n' then None
    else FindClose(text, j + 1)
  }

  /** After an opening `{{` at `i`, the closing brace search finds exactly
      the lazy match of the reference definition. */
  lemma FindCloseIsLazyMatch(text: string, i: nat, k: nat)
    requires OccursAt(text, "{{", i)
    ensures MatchAt(text, i, k) <==> FindClose(text, i + 2) == Some(i + 2 + k)
  {
  }

  /** A match starts at an opening `{{` exactly when the closing brace
      search succeeds. */
  lemma MatchIffClose(text: string, i: nat)
    requires OccursAt(text, "{{", i)
    ensures HasMatchAt(text, i) <==> FindClose(text, i + 2).Some?
  {
    if FindClose(text, i + 2).Some? {
      var k: nat := FindClose(text, i + 2).value - (i + 2);
      FindCloseIsLazyMatch(text, i, k);
      assert MatchAt(text, i, k);
    }
    if HasMatchAt(text, i) {
      var k: nat :| MatchAt(text, i, k);
      FindCloseIsLazyMatch(text, i, k);
    }
  }

  /** What one capture satisfies: no line feed, no `}}` inside it, and the
      capture wrapped in braces is a piece of the text. */
  lemma CaptureFacts(text: string, i: nat, p: nat)
    requires OccursAt(text, "{{", i)
    requires FindClose(text, i + 2) == Some(p)
    ensures '\n' !in text[i + 2..p]
    ensures !Contains(text[i + 2..p], "}}")
    ensures OccursAt(text, "{{" + text[i + 2..p] + "}}", i)
  {
    var v := text[i + 2..p];
    forall q: nat | OccursAt(v, "}}", q)
      ensures OccursAt(text, "}}", i + 2 + q)
    {
      assert v[q..q + 2] == text[i + 2 + q..i + 4 + q];
    }
    assert text[i..p + 2] == text[i..i + 2] + v + text[p..p + 2];
  }

  /** The captures of the matches found from position `i` on, in order.
      Matches do not overlap and each spans at least the four braces, so
      there are at most a quarter as many captures as characters left. */
  function Scan(text: string, i: nat): (r: seq<string>)
    ensures i <= |text| ==> 4 * |r| <= |text| - i
    ensures i + 4 > |text| ==> r == []
    decreases |text| - i
  {
    if i + 2 > |text| then []
    else if OccursAt(text, "{{", i) then
      match FindClose(text, i + 2)
      case Some(p) => [text[i + 2..p]] + Scan(text, p + 2)
      case None => Scan(text, i + 1)
    else Scan(text, i + 1)
  }

  /** A capture the scan can report: no line feed, no `}}`, and wrapped in
      braces a piece of the text. */
  predicate WellFormedCapture(text: string, v: string)
  {
    '\n' !in v && !Contains(v, "}}") && Contains(text, "{{" + v + "}}")
  }

  /** The capture of the match at `i` is well formed. */
  lemma CaptureIsWellFormed(text: string, i: nat, p: nat)
    requires OccursAt(text, "{{", i) && FindClose(text, i + 2) == Some(p)
    ensures WellFormedCapture(text, text[i + 2..p])
  {
    CaptureFacts(text, i, p);
    OccursAtContains(text, "{{" + text[i + 2..p] + "}}", i);
  }

  /** Every capture the scan reports holds no line feed and no `}}`, and
      wrapped in braces it is a piece of the text. */
  lemma {:induction false} CapturesAreWellFormed(text: string, i: nat)
    ensures forall v :: v in Scan(text, i) ==> WellFormedCapture(text, v)
    decreases |text| - i
  {
    if i + 2 <= |text| {
      if OccursAt(text, "{{", i) && FindClose(text, i + 2).Some? {
        var p := FindClose(text, i + 2).value;
        CaptureIsWellFormed(text, i, p);
        CapturesAreWellFormed(text, p + 2);
        assert Scan(text, i) == [text[i + 2..p]] + Scan(text, p + 2);
      } else {
        CapturesAreWellFormed(text, i + 1);
        assert Scan(text, i) == Scan(text, i + 1);
      }
    }
  }

  /** `re.findall(r'\{\{(.*?)\}\}', text)`: every capture, left to right,
      repeats included. */
  function FindAll(text: string): (r: seq<string>)
    ensures 4 * |r| <= |text|
    ensures forall v :: v in r ==>
      '\n' !in v && !Contains(v, "}}") && Contains(text, "{{" + v + "}}")
  {
    CapturesAreWellFormed(text, 0);
    Scan(text, 0)
  }

  /** Where no match starts, the scan moves on by one character. */
  lemma ScanSkips(text: string, i: nat)
    requires !HasMatchAt(text, i)
    ensures Scan(text, i) == if i + 2 > |text| then [] else Scan(text, i + 1)
  {
    if OccursAt(text, "{{", i) {
      MatchIffClose(text, i);
    }
  }

  /** Where a match starts, the scan reports its capture and resumes after
      the closing braces. */
  lemma ScanTakes(text: string, i: nat, k: nat)
    requires MatchAt(text, i, k)
    ensures Scan(text, i) == [text[i + 2..i + 2 + k]] + Scan(text, i + 4 + k)
  {
    FindCloseIsLazyMatch(text, i, k);
    var close := i + 2 + k;
    assert FindClose(text, i + 2) == Some(close);
    assert i + 2 <= |text| && OccursAt(text, "{{", i);
    assert Scan(text, i) == [text[i + 2..close]] + Scan(text, close + 2);
  }

  /** The scan reports the leftmost match at or after `i` first and resumes
      right after its closing braces. */
  lemma {:induction false} ScanFindsLeftmost(text: string, i: nat, p: nat, k: nat)
    requires i <= p && MatchAt(text, p, k)
    requires forall q :: i <= q < p ==> !HasMatchAt(text, q)
    ensures Scan(text, i) == [text[p + 2..p + 2 + k]] + Scan(text, p + 4 + k)
    decreases p - i
  {
    if i < p {
      ScanSkips(text, i);
      ScanFindsLeftmost(text, i + 1, p, k);
    } else {
      ScanTakes(text, p, k);
    }
  }

  /** With no match at or after `i`, the scan reports nothing. */
  lemma {:induction false} ScanWithoutMatch(text: string, i: nat)
    requires forall q :: i <= q ==> !HasMatchAt(text, q)
    ensures Scan(text, i) == []
    decreases |text| - i
  {
    ScanSkips(text, i);
    if i + 2 <= |text| {
      ScanWithoutMatch(text, i + 1);
    }
  }

  /** No match starts at a character other than an opening brace. */
  lemma NotOpenNoMatch(text: string, i: nat)
    requires i < |text| && text[i] != '{'
    ensures !HasMatchAt(text, i)
  {
  }

  /** `{{c}}` is a match capturing the one character `c`, unless `c` is a
      line feed or a closing brace. */
  lemma OneCharMatch(text: string, i: nat, c: char)
    requires i + 5 <= |text| && text[i..i + 5] == ['{', '{', c, '}', '}']
    requires c != '\n' && c != '}'
    ensures MatchAt(text, i, 1)
  {
    var w := text[i..i + 5];
    assert text[i..i + 2] == w[..2];
    assert text[i + 3..i + 5] == w[3..];
    assert text[i + 2] == w[2] == c;
    assert text[i + 2..i + 3] == [c];
    forall p | i + 2 <= p < i + 3
      ensures !OccursAt(text, "}}", p)
    {
      assert p == i + 2;
    }
  }

  /** A text without `{{` has no placeholders. */
  lemma NoOpenBracesNoPlaceholders(text: string)
    requires !Contains(text, "{{")
    ensures FindAll(text) == []
  {
    forall q: nat
      ensures !HasMatchAt(text, q)
    {
    }
    ScanWithoutMatch(text, 0);
  }
}
