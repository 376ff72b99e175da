/** Text primitives the prompt builder relies on: Python's substring test
    (`sub in s`) and f-string rendering (literal text interleaved with
    interpolated values). */
module Text {

  /** `sub` is found in `s` starting at position `i`. */
  predicate OccursAt(s: string, sub: string, i: nat)
  {
    i + |sub| <= |s| && s[i..i + |sub|] == sub
  }

  /** Python's `sub in s` for strings. */
  predicate Contains(s: string, sub: string)
  {
    ContainsFrom(s, sub, 0)
  }

  /** `sub` occurs in `s` at some position `i` or later, found by scanning
      left to right. */
  predicate ContainsFrom(s: string, sub: string, i: nat)
    decreases |s| - i
    ensures ContainsFrom(s, sub, i) <==> exists j: nat :: i <= j && OccursAt(s, sub, j)
  {
    if i + |sub| > |s| then false
    else if s[i..i + |sub|] == sub then assert OccursAt(s, sub, i); true
    else ContainsFrom(s, sub, i + 1)
  }

  /** An occurrence of `sub` at a known position is found by the scan. */
  lemma OccursAtContains(s: string, sub: string, i: nat)
    requires OccursAt(s, sub, i)
    ensures Contains(s, sub)
  {
  }

  /** A text lacking one of the characters of `sub` does not contain it. */
  lemma MissingCharNotContained(s: string, sub: string, c: char)
    requires c in sub && c !in s
    ensures !Contains(s, sub)
  {
  }

  /** An f-string: `literals[0] + {holes[0]} + literals[1] + ... + literals[n]`. */
  function Render(literals: seq<string>, holes: seq<string>): (r: string)
    requires |literals| == |holes| + 1
    ensures OccursAt(r, literals[0], 0)
    ensures |literals[|holes|]| <= |r| && r[|r| - |literals[|holes|]|..] == literals[|holes|]
    decreases |holes|
  {
    if holes == [] then literals[0]
    else
      var rest := Render(literals[1..], holes[1..]);
      assert literals[1..][|holes[1..]|] == literals[|holes|];
      literals[0] + holes[0] + rest
  }

  /** An f-string with two values, written out. */
  lemma RenderTwo(l0: string, l1: string, l2: string, h0: string, h1: string)
    ensures Render([l0, l1, l2], [h0, h1]) == l0 + h0 + l1 + h1 + l2
  {
    assert [l0, l1, l2][1..] == [l1, l2] && [h0, h1][1..] == [h1];
    assert [l1, l2][1..] == [l2] && [h1][1..] == [];
    calc {
      Render([l0, l1, l2], [h0, h1]);
      l0 + h0 + Render([l1, l2], [h1]);
      l0 + h0 + (l1 + h1 + Render([l2], []));
      l0 + h0 + l1 + h1 + l2;
    }
  }

  function TotalLength(parts: seq<string>): nat
  {
    if parts == [] then 0 else |parts[0]| + TotalLength(parts[1..])
  }

  /** The `parts` occur in `s` one after another, without overlapping, in
      the order given (other text may lie between them). */
  ghost predicate InOrder(s: string, parts: seq<string>)
    decreases |parts|
  {
    parts == [] ||
    exists i: nat :: OccursAt(s, parts[0], i) && InOrder(s[i + |parts[0]|..], parts[1..])
  }

  /** A rendered f-string is as long as its literal text plus its values. */
  lemma {:induction false} RenderLength(literals: seq<string>, holes: seq<string>)
    requires |literals| == |holes| + 1
    ensures |Render(literals, holes)| == TotalLength(literals) + TotalLength(holes)
    decreases |holes|
  {
    if holes == [] {
      assert literals[1..] == [];
    } else {
      RenderLength(literals[1..], holes[1..]);
    }
  }

  /** Every interpolated value appears in the rendered text, in order. */
  lemma {:induction false} RenderInOrder(literals: seq<string>, holes: seq<string>)
    requires |literals| == |holes| + 1
    ensures InOrder(Render(literals, holes), holes)
    decreases |holes|
  {
    if holes != [] {
      var s := Render(literals, holes);
      var rest := Render(literals[1..], holes[1..]);
      var i := |literals[0]|;
      assert s == literals[0] + holes[0] + rest;
      assert s[i..i + |holes[0]|] == holes[0];
      assert s[i + |holes[0]|..] == rest;
      RenderInOrder(literals[1..], holes[1..]);
      assert OccursAt(s, holes[0], i) && InOrder(s[i + |holes[0]|..], holes[1..]);
    }
  }
}
