/** Template literals and the string facts the rules' commands and paths rely on.
    A JavaScript template literal `s0${v0}s1${v1}...sn` is its literal pieces
    s0..sn with the substituted values v0..v(n-1) spliced in between. */
module Templates {

  /** Total length of a list of strings. */
  function SumLengths(ss: seq<string>): nat
  {
    if ss == [] then 0 else |ss[0]| + SumLengths(ss[1..])
  }

  /** The text of the template literal with literal pieces `strings` and
      substituted values `values`. The ensures are facts about template
      literals in general, counted in Dafny characters (not UTF-16 units):
      the text is exactly as long as its pieces and values together, and it
      begins with the first piece and ends with the last. */
  function Render(strings: seq<string>, values: seq<string>): (r: string)
    requires |strings| == |values| + 1
    ensures |r| == SumLengths(strings) + SumLengths(values)
    ensures strings[0] <= r
    ensures EndsWith(r, strings[|values|])
    decreases |values|
  {
    if values == [] then strings[0]
    else
      var rest := Render(strings[1..], values[1..]);
      assert (strings[0] + values[0] + rest)[|strings[0]| + |values[0]|..] == rest;
      strings[0] + values[0] + rest
  }

  /** `s` ends with `w`. */
  predicate EndsWith(s: string, w: string)
  {
    |w| <= |s| && s[|s| - |w|..] == w
  }

  /** `w` appears in `s` starting at position `k`. */
  predicate OccursAt(s: string, w: string, k: int)
  {
    0 <= k && k + |w| <= |s| && s[k..k + |w|] == w
  }

  /** Every string of `ws` appears in `s`, in that order and without overlapping. */
  ghost predicate ContainsInOrder(s: string, ws: seq<string>)
    decreases |ws|
  {
    ws == [] ||
    exists k :: OccursAt(s, ws[0], k) && ContainsInOrder(s[k + |ws[0]|..], ws[1..])
  }

  /** A rendered template embeds every substituted value verbatim, in order. */
  lemma {:induction false} RenderInOrder(strings: seq<string>, values: seq<string>)
    requires |strings| == |values| + 1
    ensures ContainsInOrder(Render(strings, values), values)
    decreases |values|
  {
    if values != [] {
      var rest := Render(strings[1..], values[1..]);
      RenderInOrder(strings[1..], values[1..]);
      var r := Render(strings, values);
      var k := |strings[0]|;
      assert r == strings[0] + values[0] + rest;
      assert r[k..k + |values[0]|] == values[0];
      assert r[k + |values[0]|..] == rest;
      assert OccursAt(r, values[0], k);
    }
  }

  /** Two strings with the same suffix appended are equal only if they were equal. */
  lemma AppendCancel(a: string, b: string, suffix: string)
    ensures (a + suffix == b + suffix) <==> a == b
  {
    if a + suffix == b + suffix {
      assert |a| == |b|;
      assert a == (a + suffix)[..|a|];
      assert b == (b + suffix)[..|b|];
    }
  }
}
