/**
  The line-by-line reading both text parsers share: the answer split on
  newlines, each line classified, a loop folding the lines into a state, and
  the position of the last line of a given kind.
*/
module LineScan {
  import opened Wrappers
  import opened PyStr

  /** `response.split('\n')`, each line read by `classify`. */
  function ClassifiedLines<L>(response: string, classify: string -> L): (ls: seq<L>)
    ensures |ls| == |SplitOn(response, '\n')|
    ensures forall i :: 0 <= i < |ls| ==> ls[i] == classify(SplitOn(response, '\n')[i])
  {
    var raw := SplitOn(response, '\n');
    seq(|raw|, i requires 0 <= i < |raw| => classify(raw[i]))
  }

  /** A `for line in lines` loop whose body is `step`. */
  function Fold<L, S>(lines: seq<L>, step: (L, S) -> S, st: S): S
    decreases |lines|
  {
    if |lines| == 0 then st else Fold(lines[1..], step, step(lines[0], st))
  }

  /** Running the loop over `a + b` is running it over `a`, then over `b`. */
  lemma {:induction false} FoldAppend<L, S>(a: seq<L>, b: seq<L>, step: (L, S) -> S, st: S)
    ensures Fold(a + b, step, st) == Fold(b, step, Fold(a, step, st))
    decreases |a|
  {
    if |a| > 0 {
      assert (a + b)[0] == a[0];
      assert (a + b)[1..] == a[1..] + b;
      FoldAppend(a[1..], b, step, step(a[0], st));
    } else {
      assert a + b == b;
    }
  }

  /** Position of the last line satisfying `p`, if there is one. */
  function LastWhere<L>(lines: seq<L>, p: L -> bool): (r: Option<nat>)
    ensures r.Some? ==> r.value < |lines| && p(lines[r.value])
    ensures r.Some? ==> forall j :: r.value < j < |lines| ==> !p(lines[j])
    ensures r.None? ==> forall j :: 0 <= j < |lines| ==> !p(lines[j])
    decreases |lines|
  {
    if |lines| == 0 then None
    else if p(lines[|lines| - 1]) then Some(|lines| - 1)
    else LastWhere(lines[..|lines| - 1], p)
  }
}
