/** The sentence split the visual and voice agents share:
    `[s.strip() for s in script.split(".") if s.strip()]`
    (src/agents/visual_agent.py:98, src/agents/voice_agent.py:108). */
module SentenceSplit {
  import opened PyStr

  /** A sentence as the split produces it: non-empty, stripped, no period. */
  predicate IsSentence(s: string) {
    s != "" && IsStripped(s) && '.' !in s
  }

  /** The stripped segments that are not blank, in order. */
  function KeepNonBlank(segments: seq<string>): (ss: seq<string>)
    ensures |ss| <= |segments|
    ensures forall i :: 0 <= i < |ss| ==> ss[i] != "" && IsStripped(ss[i])
    ensures (forall i :: 0 <= i < |segments| ==> '.' !in segments[i]) ==>
              forall i :: 0 <= i < |ss| ==> '.' !in ss[i]
    decreases |segments|
  {
    if |segments| == 0 then []
    else
      var rest := KeepNonBlank(segments[1..]);
      var s := Strip(segments[0]);
      if s != "" then
        assert '.' in s ==> '.' in segments[0] by {
          if '.' in s { StripChars(segments[0], '.'); }
        }
        [s] + rest
      else rest
  }

  /** Positions of the segments that are not blank once stripped. */
  function NonBlankIndices(segments: seq<string>): set<nat> {
    set i: nat | i < |segments| && Strip(segments[i]) != ""
  }

  /** Splitting one more segment off the end adds at most its sentence. */
  lemma {:induction false} KeepNonBlankSnoc(segments: seq<string>, s: string)
    ensures KeepNonBlank(segments + [s]) ==
            KeepNonBlank(segments) + (if Strip(s) != "" then [Strip(s)] else [])
    decreases |segments|
  {
    if |segments| == 0 {
      assert segments + [s] == [s];
      assert [s][1..] == [];
    } else {
      assert (segments + [s])[0] == segments[0];
      assert (segments + [s])[1..] == segments[1..] + [s];
      KeepNonBlankSnoc(segments[1..], s);
    }
  }

  /** One sentence per segment that is not blank once stripped. */
  lemma {:induction false} KeepNonBlankCount(segments: seq<string>)
    ensures |KeepNonBlank(segments)| == |NonBlankIndices(segments)|
    decreases |segments|
  {
    var n := |segments|;
    if n == 0 {
      assert NonBlankIndices(segments) == {};
    } else {
      var init, x := segments[..n - 1], segments[n - 1];
      assert segments == init + [x];
      KeepNonBlankSnoc(init, x);
      KeepNonBlankCount(init);
      NonBlankIndicesSnoc(init, x);
    }
  }

  /** One more segment adds one position exactly when it is not blank. */
  lemma NonBlankIndicesSnoc(init: seq<string>, x: string)
    ensures |NonBlankIndices(init + [x])| ==
            |NonBlankIndices(init)| + (if Strip(x) != "" then 1 else 0)
  {
    var s := init + [x];
    var before, last := NonBlankIndices(init), if Strip(x) != "" then {|init|} else {};
    forall i: nat
      ensures i in NonBlankIndices(s) <==> i in before + last
    {
      if i < |init| { assert s[i] == init[i]; }
    }
    assert NonBlankIndices(s) == before + last;
    assert before !! last;
  }

  /** The sentences of a script. */
  function Sentences(script: string): (ss: seq<string>)
    ensures forall i :: 0 <= i < |ss| ==> IsSentence(ss[i])
  {
    KeepNonBlank(SplitOn(script, '.'))
  }

  /** Segments that are already sentences are kept as they are. */
  lemma {:induction false} KeepNonBlankOfSentences(ss: seq<string>)
    requires forall i :: 0 <= i < |ss| ==> IsSentence(ss[i])
    ensures KeepNonBlank(ss) == ss
    decreases |ss|
  {
    if |ss| > 0 {
      assert IsSentence(ss[0]);
      StrippedIsFixpoint(ss[0]);
      assert Strip(ss[0]) != "";
      assert KeepNonBlank(ss) == [ss[0]] + KeepNonBlank(ss[1..]);
      KeepNonBlankOfSentences(ss[1..]);
      HeadTail(ss);
    }
  }

  /** Round trip: sentences joined with periods split back into exactly
      those sentences, in order. */
  lemma SentencesOfJoin(ss: seq<string>)
    requires forall i :: 0 <= i < |ss| ==> IsSentence(ss[i])
    ensures Sentences(Join(ss, ".")) == ss
  {
    if |ss| == 0 {
      assert SplitOn("", '.') == [""];
      assert Strip("") == "";
    } else {
      SplitJoin(ss, '.');
      KeepNonBlankOfSentences(ss);
    }
  }
}
