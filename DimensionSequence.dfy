/**
 * `DimensionSequence`: the memory order of the five axes inside a block,
 * given as five axis letters in either case and stored in lower case.
 */
module DimensionSequence {
  import opened Results

  const AxisLabels: seq<string> := ["x", "y", "z", "c", "t"]

  function LowerChar(ch: char): char
  {
    if 'A' <= ch <= 'Z' then (ch as int - 'A' as int + 'a' as int) as char else ch
  }

  /** `str.lower` on ASCII text. */
  function Lower(s: string): (r: string)
    ensures |r| == |s| && forall i :: 0 <= i < |s| ==> r[i] == LowerChar(s[i])
  {
    if s == [] then [] else [LowerChar(s[0])] + Lower(s[1..])
  }

  datatype SequenceError = NotFiveAxes | UnknownAxis | RepeatedAxis

  predicate NoRepeats(s: seq<string>)
  {
    forall i, j :: 0 <= i < j < |s| ==> s[i] != s[j]
  }

  /**
   * The constructor: five tokens, each naming an axis in either case, no axis
   * twice. The stored sequence is the tokens lower-cased, in the given order,
   * and names every axis exactly once.
   */
  function MakeDimensionSequence(tokens: seq<string>): (r: Result<seq<string>, SequenceError>)
    ensures r.Ok? <==>
      |tokens| == 5 && (forall i :: 0 <= i < 5 ==> Lower(tokens[i]) in AxisLabels) &&
      (forall i, j :: 0 <= i < j < 5 ==> Lower(tokens[i]) != Lower(tokens[j]))
    ensures r.Ok? ==> |r.value| == 5 && forall i :: 0 <= i < 5 ==> r.value[i] == Lower(tokens[i])
    ensures r.Ok? ==> NoRepeats(r.value) && forall a :: a in AxisLabels <==> a in r.value
  {
    if |tokens| != 5 then Err(NotFiveAxes)
    else
      var lowered := seq(5, i requires 0 <= i < 5 => Lower(tokens[i]));
      if !(forall i :: 0 <= i < 5 ==> Lower(tokens[i]) in AxisLabels) then Err(UnknownAxis)
      else if !(forall i, j :: 0 <= i < j < 5 ==> Lower(tokens[i]) != Lower(tokens[j])) then Err(RepeatedAxis)
      else
        assert NoRepeats(lowered) && forall i :: 0 <= i < 5 ==> lowered[i] in AxisLabels;
        FiveDistinctAxesAreAll(lowered);
        Ok(lowered)
  }

  lemma {:induction false} DistinctCardinality(s: seq<string>)
    requires NoRepeats(s)
    ensures |set a | a in s| == |s|
  {
    if s != [] {
      var init := s[..|s| - 1];
      DistinctCardinality(init);
      assert s == init + [s[|s| - 1]];
      assert (set a | a in s) == (set a | a in init) + {s[|s| - 1]};
      assert s[|s| - 1] !in (set a | a in init) by {
        forall i | 0 <= i < |init| ensures init[i] != s[|s| - 1] {
          assert init[i] == s[i];
        }
      }
    }
  }

  /** Five different axis names are all five axes (the pigeonhole principle). */
  lemma FiveDistinctAxesAreAll(s: seq<string>)
    requires |s| == 5 && NoRepeats(s) && forall i :: 0 <= i < 5 ==> s[i] in AxisLabels
    ensures forall a :: a in AxisLabels <==> a in s
  {
    var have := set a | a in s;
    var all := set a | a in AxisLabels;
    DistinctCardinality(s);
    DistinctCardinality(AxisLabels);
    assert have <= all;
    assert |all - have| == |all| - |have| == 0;
    assert all == have;
    forall a ensures a in AxisLabels <==> a in s {
      assert a in AxisLabels <==> a in all;
      assert a in s <==> a in have;
    }
  }

  /** The unit test's first case: mixed case is accepted and lower-cased. */
  lemma MixedCaseExample()
    ensures MakeDimensionSequence(["X", "y", "Z", "c", "T"]) == Ok(["x", "y", "z", "c", "t"])
  {
    LowersTo(["X", "y", "Z", "c", "T"], ["x", "y", "z", "c", "t"]);
  }

  /** The unit test's second case: any order of the five axes is accepted and kept. */
  lemma ReversedOrderExample()
    ensures MakeDimensionSequence(["T", "C", "Z", "Y", "X"]) == Ok(["t", "c", "z", "y", "x"])
  {
    LowersTo(["T", "C", "Z", "Y", "X"], ["t", "c", "z", "y", "x"]);
  }

  /** Five tokens that lower-case to five distinct axis names are accepted as those names. */
  lemma LowersTo(tokens: seq<string>, names: seq<string>)
    requires |tokens| == 5 && |names| == 5
    requires forall i :: 0 <= i < 5 ==> Lower(tokens[i]) == names[i]
    requires NoRepeats(names) && forall i :: 0 <= i < 5 ==> names[i] in AxisLabels
    ensures MakeDimensionSequence(tokens) == Ok(names)
  {
    var r := MakeDimensionSequence(tokens);
    assert r.Ok?;
    assert r.value == names;
  }

  /** Too few axes, a repeated axis and an unknown axis are all refused. */
  lemma RejectedExamples()
    ensures MakeDimensionSequence(["x"]) == Err(NotFiveAxes)
    ensures MakeDimensionSequence(["x", "y", "z", "c", "x"]).Err?
    ensures MakeDimensionSequence(["x", "y", "z", "c", "X"]).Err?
    ensures MakeDimensionSequence(["x", "y", "z", "c", "s"]).Err?
  {
    var duplicated := ["x", "y", "z", "c", "x"];
    assert Lower(duplicated[0]) == "x" == Lower(duplicated[4]);
    var repeated := ["x", "y", "z", "c", "X"];
    assert Lower(repeated[0]) == "x" == Lower(repeated[4]);
    var unknown := ["x", "y", "z", "c", "s"];
    assert Lower(unknown[4]) == "s" && "s" !in AxisLabels;
  }
}
