/**
 * Progress throttling: a callback remembers the last percentage it passed on
 * and passes a new one on only once it has risen by at least five points.
 */
module Progress {

  /** Minimum rise, in percentage points, before a value is passed on. */
  const MinRise := 5

  predicate Forwards(last: int, percent: int)
  {
    percent - last >= MinRise
  }

  /** The remembered percentage after one report. */
  function After(last: int, percent: int): int
  {
    if Forwards(last, percent) then percent else last
  }

  /** The remembered percentage after a stream of reports, starting from `initial`. */
  function LastAfter(initial: int, reports: seq<int>): int
  {
    if reports == [] then initial
    else After(LastAfter(initial, reports[..|reports| - 1]), reports[|reports| - 1])
  }

  /** The percentages passed on to the user, in order. */
  function Forwarded(initial: int, reports: seq<int>): seq<int>
  {
    if reports == [] then []
    else
      var before := reports[..|reports| - 1];
      var p := reports[|reports| - 1];
      Forwarded(initial, before) + (if Forwards(LastAfter(initial, before), p) then [p] else [])
  }

  /** One more report: the stream functions step by `After` and `Forwards`. */
  lemma Snoc(initial: int, reports: seq<int>, p: int)
    ensures LastAfter(initial, reports + [p]) == After(LastAfter(initial, reports), p)
    ensures Forwarded(initial, reports + [p])
         == Forwarded(initial, reports) + (if Forwards(LastAfter(initial, reports), p) then [p] else [])
  {
    assert (reports + [p])[..|reports|] == reports;
  }

  /** Each value is at least five above the one before it, the first five above `initial`. */
  predicate Rises(initial: int, f: seq<int>)
  {
    (|f| > 0 ==> f[0] - initial >= MinRise) &&
    forall i :: 0 < i < |f| ==> f[i] - f[i - 1] >= MinRise
  }

  /** The remembered value is the last one passed on, or the starting value if none was. */
  lemma {:induction false} LastAfterIsLastForwarded(initial: int, reports: seq<int>)
    ensures var f := Forwarded(initial, reports);
      LastAfter(initial, reports) == (if f == [] then initial else f[|f| - 1])
  {
    if reports != [] {
      var before, p := reports[..|reports| - 1], reports[|reports| - 1];
      LastAfterIsLastForwarded(initial, before);
      assert reports == before + [p];
      Snoc(initial, before, p);
    }
  }

  /**
   * Each value passed on is at least five above the one before it, the first
   * at least five above the starting value.
   */
  lemma {:induction false} ForwardedRises(initial: int, reports: seq<int>)
    ensures Rises(initial, Forwarded(initial, reports))
  {
    if reports != [] {
      var before, p := reports[..|reports| - 1], reports[|reports| - 1];
      ForwardedRises(initial, before);
      LastAfterIsLastForwarded(initial, before);
      Snoc(initial, before, p);
      assert reports == before + [p];
      RisesStep(initial, Forwarded(initial, before), LastAfter(initial, before), p);
    }
  }

  /** One more report keeps the forwarded values rising. */
  lemma RisesStep(initial: int, f: seq<int>, last: int, p: int)
    requires Rises(initial, f)
    requires last == (if f == [] then initial else f[|f| - 1])
    ensures Rises(initial, f + (if Forwards(last, p) then [p] else []))
  {
    if Forwards(last, p) {
      RisesAppend(initial, f, p);
    } else {
      assert f + [] == f;
    }
  }

  lemma RisesAppend(initial: int, f: seq<int>, p: int)
    requires Rises(initial, f)
    requires p - (if f == [] then initial else f[|f| - 1]) >= MinRise
    ensures Rises(initial, f + [p])
  {
    var g := f + [p];
    forall i | 0 < i < |g| ensures g[i] - g[i - 1] >= MinRise {
      if i < |f| {
        assert g[i] == f[i] && g[i - 1] == f[i - 1];
      }
    }
  }

  /** Values passed on strictly increase, so none is passed on twice. */
  lemma ForwardedIncreasing(initial: int, reports: seq<int>)
    ensures var f := Forwarded(initial, reports);
      forall i, j :: 0 <= i < j < |f| ==> f[j] - f[i] >= MinRise
  {
    var f := Forwarded(initial, reports);
    ForwardedRises(initial, reports);
    forall i, j | 0 <= i < j < |f| ensures f[j] - f[i] >= MinRise {
      var k := i + 1;
      while k < j
        invariant i < k <= j
        invariant f[k] - f[i] >= MinRise
      {
        assert f[k + 1] - f[k] >= MinRise;
        k := k + 1;
      }
    }
  }

  /** The remembered value never goes down. */
  lemma {:induction false} LastAfterNeverDecreases(initial: int, reports: seq<int>)
    ensures LastAfter(initial, reports) >= initial
  {
    if reports != [] {
      LastAfterNeverDecreases(initial, reports[..|reports| - 1]);
    }
  }

  /** Percentages 0, 1, ..., 6 from a fresh start are passed on once, at 5; a fall back to 3 is not. */
  lemma ZeroToSixForwardsOnce()
    ensures Forwarded(0, [0, 1, 2, 3, 4, 5, 6]) == [5]
    ensures Forwarded(0, [0, 1, 2, 3, 4, 5, 6, 3]) == [5]
  {
    var s: seq<int> := [];
    for k := 0 to 7
      invariant s == seq(k, i => i)
      invariant LastAfter(0, s) == (if k <= 5 then 0 else 5)
      invariant Forwarded(0, s) == (if k <= 5 then [] else [5])
    {
      Snoc(0, s, k);
      s := s + [k];
    }
    assert s == [0, 1, 2, 3, 4, 5, 6];
    Snoc(0, s, 3);
    assert s + [3] == [0, 1, 2, 3, 4, 5, 6, 3];
  }

  /** The record the C test program hands to the engine as callback context. */
  class CallbackData {
    var progress: int
    var imageIndex: int

    constructor (imageIndex: int)
      ensures progress == 0 && this.imageIndex == imageIndex
    {
      progress := 0;
      this.imageIndex := imageIndex;
    }
  }

  /**
   * `ProgressCallback` of the C test program: reports a percentage only when it
   * has risen by five or more since the last report, and then remembers it.
   */
  method ProgressCallback(percent: int, totalBytesWritten: nat, data: CallbackData) returns (reported: bool)
    modifies data
    ensures reported <==> percent - old(data.progress) >= MinRise
    ensures data.progress == (if reported then percent else old(data.progress))
    ensures data.imageIndex == old(data.imageIndex)
  {
    if percent - data.progress < MinRise {
      return false;
    }
    data.progress := percent;
    reported := true;
  }

  /** `MyCallbackClass` of the Python examples. */
  class MyCallbackClass {
    var userDataProgress: int
    /** Every percentage reported so far, in order. */
    ghost var reports: seq<int>

    ghost predicate Valid()
      reads this
    {
      userDataProgress == LastAfter(0, reports)
    }

    constructor ()
      ensures Valid() && reports == [] && userDataProgress == 0
    {
      userDataProgress := 0;
      reports := [];
    }

    /** `RecordProgress`: remembers (and prints) a percentage five or more above the last one. */
    method RecordProgress(percent: int, totalBytesWritten: nat) returns (recorded: bool)
      requires Valid()
      modifies this
      ensures Valid() && reports == old(reports) + [percent]
      ensures recorded <==> percent - old(userDataProgress) >= MinRise
      ensures userDataProgress == (if recorded then percent else old(userDataProgress))
      ensures Forwarded(0, reports) == Forwarded(0, old(reports)) + (if recorded then [percent] else [])
    {
      recorded := percent - userDataProgress >= MinRise;
      if recorded {
        userDataProgress := percent;
      }
      Snoc(0, reports, percent);
      reports := reports + [percent];
    }
  }
}
