/**
 * The order in which the block loops visit a block grid: channel outermost,
 * then time, then z, then y, with x varying fastest. Each level below is the
 * sequence of indices one loop level produces after `k` turns of its loop.
 */
module BlockGrid {
  import opened ImageSize

  /** The index lies inside a grid of `g` blocks. */
  predicate InGrid(i: Index5D, g: Size5D)
  {
    i.x < g.x && i.y < g.y && i.z < g.z && i.c < g.c && i.t < g.t
  }

  /** `a` is visited strictly before `b`: lexicographic on (c, t, z, y, x). */
  predicate Before(a: Index5D, b: Index5D)
  {
    a.c < b.c || (a.c == b.c &&
    (a.t < b.t || (a.t == b.t &&
    (a.z < b.z || (a.z == b.z &&
    (a.y < b.y || (a.y == b.y && a.x < b.x)))))))
  }

  predicate Increasing(s: seq<Index5D>)
  {
    forall i, j :: 0 <= i < j < |s| ==> Before(s[i], s[j])
  }

  predicate Distinct(s: seq<Index5D>)
  {
    forall i, j :: 0 <= i < j < |s| ==> s[i] != s[j]
  }

  /** The innermost loop after `k` turns: x = 0 .. k-1. */
  function Row(c: nat, t: nat, z: nat, y: nat, k: nat): seq<Index5D>
  {
    if k == 0 then [] else Row(c, t, z, y, k - 1) + [Size5D(k - 1, y, z, c, t)]
  }

  /** The y loop after `k` turns, each turn a full row. */
  function Plane(g: Size5D, c: nat, t: nat, z: nat, k: nat): seq<Index5D>
  {
    if k == 0 then [] else Plane(g, c, t, z, k - 1) + Row(c, t, z, k - 1, g.x)
  }

  /** The z loop after `k` turns, each turn a full plane. */
  function Stack(g: Size5D, c: nat, t: nat, k: nat): seq<Index5D>
  {
    if k == 0 then [] else Stack(g, c, t, k - 1) + Plane(g, c, t, k - 1, g.y)
  }

  /** The time loop after `k` turns, each turn a full stack. */
  function Series(g: Size5D, c: nat, k: nat): seq<Index5D>
  {
    if k == 0 then [] else Series(g, c, k - 1) + Stack(g, c, k - 1, g.z)
  }

  /** The channel loop after `k` turns, each turn a full time series. */
  function Channels(g: Size5D, k: nat): seq<Index5D>
  {
    if k == 0 then [] else Channels(g, k - 1) + Series(g, k - 1, g.t)
  }

  /** Every block index of the grid, in the order the block loops visit them. */
  function Enumerate(g: Size5D): seq<Index5D>
  {
    Channels(g, g.c)
  }

  // ---------------------------------------------------------------------------
  // Each level: its length, which indices it holds, and that it is increasing
  // ---------------------------------------------------------------------------

  lemma ConcatIncreasing(a: seq<Index5D>, b: seq<Index5D>)
    requires Increasing(a) && Increasing(b)
    requires forall u, v :: u in a && v in b ==> Before(u, v)
    ensures Increasing(a + b)
  {
    forall i, j | 0 <= i < j < |a + b|
      ensures Before((a + b)[i], (a + b)[j])
    {
      if j < |a| {
        assert (a + b)[i] == a[i] && (a + b)[j] == a[j];
      } else if i >= |a| {
        assert (a + b)[i] == b[i - |a|] && (a + b)[j] == b[j - |a|];
      } else {
        assert (a + b)[i] == a[i] && a[i] in a;
        assert (a + b)[j] == b[j - |a|] && b[j - |a|] in b;
      }
    }
  }

  lemma {:induction false} RowFacts(c: nat, t: nat, z: nat, y: nat, k: nat)
    ensures |Row(c, t, z, y, k)| == k
    ensures Increasing(Row(c, t, z, y, k))
    ensures forall i :: i in Row(c, t, z, y, k) <==> i.c == c && i.t == t && i.z == z && i.y == y && i.x < k
  {
    if k > 0 {
      RowFacts(c, t, z, y, k - 1);
      ConcatIncreasing(Row(c, t, z, y, k - 1), [Size5D(k - 1, y, z, c, t)]);
    }
  }

  lemma {:induction false} PlaneFacts(g: Size5D, c: nat, t: nat, z: nat, k: nat)
    ensures Increasing(Plane(g, c, t, z, k))
    ensures forall i :: i in Plane(g, c, t, z, k) <==> i.c == c && i.t == t && i.z == z && i.y < k && i.x < g.x
  {
    if k > 0 {
      PlaneFacts(g, c, t, z, k - 1);
      RowFacts(c, t, z, k - 1, g.x);
      ConcatIncreasing(Plane(g, c, t, z, k - 1), Row(c, t, z, k - 1, g.x));
    }
  }

  lemma {:induction false} StackFacts(g: Size5D, c: nat, t: nat, k: nat)
    ensures Increasing(Stack(g, c, t, k))
    ensures forall i :: i in Stack(g, c, t, k) <==> i.c == c && i.t == t && i.z < k && i.y < g.y && i.x < g.x
  {
    if k > 0 {
      StackFacts(g, c, t, k - 1);
      PlaneFacts(g, c, t, k - 1, g.y);
      ConcatIncreasing(Stack(g, c, t, k - 1), Plane(g, c, t, k - 1, g.y));
    }
  }

  lemma {:induction false} SeriesFacts(g: Size5D, c: nat, k: nat)
    ensures Increasing(Series(g, c, k))
    ensures forall i :: i in Series(g, c, k) <==> i.c == c && i.t < k && i.z < g.z && i.y < g.y && i.x < g.x
  {
    if k > 0 {
      SeriesFacts(g, c, k - 1);
      StackFacts(g, c, k - 1, g.z);
      ConcatIncreasing(Series(g, c, k - 1), Stack(g, c, k - 1, g.z));
    }
  }

  lemma {:induction false} ChannelsFacts(g: Size5D, k: nat)
    ensures Increasing(Channels(g, k))
    ensures forall i :: i in Channels(g, k) <==> i.c < k && i.t < g.t && i.z < g.z && i.y < g.y && i.x < g.x
  {
    if k > 0 {
      ChannelsFacts(g, k - 1);
      SeriesFacts(g, k - 1, g.t);
      ConcatIncreasing(Channels(g, k - 1), Series(g, k - 1, g.t));
    }
  }

  lemma MulStep(k: nat, n: nat)
    requires k > 0
    ensures (k - 1) * n + n == k * n
  {
  }

  lemma {:induction false} PlaneLength(g: Size5D, c: nat, t: nat, z: nat, k: nat)
    ensures |Plane(g, c, t, z, k)| == k * g.x
  {
    if k > 0 {
      PlaneLength(g, c, t, z, k - 1);
      RowFacts(c, t, z, k - 1, g.x);
      MulStep(k, g.x);
    }
  }

  lemma {:induction false} StackLength(g: Size5D, c: nat, t: nat, k: nat)
    ensures |Stack(g, c, t, k)| == k * (g.y * g.x)
  {
    if k > 0 {
      StackLength(g, c, t, k - 1);
      PlaneLength(g, c, t, k - 1, g.y);
      MulStep(k, g.y * g.x);
    }
  }

  lemma {:induction false} SeriesLength(g: Size5D, c: nat, k: nat)
    ensures |Series(g, c, k)| == k * (g.z * (g.y * g.x))
  {
    if k > 0 {
      SeriesLength(g, c, k - 1);
      StackLength(g, c, k - 1, g.z);
      MulStep(k, g.z * (g.y * g.x));
    }
  }

  lemma {:induction false} ChannelsLength(g: Size5D, k: nat)
    ensures |Channels(g, k)| == k * (g.t * (g.z * (g.y * g.x)))
  {
    if k > 0 {
      ChannelsLength(g, k - 1);
      SeriesLength(g, k - 1, g.t);
      MulStep(k, g.t * (g.z * (g.y * g.x)));
    }
  }

  lemma IncreasingIsDistinct(s: seq<Index5D>)
    requires Increasing(s)
    ensures Distinct(s)
  {
    forall i, j | 0 <= i < j < |s| ensures s[i] != s[j] {
      assert Before(s[i], s[j]);
    }
  }

  /**
   * The block loops visit every index of the grid, nothing outside it, each
   * exactly once, in (c, t, z, y, x) order, for Volume(g) visits in all.
   */
  lemma EnumerateExactlyOnce(g: Size5D)
    ensures |Enumerate(g)| == Volume(g)
    ensures forall i :: i in Enumerate(g) <==> InGrid(i, g)
    ensures Increasing(Enumerate(g))
    ensures Distinct(Enumerate(g))
  {
    ChannelsFacts(g, g.c);
    ChannelsLength(g, g.c);
    IncreasingIsDistinct(Enumerate(g));
  }

  /** A grid of one block along every axis is visited once, at the origin. */
  lemma SingleBlockGrid()
    ensures Enumerate(Size5D(1, 1, 1, 1, 1)) == [Size5D(0, 0, 0, 0, 0)]
  {
    var g := Size5D(1, 1, 1, 1, 1);
    assert Row(0, 0, 0, 0, 1) == [Size5D(0, 0, 0, 0, 0)];
    assert Plane(g, 0, 0, 0, 1) == Row(0, 0, 0, 0, 1);
    assert Stack(g, 0, 0, 1) == Plane(g, 0, 0, 0, 1);
    assert Series(g, 0, 1) == Stack(g, 0, 0, 1);
  }

  // ---------------------------------------------------------------------------
  // Prefixes: how far the loops have got is always a prefix of the whole
  // ---------------------------------------------------------------------------

  lemma {:induction false} RowPrefix(c: nat, t: nat, z: nat, y: nat, k: nat, n: nat)
    requires k <= n
    ensures Row(c, t, z, y, k) <= Row(c, t, z, y, n)
  {
    if k < n {
      RowPrefix(c, t, z, y, k, n - 1);
    }
  }

  lemma {:induction false} PlanePrefix(g: Size5D, c: nat, t: nat, z: nat, k: nat, n: nat)
    requires k <= n
    ensures Plane(g, c, t, z, k) <= Plane(g, c, t, z, n)
  {
    if k < n {
      PlanePrefix(g, c, t, z, k, n - 1);
    }
  }

  lemma {:induction false} StackPrefix(g: Size5D, c: nat, t: nat, k: nat, n: nat)
    requires k <= n
    ensures Stack(g, c, t, k) <= Stack(g, c, t, n)
  {
    if k < n {
      StackPrefix(g, c, t, k, n - 1);
    }
  }

  lemma {:induction false} SeriesPrefix(g: Size5D, c: nat, k: nat, n: nat)
    requires k <= n
    ensures Series(g, c, k) <= Series(g, c, n)
  {
    if k < n {
      SeriesPrefix(g, c, k, n - 1);
    }
  }

  lemma {:induction false} ChannelsPrefix(g: Size5D, k: nat, n: nat)
    requires k <= n
    ensures Channels(g, k) <= Channels(g, n)
  {
    if k < n {
      ChannelsPrefix(g, k, n - 1);
    }
  }

  // ---------------------------------------------------------------------------
  // Keeping only the blocks the engine asks for
  // ---------------------------------------------------------------------------

  /** The indices of `s` for which `keep` holds, in their order in `s`. */
  function Select(s: seq<Index5D>, keep: Index5D -> bool): seq<Index5D>
  {
    if s == [] then []
    else Select(s[..|s| - 1], keep) + (if keep(s[|s| - 1]) then [s[|s| - 1]] else [])
  }

  lemma {:induction false} SelectFacts(s: seq<Index5D>, keep: Index5D -> bool)
    requires Increasing(s)
    ensures Increasing(Select(s, keep))
    ensures forall i :: i in Select(s, keep) <==> i in s && keep(i)
  {
    if s != [] {
      var init, last := s[..|s| - 1], s[|s| - 1];
      assert s == init + [last];
      assert Increasing(init);
      SelectFacts(init, keep);
      forall u | u in Select(init, keep) ensures Before(u, last) {
        var i :| 0 <= i < |init| && init[i] == u;
        assert s[i] == u;
      }
      ConcatIncreasing(Select(init, keep), if keep(last) then [last] else []);
    }
  }

  lemma {:induction false} SelectPrefix(a: seq<Index5D>, b: seq<Index5D>, keep: Index5D -> bool)
    requires a <= b
    ensures Select(a, keep) <= Select(b, keep)
  {
    if |a| < |b| {
      assert a <= b[..|b| - 1];
      SelectPrefix(a, b[..|b| - 1], keep);
      var sa, sb := Select(a, keep), Select(b[..|b| - 1], keep);
      assert Select(b, keep)[..|sb|] == sb;
      assert Select(b, keep)[..|sa|] == sb[..|sa|];
    } else {
      assert a == b;
    }
  }

  /**
   * The blocks the Python examples copy: every grid index the engine asks
   * for, each exactly once, in loop order.
   */
  lemma SelectedEnumerationExactlyOnce(g: Size5D, keep: Index5D -> bool)
    ensures forall i :: i in Select(Enumerate(g), keep) <==> InGrid(i, g) && keep(i)
    ensures Increasing(Select(Enumerate(g), keep))
    ensures Distinct(Select(Enumerate(g), keep))
  {
    EnumerateExactlyOnce(g);
    SelectFacts(Enumerate(g), keep);
    IncreasingIsDistinct(Select(Enumerate(g), keep));
  }
}
