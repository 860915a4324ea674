/**
 * The block loops: five nested loops over the block grid, channel outermost
 * and x fastest, handing one buffer to the engine per block index. Each loop
 * level is written as a method of its own, so that each proof covers one
 * level; together they are proved to hand over exactly the blocks of
 * `Enumerate`, in that order.
 */
module BlockCopy {
  import opened Results
  import opened ImageSize
  import opened BlockGrid
  import opened Converter

  /** The copies a loop plans: each index of `s`, in order, with the same buffer. */
  function Tagged<B>(s: seq<Index5D>, data: B): (r: seq<(Index5D, B)>)
    ensures |r| == |s| && forall k :: 0 <= k < |s| ==> r[k] == (s[k], data)
  {
    seq(|s|, k requires 0 <= k < |s| => (s[k], data))
  }

  lemma TaggedConcat<B>(a: seq<Index5D>, b: seq<Index5D>, data: B)
    ensures Tagged(a + b, data) == Tagged(a, data) + Tagged(b, data)
  {
    assert |Tagged(a + b, data)| == |Tagged(a, data) + Tagged(b, data)|;
  }

  /** The buffer both block loops copy: `voxel_data[i] == i % 256`. */
  method FillRamp(n: nat) returns (a: array<int>)
    ensures fresh(a) && a.Length == n
    ensures forall i :: 0 <= i < n ==> a[i] == i % 256
  {
    a := new int[n];
    for i := 0 to n
      invariant forall j :: 0 <= j < i ==> a[j] == j % 256
    {
      a[i] := i % 256;
    }
  }

  // ---------------------------------------------------------------------------
  // Copying every block, stopping at the first engine error
  // ---------------------------------------------------------------------------

  /** Every planned block was copied, in order, and the engine reported no error for any. */
  ghost predicate CopiedAll<B>(conv: ImageConverter<B>, before: seq<(Index5D, B)>, planned: seq<Index5D>, data: B)
    reads conv
  {
    conv.copies == before + Tagged(planned, data) && conv.lastException == None &&
    forall i :: i in planned ==> conv.reaction(i) == None
  }

  /**
   * A non-empty prefix of the planned blocks was copied, in order; the engine
   * reported no error for any copy but the last, and the error it reported
   * for the last one is the session's error.
   */
  ghost predicate StoppedEarly<B>(conv: ImageConverter<B>, before: seq<(Index5D, B)>, planned: seq<Index5D>, data: B)
    reads conv
  {
    exists n :: 0 < n <= |planned| && conv.copies == before + Tagged(planned[..n], data) &&
      (forall k :: 0 <= k < n - 1 ==> conv.reaction(planned[k]) == None) &&
      conv.lastException.Some? && conv.lastException == conv.reaction(planned[n - 1])
  }

  /**
   * Stopping early means stopping at the first planned copy the engine
   * reported an error for: the number of copies made pins the failing one.
   */
  lemma StoppedAtFirstError<B>(conv: ImageConverter<B>, before: seq<(Index5D, B)>, planned: seq<Index5D>, data: B)
    requires StoppedEarly(conv, before, planned, data)
    ensures |before| < |conv.copies| <= |before| + |planned|
    ensures conv.reaction(planned[|conv.copies| - |before| - 1]).Some?
    ensures forall k :: 0 <= k < |conv.copies| - |before| - 1 ==> conv.reaction(planned[k]) == None
  {
    var n := StoppedIndex(conv, before, planned, data);
    assert |conv.copies| - |before| == n;
  }

  lemma CopiedAllConcat<B>(conv: ImageConverter<B>, start: seq<(Index5D, B)>, done: seq<Index5D>, next: seq<Index5D>, data: B)
    requires CopiedAll(conv, start + Tagged(done, data), next, data)
    requires forall i :: i in done ==> conv.reaction(i) == None
    ensures CopiedAll(conv, start, done + next, data)
  {
    TaggedConcat(done, next, data);
  }

  /** Stopping early within `next`, after `done` went without error, is stopping early within `whole`. */
  lemma StoppedEarlyWithin<B>(conv: ImageConverter<B>, start: seq<(Index5D, B)>, done: seq<Index5D>,
                              next: seq<Index5D>, whole: seq<Index5D>, data: B)
    requires StoppedEarly(conv, start + Tagged(done, data), next, data)
    requires forall i :: i in done ==> conv.reaction(i) == None
    requires done + next <= whole
    ensures StoppedEarly(conv, start, whole, data)
  {
    var n := StoppedIndex(conv, start + Tagged(done, data), next, data);
    var m := |done| + n;
    PlanPrefix(done, next, whole, n, conv.reaction);
    TaggedAfter(start, done, next[..n], data);
    StoppedAt(conv, start, whole, data, m);
  }

  /** The number of planned blocks copied when the loops stopped early. */
  lemma StoppedIndex<B>(conv: ImageConverter<B>, before: seq<(Index5D, B)>, planned: seq<Index5D>, data: B)
    returns (n: nat)
    requires StoppedEarly(conv, before, planned, data)
    ensures 0 < n <= |planned| && conv.copies == before + Tagged(planned[..n], data)
    ensures forall k :: 0 <= k < n - 1 ==> conv.reaction(planned[k]) == None
    ensures conv.lastException.Some? && conv.lastException == conv.reaction(planned[n - 1])
  {
    n :| 0 < n <= |planned| && conv.copies == before + Tagged(planned[..n], data) &&
      (forall k :: 0 <= k < n - 1 ==> conv.reaction(planned[k]) == None) &&
      conv.lastException.Some? && conv.lastException == conv.reaction(planned[n - 1]);
  }

  /** The copies of `a` then `b`, after `start`, are the copies of `a + b` after `start`. */
  lemma TaggedAfter<B>(start: seq<(Index5D, B)>, a: seq<Index5D>, b: seq<Index5D>, data: B)
    ensures start + Tagged(a, data) + Tagged(b, data) == start + Tagged(a + b, data)
  {
    TaggedConcat(a, b, data);
    assert start + Tagged(a, data) + Tagged(b, data) == start + (Tagged(a, data) + Tagged(b, data));
  }

  /** The copies of the first `n` planned blocks, failing at the last of them, are stopping early. */
  lemma StoppedAt<B>(conv: ImageConverter<B>, before: seq<(Index5D, B)>, planned: seq<Index5D>, data: B, n: nat)
    requires 0 < n <= |planned| && conv.copies == before + Tagged(planned[..n], data)
    requires forall k :: 0 <= k < n - 1 ==> conv.reaction(planned[k]) == None
    requires conv.lastException.Some? && conv.lastException == conv.reaction(planned[n - 1])
    ensures StoppedEarly(conv, before, planned, data)
  {
  }

  /**
   * The first `|done| + n` planned blocks of `whole` are `done` followed by
   * the first `n` of `next`; none of them but the last has an error when
   * neither part has one before its end.
   */
  lemma PlanPrefix(done: seq<Index5D>, next: seq<Index5D>, whole: seq<Index5D>, n: nat,
                   reaction: Index5D -> Option<string>)
    requires done + next <= whole && 0 < n <= |next|
    requires forall i :: i in done ==> reaction(i) == None
    requires forall k :: 0 <= k < n - 1 ==> reaction(next[k]) == None
    ensures |done| + n <= |whole| && whole[..|done| + n] == done + next[..n]
    ensures whole[|done| + n - 1] == next[n - 1]
    ensures forall k :: 0 <= k < |done| + n - 1 ==> reaction(whole[k]) == None
  {
    assert whole[..|done| + n] == done + next[..n];
    forall k | 0 <= k < |done| + n - 1
      ensures reaction(whole[k]) == None
    {
      if k < |done| {
        assert whole[k] == done[k] && done[k] in done;
      } else {
        assert whole[k] == next[k - |done|];
      }
    }
  }

  /** A copy that failed, as the only block of a one-block plan. */
  lemma StoppedAtOne<B>(conv: ImageConverter<B>, before: seq<(Index5D, B)>, index: Index5D, data: B)
    requires conv.copies == before + [(index, data)]
    requires conv.lastException.Some? && conv.lastException == conv.reaction(index)
    ensures StoppedEarly(conv, before, [index], data)
  {
    assert [index][..1] == [index];
    assert Tagged([index], data) == [(index, data)];
  }

  /** The x loop: the blocks of one row. */
  method CopyRowEveryBlock<B>(conv: ImageConverter<B>, c: nat, t: nat, z: nat, y: nat, nx: nat, data: B)
    returns (completed: bool)
    requires conv.state == Open && conv.lastException == None
    modifies conv
    ensures conv.state == Open && conv.finished == old(conv.finished)
    ensures completed ==> CopiedAll(conv, old(conv.copies), Row(c, t, z, y, nx), data)
    ensures !completed ==> StoppedEarly(conv, old(conv.copies), Row(c, t, z, y, nx), data)
  {
    var start := conv.copies;
    for x := 0 to nx
      invariant conv.state == Open && conv.finished == old(conv.finished)
      invariant CopiedAll(conv, start, Row(c, t, z, y, x), data)
    {
      var index := Size5D(x, y, z, c, t);
      ghost var before := conv.copies;
      conv.CopyBlock(data, index);
      assert conv.copies == before + Tagged([index], data);
      if conv.GetLastException().Some? {
        StoppedAtOne(conv, before, index, data);
        RowPrefix(c, t, z, y, x + 1, nx);
        StoppedEarlyWithin(conv, start, Row(c, t, z, y, x), [index], Row(c, t, z, y, nx), data);
        return false;
      }
      CopiedAllConcat(conv, start, Row(c, t, z, y, x), [index], data);
    }
    completed := true;
  }

  /** The y loop: the rows of one plane. */
  method CopyPlaneEveryBlock<B>(conv: ImageConverter<B>, g: Size5D, c: nat, t: nat, z: nat, data: B)
    returns (completed: bool)
    requires conv.state == Open && conv.lastException == None
    modifies conv
    ensures conv.state == Open && conv.finished == old(conv.finished)
    ensures completed ==> CopiedAll(conv, old(conv.copies), Plane(g, c, t, z, g.y), data)
    ensures !completed ==> StoppedEarly(conv, old(conv.copies), Plane(g, c, t, z, g.y), data)
  {
    var start := conv.copies;
    for y := 0 to g.y
      invariant conv.state == Open && conv.finished == old(conv.finished)
      invariant CopiedAll(conv, start, Plane(g, c, t, z, y), data)
    {
      completed := CopyRowEveryBlock(conv, c, t, z, y, g.x, data);
      if !completed {
        PlanePrefix(g, c, t, z, y + 1, g.y);
        StoppedEarlyWithin(conv, start, Plane(g, c, t, z, y), Row(c, t, z, y, g.x), Plane(g, c, t, z, g.y), data);
        return;
      }
      CopiedAllConcat(conv, start, Plane(g, c, t, z, y), Row(c, t, z, y, g.x), data);
    }
    completed := true;
  }

  /** The z loop: the planes of one stack. */
  method CopyStackEveryBlock<B>(conv: ImageConverter<B>, g: Size5D, c: nat, t: nat, data: B)
    returns (completed: bool)
    requires conv.state == Open && conv.lastException == None
    modifies conv
    ensures conv.state == Open && conv.finished == old(conv.finished)
    ensures completed ==> CopiedAll(conv, old(conv.copies), Stack(g, c, t, g.z), data)
    ensures !completed ==> StoppedEarly(conv, old(conv.copies), Stack(g, c, t, g.z), data)
  {
    var start := conv.copies;
    for z := 0 to g.z
      invariant conv.state == Open && conv.finished == old(conv.finished)
      invariant CopiedAll(conv, start, Stack(g, c, t, z), data)
    {
      completed := CopyPlaneEveryBlock(conv, g, c, t, z, data);
      if !completed {
        StackPrefix(g, c, t, z + 1, g.z);
        StoppedEarlyWithin(conv, start, Stack(g, c, t, z), Plane(g, c, t, z, g.y), Stack(g, c, t, g.z), data);
        return;
      }
      CopiedAllConcat(conv, start, Stack(g, c, t, z), Plane(g, c, t, z, g.y), data);
    }
    completed := true;
  }

  /** The time loop: the stacks of one channel. */
  method CopySeriesEveryBlock<B>(conv: ImageConverter<B>, g: Size5D, c: nat, data: B)
    returns (completed: bool)
    requires conv.state == Open && conv.lastException == None
    modifies conv
    ensures conv.state == Open && conv.finished == old(conv.finished)
    ensures completed ==> CopiedAll(conv, old(conv.copies), Series(g, c, g.t), data)
    ensures !completed ==> StoppedEarly(conv, old(conv.copies), Series(g, c, g.t), data)
  {
    var start := conv.copies;
    for t := 0 to g.t
      invariant conv.state == Open && conv.finished == old(conv.finished)
      invariant CopiedAll(conv, start, Series(g, c, t), data)
    {
      completed := CopyStackEveryBlock(conv, g, c, t, data);
      if !completed {
        SeriesPrefix(g, c, t + 1, g.t);
        StoppedEarlyWithin(conv, start, Series(g, c, t), Stack(g, c, t, g.z), Series(g, c, g.t), data);
        return;
      }
      CopiedAllConcat(conv, start, Series(g, c, t), Stack(g, c, t, g.z), data);
    }
    completed := true;
  }

  /**
   * The channel loop, outermost, as the C-style test program runs it: every
   * block of the grid `g` is copied and the engine's error is checked after
   * each copy. It completes when every block was copied once, in loop order,
   * without error; otherwise it stops right after the first failing copy.
   */
  method CopyEveryBlock<B>(conv: ImageConverter<B>, g: Size5D, data: B) returns (completed: bool)
    requires conv.state == Open && conv.lastException == None
    modifies conv
    ensures conv.state == Open && conv.finished == old(conv.finished)
    ensures completed ==> CopiedAll(conv, old(conv.copies), Enumerate(g), data)
    ensures !completed ==> StoppedEarly(conv, old(conv.copies), Enumerate(g), data)
  {
    var start := conv.copies;
    for c := 0 to g.c
      invariant conv.state == Open && conv.finished == old(conv.finished)
      invariant CopiedAll(conv, start, Channels(g, c), data)
    {
      completed := CopySeriesEveryBlock(conv, g, c, data);
      if !completed {
        ChannelsPrefix(g, c + 1, g.c);
        StoppedEarlyWithin(conv, start, Channels(g, c), Series(g, c, g.t), Enumerate(g), data);
        return;
      }
      CopiedAllConcat(conv, start, Channels(g, c), Series(g, c, g.t), data);
    }
    completed := true;
  }

  // ---------------------------------------------------------------------------
  // Copying the blocks the engine asks for
  // ---------------------------------------------------------------------------

  lemma {:induction false} SelectConcat(a: seq<Index5D>, b: seq<Index5D>, keep: Index5D -> bool)
    ensures Select(a + b, keep) == Select(a, keep) + Select(b, keep)
  {
    if b != [] {
      var init, last := b[..|b| - 1], b[|b| - 1];
      assert (a + b)[..|a + b| - 1] == a + init;
      SelectConcat(a, init, keep);
    } else {
      assert a + b == a;
    }
  }

  lemma SelectSnoc(s: seq<Index5D>, i: Index5D, keep: Index5D -> bool)
    ensures Select(s + [i], keep) == Select(s, keep) + (if keep(i) then [i] else [])
  {
    assert (s + [i])[..|s|] == s;
  }

  /**
   * The x loop of the Python examples: copies a block of the row only when the
   * engine asks for it, and stops at the first copy the engine reports an
   * error for.
   */
  method CopyRowNeededBlocks<B>(conv: ImageConverter<B>, c: nat, t: nat, z: nat, y: nat, nx: nat, data: B)
    returns (completed: bool)
    requires conv.state == Open && conv.lastException == None
    modifies conv
    ensures conv.state == Open && conv.finished == old(conv.finished)
    ensures completed ==> CopiedAll(conv, old(conv.copies), Select(Row(c, t, z, y, nx), conv.needed), data)
    ensures !completed ==> StoppedEarly(conv, old(conv.copies), Select(Row(c, t, z, y, nx), conv.needed), data)
  {
    var start := conv.copies;
    for x := 0 to nx
      invariant conv.state == Open && conv.finished == old(conv.finished)
      invariant CopiedAll(conv, start, Select(Row(c, t, z, y, x), conv.needed), data)
    {
      var index := Size5D(x, y, z, c, t);
      assert Row(c, t, z, y, x + 1) == Row(c, t, z, y, x) + [index];
      SelectSnoc(Row(c, t, z, y, x), index, conv.needed);
      if !conv.NeedCopyBlock(index) {
        assert Select(Row(c, t, z, y, x + 1), conv.needed) == Select(Row(c, t, z, y, x), conv.needed);
      } else {
        ghost var before := conv.copies;
        conv.CopyBlock(data, index);
        if conv.GetLastException().Some? {
          StoppedAtOne(conv, before, index, data);
          RowPrefix(c, t, z, y, x + 1, nx);
          SelectPrefix(Row(c, t, z, y, x + 1), Row(c, t, z, y, nx), conv.needed);
          StoppedEarlyWithin(conv, start, Select(Row(c, t, z, y, x), conv.needed), [index],
                             Select(Row(c, t, z, y, nx), conv.needed), data);
          return false;
        }
        assert conv.copies == before + Tagged([index], data);
        CopiedAllConcat(conv, start, Select(Row(c, t, z, y, x), conv.needed), [index], data);
      }
    }
    completed := true;
  }

  /** The y loop of the Python examples. */
  method CopyPlaneNeededBlocks<B>(conv: ImageConverter<B>, g: Size5D, c: nat, t: nat, z: nat, data: B)
    returns (completed: bool)
    requires conv.state == Open && conv.lastException == None
    modifies conv
    ensures conv.state == Open && conv.finished == old(conv.finished)
    ensures completed ==> CopiedAll(conv, old(conv.copies), Select(Plane(g, c, t, z, g.y), conv.needed), data)
    ensures !completed ==> StoppedEarly(conv, old(conv.copies), Select(Plane(g, c, t, z, g.y), conv.needed), data)
  {
    var start := conv.copies;
    for y := 0 to g.y
      invariant conv.state == Open && conv.finished == old(conv.finished)
      invariant CopiedAll(conv, start, Select(Plane(g, c, t, z, y), conv.needed), data)
    {
      completed := CopyRowNeededBlocks(conv, c, t, z, y, g.x, data);
      SelectConcat(Plane(g, c, t, z, y), Row(c, t, z, y, g.x), conv.needed);
      if !completed {
        PlanePrefix(g, c, t, z, y + 1, g.y);
        SelectPrefix(Plane(g, c, t, z, y + 1), Plane(g, c, t, z, g.y), conv.needed);
        StoppedEarlyWithin(conv, start, Select(Plane(g, c, t, z, y), conv.needed), Select(Row(c, t, z, y, g.x), conv.needed),
                           Select(Plane(g, c, t, z, g.y), conv.needed), data);
        return;
      }
      CopiedAllConcat(conv, start, Select(Plane(g, c, t, z, y), conv.needed), Select(Row(c, t, z, y, g.x), conv.needed), data);
    }
    completed := true;
  }

  /** The z loop of the Python examples. */
  method CopyStackNeededBlocks<B>(conv: ImageConverter<B>, g: Size5D, c: nat, t: nat, data: B)
    returns (completed: bool)
    requires conv.state == Open && conv.lastException == None
    modifies conv
    ensures conv.state == Open && conv.finished == old(conv.finished)
    ensures completed ==> CopiedAll(conv, old(conv.copies), Select(Stack(g, c, t, g.z), conv.needed), data)
    ensures !completed ==> StoppedEarly(conv, old(conv.copies), Select(Stack(g, c, t, g.z), conv.needed), data)
  {
    var start := conv.copies;
    for z := 0 to g.z
      invariant conv.state == Open && conv.finished == old(conv.finished)
      invariant CopiedAll(conv, start, Select(Stack(g, c, t, z), conv.needed), data)
    {
      completed := CopyPlaneNeededBlocks(conv, g, c, t, z, data);
      SelectConcat(Stack(g, c, t, z), Plane(g, c, t, z, g.y), conv.needed);
      if !completed {
        StackPrefix(g, c, t, z + 1, g.z);
        SelectPrefix(Stack(g, c, t, z + 1), Stack(g, c, t, g.z), conv.needed);
        StoppedEarlyWithin(conv, start, Select(Stack(g, c, t, z), conv.needed), Select(Plane(g, c, t, z, g.y), conv.needed),
                           Select(Stack(g, c, t, g.z), conv.needed), data);
        return;
      }
      CopiedAllConcat(conv, start, Select(Stack(g, c, t, z), conv.needed), Select(Plane(g, c, t, z, g.y), conv.needed), data);
    }
    completed := true;
  }

  /** The time loop of the Python examples. */
  method CopySeriesNeededBlocks<B>(conv: ImageConverter<B>, g: Size5D, c: nat, data: B)
    returns (completed: bool)
    requires conv.state == Open && conv.lastException == None
    modifies conv
    ensures conv.state == Open && conv.finished == old(conv.finished)
    ensures completed ==> CopiedAll(conv, old(conv.copies), Select(Series(g, c, g.t), conv.needed), data)
    ensures !completed ==> StoppedEarly(conv, old(conv.copies), Select(Series(g, c, g.t), conv.needed), data)
  {
    var start := conv.copies;
    for t := 0 to g.t
      invariant conv.state == Open && conv.finished == old(conv.finished)
      invariant CopiedAll(conv, start, Select(Series(g, c, t), conv.needed), data)
    {
      completed := CopyStackNeededBlocks(conv, g, c, t, data);
      SelectConcat(Series(g, c, t), Stack(g, c, t, g.z), conv.needed);
      if !completed {
        SeriesPrefix(g, c, t + 1, g.t);
        SelectPrefix(Series(g, c, t + 1), Series(g, c, g.t), conv.needed);
        StoppedEarlyWithin(conv, start, Select(Series(g, c, t), conv.needed), Select(Stack(g, c, t, g.z), conv.needed),
                           Select(Series(g, c, g.t), conv.needed), data);
        return;
      }
      CopiedAllConcat(conv, start, Select(Series(g, c, t), conv.needed), Select(Stack(g, c, t, g.z), conv.needed), data);
    }
    completed := true;
  }

  /**
   * The channel loop of the Python examples: over the grid `g`, each block
   * is copied exactly when `NeedCopyBlock` holds for it, once, in loop order,
   * until the engine reports an error for a copy; the wrapper raises that
   * error, which ends the loops.
   */
  method CopyNeededBlocks<B>(conv: ImageConverter<B>, g: Size5D, data: B) returns (completed: bool)
    requires conv.state == Open && conv.lastException == None
    modifies conv
    ensures conv.state == Open && conv.finished == old(conv.finished)
    ensures completed ==> CopiedAll(conv, old(conv.copies), Select(Enumerate(g), conv.needed), data)
    ensures !completed ==> StoppedEarly(conv, old(conv.copies), Select(Enumerate(g), conv.needed), data)
  {
    var start := conv.copies;
    for c := 0 to g.c
      invariant conv.state == Open && conv.finished == old(conv.finished)
      invariant CopiedAll(conv, start, Select(Channels(g, c), conv.needed), data)
    {
      completed := CopySeriesNeededBlocks(conv, g, c, data);
      SelectConcat(Channels(g, c), Series(g, c, g.t), conv.needed);
      if !completed {
        ChannelsPrefix(g, c + 1, g.c);
        SelectPrefix(Channels(g, c + 1), Enumerate(g), conv.needed);
        StoppedEarlyWithin(conv, start, Select(Channels(g, c), conv.needed), Select(Series(g, c, g.t), conv.needed),
                           Select(Enumerate(g), conv.needed), data);
        return;
      }
      CopiedAllConcat(conv, start, Select(Channels(g, c), conv.needed), Select(Series(g, c, g.t), conv.needed), data);
    }
    completed := true;
  }

  /**
   * What the examples' loop hands to the engine: the blocks it copies are
   * exactly the grid indices `NeedCopyBlock` holds for, each once, in
   * increasing loop order.
   */
  lemma NeededCopiesExactlyOnce<B>(g: Size5D, needed: Index5D -> bool, data: B)
    ensures forall i :: (i, data) in Tagged(Select(Enumerate(g), needed), data) <==> InGrid(i, g) && needed(i)
    ensures Increasing(Select(Enumerate(g), needed))
  {
    SelectedEnumerationExactlyOnce(g, needed);
    var s := Select(Enumerate(g), needed);
    forall i ensures (i, data) in Tagged(s, data) <==> i in s {
      if (i, data) in Tagged(s, data) {
        var k :| 0 <= k < |s| && Tagged(s, data)[k] == (i, data);
        assert s[k] == i;
      }
      if i in s {
        var k :| 0 <= k < |s| && s[k] == i;
        assert Tagged(s, data)[k] == (i, data);
      }
    }
  }

  /**
   * What the C-style test program's loop hands to the engine when no copy
   * fails: every grid index, each exactly once, in increasing loop order.
   */
  lemma EveryCopyExactlyOnce<B>(g: Size5D, data: B)
    ensures |Tagged(Enumerate(g), data)| == Volume(g)
    ensures forall k :: 0 <= k < Volume(g) ==> InGrid(Tagged(Enumerate(g), data)[k].0, g)
    ensures forall i :: InGrid(i, g) ==> (i, data) in Tagged(Enumerate(g), data)
    ensures Increasing(Enumerate(g))
  {
    EnumerateExactlyOnce(g);
    var s := Enumerate(g);
    forall i | InGrid(i, g) ensures (i, data) in Tagged(s, data) {
      var k :| 0 <= k < |s| && s[k] == i;
      assert Tagged(s, data)[k] == (i, data);
    }
  }

  // ---------------------------------------------------------------------------
  // `copy_blocks` of the C-style test program
  // ---------------------------------------------------------------------------

  /** The contents of the ramp buffer of `n` voxels. */
  function Ramp(n: nat): (r: seq<int>)
    ensures |r| == n && forall i :: 0 <= i < n ==> 0 <= r[i] < 256
  {
    seq(n, i requires 0 <= i < n => i % 256)
  }

  /**
   * `copy_blocks`: fills one block's worth of ramp voxels, counts the blocks
   * per axis by ceiling division, and copies every block of that grid,
   * checking the engine's error after each copy.
   */
  method CopyBlocks(conv: ImageConverter<seq<int>>, imageSize: Size5D, blockSize: Size5D) returns (completed: bool)
    requires AllPositive(blockSize)
    requires conv.state == Open && conv.lastException == None
    modifies conv
    ensures conv.state == Open && conv.finished == old(conv.finished)
    ensures completed ==> CopiedAll(conv, old(conv.copies), Enumerate(Divide(imageSize, blockSize).value), Ramp(Volume(blockSize)))
    ensures !completed ==> StoppedEarly(conv, old(conv.copies), Enumerate(Divide(imageSize, blockSize).value), Ramp(Volume(blockSize)))
  {
    var numVoxelsPerBlock := blockSize.x * blockSize.y * blockSize.z * blockSize.c * blockSize.t;
    assert numVoxelsPerBlock == Volume(blockSize);
    var voxelData := FillRamp(numVoxelsPerBlock);
    assert voxelData[..] == Ramp(numVoxelsPerBlock);
    var numBlocks := Size5D(NumBlocks1D(imageSize.x, blockSize.x), NumBlocks1D(imageSize.y, blockSize.y),
                            NumBlocks1D(imageSize.z, blockSize.z), NumBlocks1D(imageSize.c, blockSize.c),
                            NumBlocks1D(imageSize.t, blockSize.t));
    completed := CopyEveryBlock(conv, numBlocks, voxelData[..]);
  }
}
