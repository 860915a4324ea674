/**
 * The five-axis size type (`ImageSize` in the Python wrapper, `Size5D` / `Index5D`
 * in the C interface): construction by axis keyword, and the component-wise
 * ceiling division that turns an image size and a block size into a block grid.
 */
module ImageSize {
  import opened Results

  /** One non-negative count per axis. A block index uses the same shape. */
  datatype Size5D = Size5D(x: nat, y: nat, z: nat, c: nat, t: nat)

  type Index5D = Size5D

  /** The number of voxels (or blocks) a size spans: the product of its five counts. */
  function Volume(s: Size5D): nat
  {
    s.c * (s.t * (s.z * (s.y * s.x)))
  }

  // ---------------------------------------------------------------------------
  // Construction by keyword
  // ---------------------------------------------------------------------------

  /** A value handed to the keyword constructor: Python lets any object through. */
  datatype ArgValue = IntArg(n: int) | TextArg(text: string)

  /** Keyword arguments, in the order the caller wrote them. */
  type KeywordArgs = seq<(string, ArgValue)>

  datatype SizeError = UnknownKeyword | MissingAxis | NotAnInteger

  const AxisKeywords: set<string> := {"x", "y", "z", "c", "t"}

  /** Python keyword arguments never repeat a name. */
  predicate DistinctKeywords(args: KeywordArgs)
  {
    forall i, j :: 0 <= i < j < |args| ==> args[i].0 != args[j].0
  }

  predicate Named(args: KeywordArgs, k: string)
  {
    exists i :: 0 <= i < |args| && args[i].0 == k
  }

  /** The value passed for keyword `k`, if any. */
  function Lookup(args: KeywordArgs, k: string): (r: Option<ArgValue>)
    ensures r.Some? <==> Named(args, k)
    ensures r.Some? ==> (k, r.value) in args
  {
    if args == [] then None
    else if args[0].0 == k then Some(args[0].1)
    else
      var r := Lookup(args[1..], k);
      assert Named(args[1..], k) ==> Named(args, k) by {
        if Named(args[1..], k) {
          var i :| 0 <= i < |args[1..]| && args[1..][i].0 == k;
          assert args[i + 1].0 == k;
        }
      }
      r
  }

  /** With distinct keywords, the value found is the one the caller bound to `k`. */
  lemma {:induction false} LookupFindsBinding(args: KeywordArgs, k: string, v: ArgValue)
    requires DistinctKeywords(args)
    requires (k, v) in args
    ensures Lookup(args, k) == Some(v)
  {
    if args[0] != (k, v) {
      var i :| 0 <= i < |args| && args[i] == (k, v);
      assert i > 0 && args[0].0 != args[i].0;
      assert args[1..][i - 1] == (k, v);
      LookupFindsBinding(args[1..], k, v);
    }
  }

  predicate IsCount(v: Option<ArgValue>)
  {
    v.Some? && v.value.IntArg? && v.value.n >= 0
  }

  function CountOf(v: Option<ArgValue>): nat
    requires IsCount(v)
  {
    v.value.n
  }

  predicate AllKnown(args: KeywordArgs)
  {
    forall i :: 0 <= i < |args| ==> args[i].0 in AxisKeywords
  }

  predicate AllNamed(args: KeywordArgs)
  {
    Named(args, "x") && Named(args, "y") && Named(args, "z") && Named(args, "c") && Named(args, "t")
  }

  /** Axis `k` is bound to the non-negative integer `n`. */
  ghost predicate BindsCount(args: KeywordArgs, k: string)
  {
    exists n: nat :: (k, IntArg(n)) in args
  }

  ghost predicate AllCounts(args: KeywordArgs)
  {
    BindsCount(args, "x") && BindsCount(args, "y") && BindsCount(args, "z") && BindsCount(args, "c") && BindsCount(args, "t")
  }

  lemma CountFromBinding(args: KeywordArgs, k: string)
    requires DistinctKeywords(args)
    ensures IsCount(Lookup(args, k)) <==> BindsCount(args, k)
  {
    if BindsCount(args, k) {
      var n: nat :| (k, IntArg(n)) in args;
      LookupFindsBinding(args, k, IntArg(n));
    }
  }

  /**
   * `ImageSize(**kwargs)`. With no arguments at all it is the zero size (the
   * examples use it as a fresh block index); otherwise an unknown keyword, a
   * missing axis or a value that is not a non-negative integer is refused, and
   * each axis takes the value bound to its own name, wherever it was written.
   */
  function MakeImageSize(args: KeywordArgs): (r: Result<Size5D, SizeError>)
    requires DistinctKeywords(args)
    ensures args == [] ==> r == Ok(Size5D(0, 0, 0, 0, 0))
    ensures args != [] ==> (r == Err(UnknownKeyword) <==> !AllKnown(args))
    ensures args != [] ==> (r == Err(MissingAxis) <==> AllKnown(args) && !AllNamed(args))
    ensures args != [] ==> (r.Ok? <==> AllKnown(args) && AllCounts(args))
    ensures args != [] && r.Ok? ==>
      ("x", IntArg(r.value.x)) in args && ("y", IntArg(r.value.y)) in args && ("z", IntArg(r.value.z)) in args &&
      ("c", IntArg(r.value.c)) in args && ("t", IntArg(r.value.t)) in args
  {
    CountFromBinding(args, "x"); CountFromBinding(args, "y"); CountFromBinding(args, "z");
    CountFromBinding(args, "c"); CountFromBinding(args, "t");
    if args == [] then Ok(Size5D(0, 0, 0, 0, 0))
    else if exists i :: 0 <= i < |args| && args[i].0 !in AxisKeywords then Err(UnknownKeyword)
    else if Lookup(args, "x").None? || Lookup(args, "y").None? || Lookup(args, "z").None?
         || Lookup(args, "c").None? || Lookup(args, "t").None? then Err(MissingAxis)
    else if !IsCount(Lookup(args, "x")) || !IsCount(Lookup(args, "y")) || !IsCount(Lookup(args, "z"))
         || !IsCount(Lookup(args, "c")) || !IsCount(Lookup(args, "t")) then Err(NotAnInteger)
    else Ok(Size5D(CountOf(Lookup(args, "x")), CountOf(Lookup(args, "y")), CountOf(Lookup(args, "z")),
                   CountOf(Lookup(args, "c")), CountOf(Lookup(args, "t"))))
  }

  /** Axis identity comes from names only: reordering the keywords changes nothing. */
  lemma {:induction false} MakeImageSizeIgnoresOrder(a: KeywordArgs, b: KeywordArgs)
    requires DistinctKeywords(a) && DistinctKeywords(b)
    requires forall p :: p in a <==> p in b
    ensures MakeImageSize(a) == MakeImageSize(b)
  {
    forall k | k in AxisKeywords
      ensures Lookup(a, k) == Lookup(b, k)
    {
      if Lookup(a, k).Some? {
        LookupFindsBinding(b, k, Lookup(a, k).value);
      } else if Lookup(b, k).Some? {
        LookupFindsBinding(a, k, Lookup(b, k).value);
      }
    }
    if a != [] {
      assert a[0] in b;
    }
    if b != [] {
      assert b[0] in a;
    }
    if !AllKnown(b) {
      var i :| 0 <= i < |b| && b[i].0 !in AxisKeywords;
      assert b[i] in a;
      var j :| 0 <= j < |a| && a[j] == b[i];
    }
    if !AllKnown(a) {
      var i :| 0 <= i < |a| && a[i].0 !in AxisKeywords;
      assert a[i] in b;
      var j :| 0 <= j < |b| && b[j] == a[i];
    }
  }

  // ---------------------------------------------------------------------------
  // Block counts
  // ---------------------------------------------------------------------------

  /** `num_blocks_1D`: how many blocks of `blockSize` cover `size` voxels. */
  function NumBlocks1D(size: nat, blockSize: nat): (n: nat)
    requires blockSize > 0
    ensures n * blockSize >= size
    ensures n == 0 || (n - 1) * blockSize < size
  {
    var n := (size + blockSize - 1) / blockSize;
    assert size + blockSize - 1 == blockSize * n + (size + blockSize - 1) % blockSize;
    n
  }

  datatype DivisionError = ZeroBlockAxis

  predicate AllPositive(s: Size5D)
  {
    s.x > 0 && s.y > 0 && s.z > 0 && s.c > 0 && s.t > 0
  }

  /** The count of blocks `block` needs along one axis to cover `size` there. */
  predicate Covers(n: nat, size: nat, block: nat)
  {
    n * block >= size && (n == 0 || (n - 1) * block < size)
  }

  /** `ImageSize.__truediv__`: the block grid, one ceiling division per axis. */
  function Divide(image: Size5D, block: Size5D): (r: Result<Size5D, DivisionError>)
    ensures r.Ok? <==> AllPositive(block)
    ensures r.Ok? ==>
      Covers(r.value.x, image.x, block.x) && Covers(r.value.y, image.y, block.y) &&
      Covers(r.value.z, image.z, block.z) && Covers(r.value.c, image.c, block.c) &&
      Covers(r.value.t, image.t, block.t)
  {
    if !AllPositive(block) then Err(ZeroBlockAxis)
    else Ok(Size5D(NumBlocks1D(image.x, block.x), NumBlocks1D(image.y, block.y), NumBlocks1D(image.z, block.z),
                   NumBlocks1D(image.c, block.c), NumBlocks1D(image.t, block.t)))
  }

  /** `Covers` pins the count down: it is the ceiling of size / block. */
  lemma CoversIsCeiling(n: nat, m: nat, size: nat, block: nat)
    requires block > 0 && Covers(n, size, block) && Covers(m, size, block)
    ensures n == m
  {
    CoversAtMost(n, m, size, block);
    CoversAtMost(m, n, size, block);
  }

  /** No covering count exceeds another count whose blocks reach `size`. */
  lemma CoversAtMost(n: nat, m: nat, size: nat, block: nat)
    requires block > 0 && Covers(n, size, block) && m * block >= size
    ensures n <= m
  {
    if n > 0 {
      MulCancel(n - 1, m, block);
    }
  }

  lemma MulCancel(a: int, b: int, k: int)
    requires k > 0 && a * k < b * k
    ensures a < b
  {
    assert (b - a) * k == b * k - a * k;
  }

  /** The grid of the C test program: image (512,512,32,2,4) in blocks of (256,256,8,1,1). */
  lemma CtypesGrid()
    ensures Divide(Size5D(512, 512, 32, 2, 4), Size5D(256, 256, 8, 1, 1)) == Ok(Size5D(2, 2, 4, 2, 4))
    ensures Volume(Size5D(2, 2, 4, 2, 4)) == 128
  {
  }

  /** The unit test of division: (2048,2048,100,3,1) / (512,512,1,1,1). */
  lemma DivisionExample()
    ensures Divide(Size5D(2048, 2048, 100, 3, 1), Size5D(512, 512, 1, 1, 1)) == Ok(Size5D(4, 4, 100, 3, 1))
  {
  }

  /** A size divided by itself is a single block, whatever the size. */
  lemma {:induction false} DivideBySelf(s: Size5D)
    requires AllPositive(s)
    ensures Divide(s, s) == Ok(Size5D(1, 1, 1, 1, 1))
  {
    var r := Divide(s, s).value;
    CoversIsCeiling(r.x, 1, s.x, s.x);
    CoversIsCeiling(r.y, 1, s.y, s.y);
    CoversIsCeiling(r.z, 1, s.z, s.z);
    CoversIsCeiling(r.c, 1, s.c, s.c);
    CoversIsCeiling(r.t, 1, s.t, s.t);
  }
}
