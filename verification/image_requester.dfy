/**
 * ImageRequester: the process-wide image requester of the Shrine demo.
 * Modelled here: the cache budget computed from the screen size with Kotlin's
 * 32-bit `Int` arithmetic, the hand-over of that budget to the bitmap cache, the
 * delegation of an image URL to a network image view, and the lazily created
 * singleton of the companion object.
 */
module ImageRequesting {
  import opened Wrappers

  /** 2^32: Kotlin `Int` arithmetic is carried out modulo this number. */
  const Modulus: int := 0x1_0000_0000

  /** Kotlin `Int`: a two's-complement 32-bit integer. */
  newtype Int32 = x: int | -0x8000_0000 <= x < 0x8000_0000

  /** `a` and `b` stand for the same Kotlin `Int`. */
  ghost predicate Congruent32(a: int, b: int)
  {
    (a - b) % Modulus == 0
  }

  /** The Kotlin `Int` that an exact integer result wraps around to. */
  function Wrap32(x: int): (r: Int32)
    ensures Congruent32(r as int, x)
    ensures -0x8000_0000 <= x < 0x8000_0000 ==> r as int == x
  {
    var m := x % Modulus;
    if m < 0x8000_0000 then m as Int32 else (m - Modulus) as Int32
  }

  /** Kotlin `Int.times`: the product, wrapped around on overflow. */
  function Mul32(a: Int32, b: Int32): (r: Int32)
    ensures Congruent32(r as int, a as int * b as int)
    ensures -0x8000_0000 <= a as int * b as int < 0x8000_0000 ==> r as int == a as int * b as int
  {
    Wrap32(a as int * b as int)
  }

  /** The display dimensions in pixels, as the platform reports them. */
  datatype DisplayMetrics = DisplayMetrics(widthPixels: Int32, heightPixels: Int32)

  /** An Android context; only the display metrics of its resources are modelled. */
  datatype Context = Context(displayMetrics: DisplayMetrics)

  /** Raw bytes per pixel of a decoded ARGB_8888 bitmap. */
  const BytesPerPixel: Int32 := 4

  /** How many full screens of bitmaps the cache may hold. */
  const ScreensCached: Int32 := 3

  /**
   * calculateMaxByteSize: three screens' worth of 4-byte pixels, in `Int` arithmetic.
   * The three wrapping multiplications give the same `Int` as wrapping the exact
   * product once.
   */
  function CalculateMaxByteSize(context: Context): (r: Int32)
    ensures r == Wrap32(ExactMaxByteSize(context))
  {
    var metrics := context.displayMetrics;
    var pixels := metrics.widthPixels as int * metrics.heightPixels as int;
    WrapThenMultiply(pixels, BytesPerPixel);
    WrapThenMultiply(pixels * 4, ScreensCached);
    assert pixels * 4 * 3 == ExactMaxByteSize(context);
    var screenBytes := Mul32(Mul32(metrics.widthPixels, metrics.heightPixels), BytesPerPixel);
    Mul32(screenBytes, ScreensCached)
  }

  /** The exact (unbounded) number of bytes three screens of pixels take. */
  function ExactMaxByteSize(context: Context): int
  {
    context.displayMetrics.widthPixels as int * context.displayMetrics.heightPixels as int * 12
  }

  /** Multiplying both sides keeps two numbers congruent modulo 2^32. */
  lemma CongruentScale(a: int, b: int, c: int)
    requires Congruent32(a, b)
    ensures Congruent32(a * c, b * c)
  {
    var q := (a - b) / Modulus;
    assert a - b == Modulus * q;
    calc {
      a * c - b * c;
      (a - b) * c;
      Modulus * (q * c);
    }
    MultipleOfModulus(q * c);
  }

  /** Every multiple of 2^32 stands for the `Int` zero. */
  lemma MultipleOfModulus(k: int)
    ensures (Modulus * k) % Modulus == 0
  {
  }

  /** Two `Int`s that are congruent modulo 2^32 are equal. */
  lemma CongruentInt32Equal(a: Int32, b: int)
    requires -0x8000_0000 <= b < 0x8000_0000
    requires Congruent32(a as int, b)
    ensures a as int == b
  {
    var q := (a as int - b) / Modulus;
    assert a as int - b == Modulus * q;
  }

  /** Congruence is transitive. */
  lemma CongruentTrans(a: int, b: int, c: int)
    requires Congruent32(a, b) && Congruent32(b, c)
    ensures Congruent32(a, c)
  {
    var p := (a - b) / Modulus;
    var q := (b - c) / Modulus;
    assert a - c == Modulus * (p + q);
    MultipleOfModulus(p + q);
  }

  /** Congruent integers wrap to the same `Int`. */
  lemma WrapCongruent(x: int, y: int)
    requires Congruent32(x, y)
    ensures Wrap32(x) == Wrap32(y)
  {
    var a, b := Wrap32(x), Wrap32(y);
    CongruentTrans(a as int, x, y);
    CongruentSymmetric(b as int, y);
    CongruentTrans(a as int, y, b as int);
    CongruentInt32Equal(a, b as int);
  }

  /** Congruence is symmetric. */
  lemma CongruentSymmetric(a: int, b: int)
    requires Congruent32(a, b)
    ensures Congruent32(b, a)
  {
    var q := (a - b) / Modulus;
    assert b - a == Modulus * -q;
    MultipleOfModulus(-q);
  }

  /** Wrapping an intermediate product does not change the wrapped final product. */
  lemma WrapThenMultiply(a: int, c: Int32)
    ensures Mul32(Wrap32(a), c) == Wrap32(a * c as int)
  {
    CongruentScale(Wrap32(a) as int, a, c as int);
    WrapCongruent(Wrap32(a) as int * c as int, a * c as int);
  }

  /** When three screens of pixels fit in an `Int`, the budget is exactly that many bytes. */
  lemma MaxByteSizeExact(context: Context)
    requires 0 <= ExactMaxByteSize(context) < 0x8000_0000
    ensures CalculateMaxByteSize(context) as int == ExactMaxByteSize(context)
  {
  }

  /** Without overflow the budget is a non-negative multiple of 12 bytes. */
  lemma MaxByteSizeMultipleOf12(context: Context)
    requires 0 <= ExactMaxByteSize(context) < 0x8000_0000
    ensures CalculateMaxByteSize(context) >= 0
    ensures CalculateMaxByteSize(context) as int % 12 == 0
  {
    MaxByteSizeExact(context);
  }

  /** Without overflow, a screen at least as wide and as tall gets at least as large a budget. */
  lemma MaxByteSizeMonotone(small: Context, large: Context)
    requires 0 <= small.displayMetrics.widthPixels <= large.displayMetrics.widthPixels
    requires 0 <= small.displayMetrics.heightPixels <= large.displayMetrics.heightPixels
    requires ExactMaxByteSize(large) < 0x8000_0000
    ensures 0 <= CalculateMaxByteSize(small) <= CalculateMaxByteSize(large)
  {
    var w1, h1 := small.displayMetrics.widthPixels as int, small.displayMetrics.heightPixels as int;
    var w2, h2 := large.displayMetrics.widthPixels as int, large.displayMetrics.heightPixels as int;
    assert w1 * h1 <= w2 * h1 by { MulMonotone(w1, w2, h1); }
    assert w2 * h1 <= w2 * h2 by { MulMonotone(h1, h2, w2); }
    MaxByteSizeExact(small);
    MaxByteSizeExact(large);
  }

  /** Multiplying by a non-negative factor keeps the order. */
  lemma MulMonotone(a: int, b: int, c: int)
    requires a <= b && 0 <= c
    ensures a * c <= b * c
  {
  }

  /** A 1080 x 1920 screen yields a budget of 24,883,200 bytes. */
  lemma MaxByteSizeFullHd()
    ensures CalculateMaxByteSize(Context(DisplayMetrics(1080, 1920))) == 24_883_200
  {
  }

  /** The `Int` arithmetic overflows for a 16384 x 16384 display: the budget comes out negative. */
  lemma MaxByteSizeWrapsNegative()
    ensures CalculateMaxByteSize(Context(DisplayMetrics(16384, 16384))) == -0x4000_0000
  {
  }

  /** A NetworkImageView, reduced to the URL and the requester it was last handed. */
  class NetworkImageView {
    var imageUrl: Option<string>
    var loader: ImageRequester?

    constructor ()
      ensures imageUrl == None && loader == null
    {
      imageUrl := None;
      loader := null;
    }

    /** setImageUrl: remember the URL to show and the loader to fetch it with. */
    method SetImageUrl(url: string, requester: ImageRequester)
      modifies this
      ensures imageUrl == Some(url) && loader == requester
    {
      imageUrl := Some(url);
      loader := requester;
    }
  }

  /** The image requester: its cache budget, fixed at construction. */
  class ImageRequester {
    /** The byte budget computed once, in the constructor. */
    const maxByteSize: Int32
    /** The maximum size the bitmap LRU cache is created with. */
    const cacheMaxSize: Int32

    constructor (context: Context)
      ensures maxByteSize == CalculateMaxByteSize(context)
      ensures cacheMaxSize == maxByteSize
    {
      maxByteSize := CalculateMaxByteSize(context);
      cacheMaxSize := maxByteSize;
    }

    /** setImageFromUrl: hand the URL and this requester's loader to the view. */
    method SetImageFromUrl(networkImageView: NetworkImageView, url: string)
      modifies networkImageView
      ensures networkImageView.imageUrl == Some(url)
      ensures networkImageView.loader == this
    {
      networkImageView.SetImageUrl(url, this);
    }
  }

  /**
   * The companion object of ImageRequester: the static `instance` field and the
   * count of constructor runs it has caused.
   */
  class ImageRequesterCompanion {
    var instance: ImageRequester?
    ghost var constructorRuns: nat

    /**
     * The instance exists exactly when the constructor has run, and it ran at most
     * once (construction always succeeds in this model).
     */
    ghost predicate Valid()
      reads this
    {
      constructorRuns <= 1 && (instance == null <==> constructorRuns == 0)
    }

    constructor ()
      ensures Valid() && instance == null
    {
      instance := null;
      constructorRuns := 0;
    }

    /**
     * getInstance: the first call constructs the requester from its context,
     * every later call returns that same requester and ignores its context.
     */
    method GetInstance(context: Context) returns (r: ImageRequester)
      requires Valid()
      modifies this
      ensures Valid() && instance == r
      ensures old(instance) != null ==> r == old(instance) && constructorRuns == old(constructorRuns)
      ensures old(instance) == null ==>
                fresh(r) && r.maxByteSize == CalculateMaxByteSize(context) &&
                r.cacheMaxSize == r.maxByteSize && constructorRuns == 1
    {
      var result := instance;
      if result == null {
        // the synchronized block re-reads the field before constructing
        result := instance;
        if result == null {
          instance := new ImageRequester(context);
          constructorRuns := constructorRuns + 1;
          result := instance;
        }
      }
      r := result;
    }
  }

  /** Two successive getInstance calls return one requester, built from the first context only. */
  method GetInstanceTwice(companion: ImageRequesterCompanion, first: Context, second: Context)
    returns (a: ImageRequester, b: ImageRequester)
    requires companion.Valid() && companion.instance == null
    modifies companion
    ensures a == b && companion.instance == a
    ensures a.maxByteSize == CalculateMaxByteSize(first) && a.cacheMaxSize == a.maxByteSize
    ensures companion.Valid() && companion.constructorRuns == 1
  {
    a := companion.GetInstance(first);
    b := companion.GetInstance(second);
  }
}
