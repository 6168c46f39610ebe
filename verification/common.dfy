/** Values shared by both preview back-ends: 32-bit unsigned arithmetic as C++ does it,
    the stream metadata handed to Show, and the outcome of an operation that may throw. */
module Common {

  /** 2^32: the modulus of `unsigned int` / `uint32_t` arithmetic. */
  const U32: nat := 0x1_0000_0000

  predicate IsU32(x: int) { 0 <= x < U32 }

  /** Unsigned 32-bit multiplication, wrapping like C++ `unsigned int *`. */
  function Mul32(a: nat, b: nat): (r: nat)
    ensures r < U32
    ensures a * b < U32 ==> r == a * b
  {
    (a * b) % U32
  }

  /** Multiplication of naturals is monotonic in both factors. */
  lemma MulMono(a: nat, b: nat, c: nat, d: nat)
    requires a <= c && b <= d
    ensures a * b <= c * d
  {
  }

  /** Unsigned 32-bit addition, wrapping like C++ `unsigned int +`. */
  function Add32(a: nat, b: nat): (r: nat)
    ensures r < U32
    ensures a + b < U32 ==> r == a + b
  {
    (a + b) % U32
  }

  /** Unsigned 32-bit subtraction: a negative difference wraps around to a large value. */
  function Sub32(a: nat, b: nat): (r: nat)
    requires a < U32 && b < U32
    ensures r < U32
    ensures b <= a ==> r == a - b
    ensures a < b ==> r == U32 + a - b
  {
    (a - b) % U32
  }

  /** Conversion of an `int` to `uint32_t` (modulo 2^32). */
  function ToU32(x: int): (r: nat)
    ensures r < U32
    ensures 0 <= x < U32 ==> r == x
  {
    x % U32
  }

  /** `static_cast<EGLint>` of a `uint32_t`: reinterpretation as a signed 32-bit value. */
  function AsEglInt(u: nat): (r: int)
    requires u < U32
    ensures -0x8000_0000 <= r < 0x8000_0000
    ensures r % U32 == u
    ensures u < 0x8000_0000 ==> r == u
  {
    if u < 0x8000_0000 then u else u - U32
  }

  /** 2^n: the value of `1 << n`, a single set bit. */
  function Pow2(n: nat): (r: nat)
    ensures r >= 1
    ensures n > 0 ==> r % 2 == 0
  {
    if n == 0 then 1 else 2 * Pow2(n - 1)
  }

  /** Bit `n` of `x`, the test `(x & (1 << n)) != 0`: the lowest bit of `x` shifted right
      `n` places. */
  predicate BitSet(x: nat, n: nat)
    decreases n
  {
    if n == 0 then x % 2 == 1 else BitSet(x / 2, n - 1)
  }

  /** `0 & (1 << n)` is zero: no bit of 0 is set. */
  lemma {:induction false} NoBitOfZero(n: nat)
    ensures !BitSet(0, n)
    decreases n
  {
    if n > 0 {
      NoBitOfZero(n - 1);
    }
  }

  /** The mask `1 << k` has bit `n` set exactly when `n == k`: a plane whose
      `possible_crtcs` names a single CRTC index is usable on that index and no other. */
  lemma {:induction false} SingleBitMask(k: nat, n: nat)
    ensures BitSet(Pow2(k), n) <==> n == k
    decreases n
  {
    if n == 0 {
      if k > 0 {
        assert Pow2(k) % 2 == 0;
      }
    } else if k == 0 {
      assert Pow2(0) / 2 == 0;
      NoBitOfZero(n - 1);
    } else {
      assert Pow2(k) / 2 == Pow2(k - 1);
      SingleBitMask(k - 1, n - 1);
    }
  }

  /** libcamera's colour-space presets; `Custom` stands for any other combination of
      primaries, transfer function, Y'CbCr encoding and range. */
  datatype ColourSpace = Raw | Jpeg | Srgb | Smpte170m | Rec709 | Rec2020 | Custom

  datatype Option<+T> = None | Some(value: T)

  /** Stream metadata of one image buffer (`StreamInfo`). */
  datatype StreamInfo = StreamInfo(width: nat, height: nat, stride: nat, colourSpace: Option<ColourSpace>)

  /** A `StreamInfo` as default-constructed inside a fresh `Buffer`. */
  const DefaultInfo := StreamInfo(0, 0, 0, None)

  /** What a back-end call that may throw `std::runtime_error` ended with. */
  datatype Outcome<+E> = Pass | Fail(error: E)

  datatype Result<+T, +E> = Ok(value: T) | Err(error: E)

  /** `strstr(hay, needle) != NULL`, as strstr scans: `needle` starts `hay` or occurs in
      the rest of it. */
  predicate Contains(hay: string, needle: string)
    decreases |hay|
  {
    needle <= hay || (|hay| > 0 && Contains(hay[1..], needle))
  }

  /** `needle` occurs in `hay` starting at index `i`. */
  predicate OccursAt(hay: string, needle: string, i: int)
  {
    0 <= i && i + |needle| <= |hay| && hay[i..i + |needle|] == needle
  }

  /** The scan finds `needle` exactly when it occurs at some index of `hay`; the empty
      string occurs in every string. */
  lemma {:induction false} ContainsOccurs(hay: string, needle: string)
    ensures Contains(hay, needle) <==> exists i :: OccursAt(hay, needle, i)
    ensures needle == [] ==> Contains(hay, needle)
    decreases |hay|
  {
    if needle <= hay {
      assert OccursAt(hay, needle, 0);
    } else if |hay| > 0 {
      ContainsOccurs(hay[1..], needle);
      if Contains(hay[1..], needle) {
        var j :| OccursAt(hay[1..], needle, j);
        assert hay[1..][j..j + |needle|] == hay[j + 1..j + 1 + |needle|];
        assert OccursAt(hay, needle, j + 1);
      }
      if i :| OccursAt(hay, needle, i) {
        assert i != 0;
        assert hay[1..][i - 1..i - 1 + |needle|] == hay[i..i + |needle|];
        assert OccursAt(hay[1..], needle, i - 1);
      }
    }
  }
}
