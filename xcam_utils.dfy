/**
 * Helpers of libxcam that the modelled sources use but whose definitions
 * (xcam_utils.h, stitcher.h, test_common.h) are not part of this model.
 * Each one is declared here with the contract it is ASSUMED to have; none
 * of these bodies is taken from the library.
 */
module XCamUtils {
  import Arith

  /** Assumed value of XCAM_STITCH_MAX_CAMERAS. */
  const MaxCameras: nat := 6

  /** Assumed value of XCAM_STITCH_FISHEYE_MAX_NUM. */
  const FisheyeMaxNum: nat := 6

  /** Assumed value of XCAM_TEST_MAX_STR_SIZE (size of the name buffers, NUL included). */
  const TestMaxStrSize: nat := 1024

  /** 2^32: uint32_t arithmetic wraps modulo this. */
  const U32Modulus: int := 0x1_0000_0000

  /** Conversion of a C int to uint32_t (wrap-around modulo 2^32). */
  function ToU32(x: int): (r: nat)
    ensures r < U32Modulus
    ensures (r - x) % U32Modulus == 0
    ensures 0 <= x < U32Modulus ==> r == x
  {
    x % U32Modulus
  }

  /**
   * Assumed XCAM_ALIGN_UP(v, a): the least multiple of a that is >= v.
   * (The library computes it with a bit mask, which agrees when a is a power of two.)
   */
  function AlignUp(v: nat, a: nat): (r: nat)
    requires a >= 1
    ensures r % a == 0
    ensures v <= r < v + a
  {
    FloorMultiple(v + a - 1, a);
    (v + a - 1) / a * a
  }

  /** Assumed XCAM_ALIGN_AROUND(v, a): v rounded to the nearest multiple of a, halves rounding up. */
  function AlignAround(v: nat, a: nat): (r: nat)
    requires a >= 1
    ensures r % a == 0
    ensures r <= v + a / 2 < r + a
  {
    FloorMultiple(v + a / 2, a);
    (v + a / 2) / a * a
  }

  /** n / a * a is the largest multiple of a not above n. */
  lemma FloorMultiple(n: nat, a: nat)
    requires a >= 1
    ensures (n / a * a) % a == 0
    ensures n / a * a <= n < n / a * a + a
  {
    var q := n / a;
    Arith.DivModUnique(q * a, q, 0, a);
  }

  /** Assumed format_angle: one correction by 360 degrees towards [0, 360). */
  function FormatAngle(angle: real): (r: real)
    ensures -360.0 <= angle < 720.0 ==> 0.0 <= r < 360.0
    ensures 0.0 <= angle < 360.0 ==> r == angle
  {
    if angle < 0.0 then angle + 360.0
    else if angle >= 360.0 then angle - 360.0
    else angle
  }

  /** Assumed XCAM_DOUBLE_EQUAL_AROUND(a, b): a lies within 1e-6 of b. */
  predicate DoubleEqualAround(a: real, b: real)
  {
    b - 0.000001 <= a <= b + 0.000001
  }

  /**
   * Conversion of a non-negative float to an unsigned integer (truncation).
   * A negative float has no defined unsigned value in C++; the model maps it to 0.
   */
  function TruncToNat(x: real): (r: nat)
    ensures x >= 0.0 ==> r as real <= x < r as real + 1.0
    ensures x < 0.0 ==> r == 0
  {
    if x < 0.0 then 0 else x.Floor
  }

  /** Float division; a zero divisor (inf/NaN in the source) is mapped to 0 and is not modelled. */
  function Div(a: real, b: real): (r: real)
    ensures b != 0.0 ==> r * b == a
  {
    if b == 0.0 then 0.0 else a / b
  }
}
