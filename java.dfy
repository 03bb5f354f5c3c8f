/**
 * The parts of the Java language and runtime that the privilege classes rely on:
 * the 64-bit `long` used as a bit set, the `int` shift `1 << index`, the
 * signed comparison `> 0`, `String.compareTo`, and the exceptions the core throws.
 */
module Java {

  /** The exceptions the modelled code raises. */
  datatype Exception =
    | AnalysisException   // com.starrocks.common.AnalysisException
    | ClassCastException  // java.lang.ClassCastException
    | IOException         // java.io.IOException (here: end of input or an unexpected datum)
    | IllegalStateException  // thrown by Guava's Preconditions.checkState

  /** A value, or the exception a Java method threw instead of returning one. */
  datatype Result<T> = Ok(value: T) | Err(error: Exception)

  /** How a `void` Java method ended: normally, or by throwing. */
  datatype Outcome = Success | Failure(error: Exception)

  /** A Java reference that may be null. */
  datatype Option<T> = None | Some(value: T)

  const LongWidth: nat := 64

  /**
   * A Java `long`, given as the set of positions of its one bits
   * (position 0 is the least significant bit, position 63 the sign bit).
   */
  type Long = s: set<nat> | forall i | i in s :: i < LongWidth witness {}

  /** The bit positions lo..hi-1. */
  function Positions(lo: nat, hi: nat): (s: set<nat>)
    ensures forall i :: i in s <==> lo <= i < hi
    decreases hi - lo
  {
    if hi <= lo then {} else {lo} + Positions(lo + 1, hi)
  }

  /** The long whose 64 bits are all one (the value -1L). */
  function AllOnes(): (w: Long)
    ensures forall i: nat :: i in w <==> i < LongWidth
  {
    Positions(0, LongWidth)
  }

  /** `a | b` */
  function BitOr(a: Long, b: Long): (r: Long)
    ensures forall i :: i in r <==> i in a || i in b
  {
    a + b
  }

  /** `a & b` */
  function BitAnd(a: Long, b: Long): (r: Long)
    ensures forall i :: i in r <==> i in a && i in b
  {
    a * b
  }

  /** `a ^ b` */
  function BitXor(a: Long, b: Long): (r: Long)
    ensures forall i :: i in r <==> (i in a) != (i in b)
  {
    (a - b) + (b - a)
  }

  /** `~a` */
  function BitNot(a: Long): (r: Long)
    ensures forall i: nat :: i in r <==> i < LongWidth && i !in a
  {
    AllOnes() - a
  }

  /**
   * The long value of the Java `int` expression `1 << index`, as it is widened
   * when combined with a long. Java uses only the low five bits of the shift
   * distance, and the `int` result for distance 31 is negative, so widening
   * sign-extends it to bits 31..63.
   */
  function IntShiftLeftOne(index: int): (w: Long)
    ensures 0 <= index < 31 ==> w == {index}
    ensures index % 32 == 31 ==> forall i: nat :: i in w <==> 31 <= i < LongWidth
  {
    var distance := index % 32;
    if distance == 31 then Positions(31, LongWidth) else {distance}
  }

  /** The signed comparison `w > 0` on a long: some bit is set and the sign bit is clear. */
  predicate IsPositive(w: Long)
  {
    w != {} && 63 !in w
  }

  /**
   * `a.compareTo(b)` of java.lang.String: the difference of the first pair of
   * differing characters, or else the difference of the lengths.
   */
  function CompareStrings(a: string, b: string): (r: int)
    ensures a == b ==> r == 0
    ensures r == 0 ==> |a| == |b|
    decreases |a|
  {
    if |a| == 0 || |b| == 0 then |a| - |b|
    else if a[0] != b[0] then a[0] as int - b[0] as int
    else CompareStrings(a[1..], b[1..])
  }

  /** Swapping the arguments of `compareTo` negates the result exactly. */
  lemma {:induction false} CompareStringsAntisymmetric(a: string, b: string)
    ensures CompareStrings(a, b) == -CompareStrings(b, a)
    decreases |a|
  {
    if |a| != 0 && |b| != 0 && a[0] == b[0] {
      CompareStringsAntisymmetric(a[1..], b[1..]);
    }
  }

  /** `compareTo` is zero exactly when the strings are equal. */
  lemma {:induction false} CompareStringsZeroIff(a: string, b: string)
    ensures CompareStrings(a, b) == 0 <==> a == b
    decreases |a|
  {
    if |a| != 0 && |b| != 0 && a[0] == b[0] {
      CompareStringsZeroIff(a[1..], b[1..]);
      assert a == [a[0]] + a[1..];
      assert b == [b[0]] + b[1..];
    }
  }

  /** `compareTo` orders strings transitively. */
  lemma {:induction false} CompareStringsTransitive(a: string, b: string, c: string)
    requires CompareStrings(a, b) < 0 && CompareStrings(b, c) < 0
    ensures CompareStrings(a, c) < 0
    decreases |a|
  {
    if |a| != 0 && |b| != 0 && |c| != 0 && a[0] == b[0] && b[0] == c[0] {
      CompareStringsTransitive(a[1..], b[1..], c[1..]);
    }
  }
}
