/** Small shared vocabulary: optional values, results, Java's 32-bit `int`, duplicate-free lists. */
module Base {

  /** A value that may be absent (Java's `Optional` or a nullable reference). */
  datatype Option<+T> = None | Some(value: T)

  /** The outcome of an operation that may throw a checked exception. */
  datatype Result<+T, +E> = Success(value: T) | Failure(error: E)

  const Int32Min: int := -0x8000_0000
  const Int32Max: int := 0x7fff_ffff

  /** Java's `int`. */
  type Int32 = x: int | Int32Min <= x <= Int32Max

  /** No element of `s` occurs twice. */
  predicate NoDuplicates<T(==)>(s: seq<T>) {
    forall i, j :: 0 <= i < j < |s| ==> s[i] != s[j]
  }
}
