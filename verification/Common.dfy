/** Small vocabulary shared by every other module. */
module Common {
  datatype Option<+T> = None | Some(value: T)

  /** The contents of a Go string or byte slice. */
  type byte = n: nat | n < 256
  type Bytes = seq<byte>

  /** The bytes of an ASCII literal. */
  function Ascii(s: string): (b: Bytes)
    ensures |b| == |s|
  {
    seq(|s|, i requires 0 <= i < |s| => s[i] as int % 256)
  }

  /** Instants and durations in nanoseconds. Instant 0 is Go's zero time.Time. */
  type Time = int

  const SECOND: Time := 1_000_000_000

  function Min(a: int, b: int): (m: int)
    ensures m <= a && m <= b && (m == a || m == b)
  {
    if a <= b then a else b
  }

  function Max(a: int, b: int): (m: int)
    ensures a <= m && b <= m && (m == a || m == b)
  {
    if a >= b then a else b
  }

  // ---- Counting --------------------------------------------------------------------------

  function One(p: bool): int {
    if p then 1 else 0
  }

  lemma SubsetSize<T>(a: set<T>, b: set<T>)
    requires a <= b
    ensures |a| <= |b|
  {
    assert b == a + (b - a);
  }

  lemma WithOrWithout<T>(a: set<T>, x: T)
    ensures |a| == |a - {x}| + One(x in a)
  {
    assert a == if x in a then (a - {x}) + {x} else a - {x};
  }
}
