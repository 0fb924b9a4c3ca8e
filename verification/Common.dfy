/** Machine integers and the few sequence facts that several components share. */
module Common {

  type u8 = x: int | 0 <= x < 0x100
  type u16 = x: int | 0 <= x < 0x1_0000
  type u32 = x: int | 0 <= x < 0x1_0000_0000
  type i16 = x: int | -0x8000 <= x < 0x8000

  type Bytes = seq<u8>

  datatype Option<+T> = None | Some(value: T)

  /** The last n elements of s, or all of them when s is shorter. */
  function LastN<T>(s: seq<T>, n: nat): (r: seq<T>)
    ensures |r| == if |s| <= n then |s| else n
  {
    if |s| <= n then s else s[|s| - n..]
  }

  /** Dropping all but the last n of s + t only needs the last n of s. */
  lemma LastNOfAppend<T>(s: seq<T>, t: seq<T>, n: nat)
    requires |t| <= n
    ensures LastN(s + t, n) == LastN(s, n - |t|) + t
  {
  }

  /** Rust's integer division truncates toward zero; Dafny's is Euclidean. */
  function TruncDiv(a: int, b: int): (q: int)
    requires b > 0
    ensures a >= 0 ==> q * b <= a < (q + 1) * b
    ensures a < 0 ==> (q - 1) * b < a <= q * b
  {
    if a >= 0 then a / b else -((-a) / b)
  }

  function Min(a: int, b: int): int { if a <= b then a else b }

  function Max(a: int, b: int): int { if a >= b then a else b }

  /** Into the range of a 16-bit sample. */
  function Clamp16(v: int): (r: i16)
    ensures -0x8000 <= v <= 0x7fff ==> r == v
    ensures v < -0x8000 ==> r == -0x8000
    ensures v > 0x7fff ==> r == 0x7fff
  {
    if v < -0x8000 then -0x8000 else if v > 0x7fff then 0x7fff else v
  }

  /** Sample j of a frame, and silence past its end. */
  function SampleAt(s: seq<i16>, j: nat): i16 { if j < |s| then s[j] else 0 }

  /** A frame cut or filled with silence to n samples. */
  function Padded(s: seq<i16>, n: nat): (r: seq<i16>)
    ensures |r| == n
  {
    seq(n, j requires 0 <= j < n => SampleAt(s, j))
  }

  /** One 20 ms frame of silence at 8 kHz. */
  function Silence(): (r: seq<i16>)
    ensures |r| == 160
  {
    seq(160, i => 0)
  }

  lemma SmallMultiple(k: int, n: int, d: int)
    requires 0 < n && k * n == d && -n < d < n
    ensures d == 0 && k == 0
  {
    assert k >= 1 ==> k * n >= n;
    assert k <= -1 ==> k * n <= -n;
  }

  /** Division with remainder is unique. */
  lemma QuotientIs(x: int, n: int, q: int, r: int)
    requires 0 < n && x == q * n + r && 0 <= r < n
    ensures x / n == q && x % n == r
  {
    assert (x / n - q) * n == r - x % n;
    SmallMultiple(x / n - q, n, r - x % n);
  }
}
