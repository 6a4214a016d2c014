/** Fixed-width integers, bytes, hexadecimal text and sequence helpers shared by every component. */
module Primitives {

  newtype byte = x: int | 0 <= x < 0x100

  type bytes = seq<byte>

  newtype u32 = x: int | 0 <= x < 0x1_0000_0000

  newtype int32 = x: int | -0x8000_0000 <= x < 0x8000_0000

  const U32_LIMIT: int := 0x1_0000_0000

  /** Rust's `len as u32`: a length keeps only its low 32 bits. */
  function TruncateU32(n: nat): (r: u32)
    ensures r as int <= n
    ensures n < U32_LIMIT ==> r as int == n
  {
    (n % U32_LIMIT) as u32
  }

  /** An HRESULT, the status word of a COM call. */
  type HRESULT = int32

  /** E_POINTER (0x80004003), "invalid pointer", as the signed 32-bit HRESULT. */
  const E_POINTER: HRESULT := -0x7FFF_BFFD

  /** A `windows::core::Error`: the failing HRESULT and its message text. */
  datatype ComError = ComError(code: HRESULT, message: string)

  /** A digit of upper-case hexadecimal. */
  predicate IsHexDigit(c: char)
  {
    '0' <= c <= '9' || 'A' <= c <= 'F'
  }

  function DigitValue(c: char): (d: nat)
    requires IsHexDigit(c)
    ensures d < 16
  {
    if c <= '9' then (c as int - '0' as int) else (c as int - 'A' as int + 10)
  }

  /** The number a string of hexadecimal digits denotes, most significant first. */
  function HexValue(s: string): nat
    requires forall i :: 0 <= i < |s| ==> IsHexDigit(s[i])
  {
    if s == [] then 0 else 16 * HexValue(s[..|s| - 1]) + DigitValue(s[|s| - 1])
  }

  function Pow16(w: nat): (p: nat)
    ensures p > 0
  {
    if w == 0 then 1 else 16 * Pow16(w - 1)
  }

  lemma Pow16Eight()
    ensures Pow16(8) == U32_LIMIT
  {
    assert Pow16(1) == 16;
    assert Pow16(2) == 0x100;
    assert Pow16(3) == 0x1000;
    assert Pow16(4) == 0x1_0000;
    assert Pow16(5) == 0x10_0000;
    assert Pow16(6) == 0x100_0000;
    assert Pow16(7) == 0x1000_0000;
  }

  /** Division with remainder has one answer. */
  lemma DivModUnique(n: int, d: int, a: int, x: int)
    requires d > 0 && 0 <= x < d && n == d * a + x
    ensures n / d == a && n % d == x
  {
    var q, r := n / d, n % d;
    assert d * (a - q) == r - x;
    if a > q {
      MulAtLeast(d, a - q);
    } else if a < q {
      MulAtLeast(d, q - a);
    }
  }

  lemma {:induction false} MulAtLeast(d: int, k: int)
    requires d > 0 && k >= 1
    ensures d * k >= d
    decreases k
  {
    if k > 1 {
      MulAtLeast(d, k - 1);
      assert d * k == d * (k - 1) + d;
    }
  }

  /** Peeling the last hexadecimal digit off n modulo 16 * p. */
  lemma ModStep(n: nat, p: nat)
    requires p > 0
    ensures (n / 16 % p) * 16 + n % 16 == n % (16 * p)
  {
    var q, r := n / 16, n % 16;
    var a, b := q / p, q % p;
    assert n == 16 * q + r;
    assert q == p * a + b;
    assert n == (16 * p) * a + (16 * b + r);
    DivModUnique(n, 16 * p, a, 16 * b + r);
  }

  function HexDigit(d: nat): (c: char)
    requires d < 16
    ensures IsHexDigit(c) && DigitValue(c) == d
  {
    if d < 10 then ('0' as int + d) as char else ('A' as int + d - 10) as char
  }

  /** The `width` lowest hexadecimal digits of n: upper-case digits whose value is n modulo 16^width. */
  function HexDigits(n: nat, width: nat): (s: string)
    ensures |s| == width
    ensures forall i :: 0 <= i < |s| ==> IsHexDigit(s[i])
    ensures HexValue(s) == n % Pow16(width)
  {
    if width == 0 then []
    else
      var high := HexDigits(n / 16, width - 1);
      var s := high + [HexDigit(n % 16)];
      assert s[..|s| - 1] == high;
      ModStep(n, Pow16(width - 1));
      s
  }

  /**
   * An HRESULT printed the way the windows crate prints it, `{:#010X}`: "0x"
   * and eight upper-case hexadecimal digits of the HRESULT's 32 bits.
   */
  function HResultText(h: HRESULT): (s: string)
    ensures |s| == 10 && s[..2] == "0x"
    ensures forall i :: 2 <= i < 10 ==> IsHexDigit(s[i])
    ensures HexValue(s[2..]) == h as int % U32_LIMIT
  {
    var bits := if h < 0 then h as int + U32_LIMIT else h as int;
    Pow16Eight();
    var s := "0x" + HexDigits(bits, 8);
    assert s[2..] == HexDigits(bits, 8);
    s
  }

  /** E_POINTER reads as 0x80004003. */
  lemma EPointerText()
    ensures HResultText(E_POINTER) == "0x80004003"
  {
    assert HexDigits(0x8, 1) == "8";
    assert HexDigits(0x80, 2) == "80";
    assert HexDigits(0x800, 3) == "800";
    assert HexDigits(0x8000, 4) == "8000";
    assert HexDigits(0x8_0004, 5) == "80004";
    assert HexDigits(0x80_0040, 6) == "800040";
    assert HexDigits(0x800_0400, 7) == "8000400";
    assert HexDigits(0x8000_4003, 8) == "80004003";
  }

  /** `s.iter().map(f).collect()`. */
  function MapSeq<A, B>(s: seq<A>, f: A -> B): (r: seq<B>)
    ensures |r| == |s|
    ensures forall k :: 0 <= k < |s| ==> r[k] == f(s[k])
  {
    if s == [] then [] else MapSeq(s[..|s| - 1], f) + [f(s[|s| - 1])]
  }
}
