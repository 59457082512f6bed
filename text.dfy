/** String helpers the authentication core relies on: JavaScript truthiness of
    an optional string, `String.prototype.trim`, the decimal rendering of a
    number (`Number.prototype.toString`) and the lower-case hex rendering of a
    byte buffer (`Buffer.toString("hex")`). */
module Text {
  import opened Wrappers

  type byte = b: int | 0 <= b < 256

  /** `if (s)` on a value that is a string or undefined: present and non-empty. */
  predicate Truthy(s: Option<string>) {
    s.Some? && s.value != ""
  }

  // ---------------------------------------------------------------------
  // String.prototype.trim

  /** ECMAScript WhiteSpace and LineTerminator code points, the set `trim` removes. */
  predicate IsWhitespace(c: char) {
    var n := c as int;
    n == 0x09 || n == 0x0A || n == 0x0B || n == 0x0C || n == 0x0D || n == 0x20
    || n == 0xA0 || n == 0x1680 || (0x2000 <= n <= 0x200A) || n == 0x2028
    || n == 0x2029 || n == 0x202F || n == 0x205F || n == 0x3000 || n == 0xFEFF
  }

  predicate AllWhitespace(s: string) {
    forall i :: 0 <= i < |s| ==> IsWhitespace(s[i])
  }

  /** `s` with its leading whitespace removed. */
  function TrimStart(s: string): string {
    if s != [] && IsWhitespace(s[0]) then TrimStart(s[1..]) else s
  }

  /** `s` with its trailing whitespace removed. */
  function TrimEnd(s: string): string {
    if s != [] && IsWhitespace(s[|s| - 1]) then TrimEnd(s[..|s| - 1]) else s
  }

  /** `TrimStart` drops a whitespace-only prefix and keeps the rest, which
      does not start with whitespace. */
  lemma {:induction false} TrimStartShape(s: string)
    ensures var r := TrimStart(s);
      && |r| <= |s| && r == s[|s| - |r|..]
      && (r == [] || !IsWhitespace(r[0]))
      && AllWhitespace(s[..|s| - |r|])
  {
    if s != [] && IsWhitespace(s[0]) {
      TrimStartShape(s[1..]);
      var r := TrimStart(s[1..]);
      assert s[..|s| - |r|] == [s[0]] + s[1..][..|s| - 1 - |r|];
    }
  }

  /** `TrimEnd` drops a whitespace-only suffix and keeps the rest, which
      does not end with whitespace. */
  lemma {:induction false} TrimEndShape(s: string)
    ensures var r := TrimEnd(s);
      && |r| <= |s| && r == s[..|r|]
      && (r == [] || !IsWhitespace(r[|r| - 1]))
      && AllWhitespace(s[|r|..])
  {
    if s != [] && IsWhitespace(s[|s| - 1]) {
      TrimEndShape(s[..|s| - 1]);
      var r := TrimEnd(s[..|s| - 1]);
      assert s[|r|..] == s[..|s| - 1][|r|..] + [s[|s| - 1]];
    }
  }

  function Trim(s: string): string {
    TrimEnd(TrimStart(s))
  }

  /** A string with no whitespace at either end. */
  predicate Trimmed(s: string) {
    s == [] || (!IsWhitespace(s[0]) && !IsWhitespace(s[|s| - 1]))
  }

  lemma {:induction false} TrimStartPadded(pre: string, rest: string)
    requires AllWhitespace(pre)
    requires rest == [] || !IsWhitespace(rest[0])
    ensures TrimStart(pre + rest) == rest
  {
    if pre != [] {
      assert (pre + rest)[1..] == pre[1..] + rest;
      TrimStartPadded(pre[1..], rest);
    }
  }

  lemma {:induction false} TrimEndPadded(rest: string, post: string)
    requires AllWhitespace(post)
    requires rest == [] || !IsWhitespace(rest[|rest| - 1])
    ensures TrimEnd(rest + post) == rest
  {
    if post != [] {
      assert (rest + post)[..|rest + post| - 1] == rest + post[..|post| - 1];
      TrimEndPadded(rest, post[..|post| - 1]);
    }
  }

  /** `trim` removes exactly the whitespace padding around a trimmed core. */
  lemma TrimPadded(pre: string, core: string, post: string)
    requires AllWhitespace(pre) && AllWhitespace(post) && Trimmed(core)
    ensures Trim(pre + core + post) == core
  {
    if core == [] {
      assert pre + core + post == pre + post;
      TrimStartPadded(pre + post, []);
      assert pre + post + [] == pre + post;
    } else {
      assert pre + core + post == pre + (core + post);
      TrimStartPadded(pre, core + post);
      TrimEndPadded(core, post);
    }
  }

  /** The result of `trim` has no whitespace at either end, and `trim` is idempotent. */
  lemma TrimIsTrimmed(s: string)
    ensures Trimmed(Trim(s))
    ensures Trim(Trim(s)) == Trim(s)
  {
    var u := TrimStart(s);
    var r := TrimEnd(u);
    TrimStartShape(s);
    TrimEndShape(u);
    if r != [] {
      assert r[0] == u[0];
    }
    assert TrimStart(r) == r;
    assert TrimEnd(r) == r;
  }

  // ---------------------------------------------------------------------
  // Decimal rendering of a natural number

  predicate IsDigit(c: char) {
    '0' <= c <= '9'
  }

  predicate AllDigits(s: string) {
    forall i :: 0 <= i < |s| ==> IsDigit(s[i])
  }

  function DigitChar(d: nat): (c: char)
    requires d < 10
    ensures IsDigit(c)
  {
    (48 + d) as char
  }

  function DigitValue(c: char): (d: nat)
    requires IsDigit(c)
    ensures d < 10
  {
    c as int - 48
  }

  /** `n.toString()`: the shortest decimal numeral for `n`. */
  function Decimal(n: nat): (s: string)
    ensures |s| >= 1 && AllDigits(s)
    ensures n >= 1 ==> s[0] != '0'
  {
    if n < 10 then [DigitChar(n)] else Decimal(n / 10) + [DigitChar(n % 10)]
  }

  /** Reads back a string of decimal digits. */
  function ParseDecimal(s: string): nat
    requires AllDigits(s)
  {
    if s == [] then 0 else ParseDecimal(s[..|s| - 1]) * 10 + DigitValue(s[|s| - 1])
  }

  lemma {:induction false} DecimalRoundTrip(n: nat)
    ensures ParseDecimal(Decimal(n)) == n
  {
    var s := Decimal(n);
    if n >= 10 {
      assert s[..|s| - 1] == Decimal(n / 10);
      DecimalRoundTrip(n / 10);
    }
  }

  function Pow10(k: nat): nat {
    if k == 0 then 1 else 10 * Pow10(k - 1)
  }

  /** A number with exactly `k` decimal digits renders to `k` characters. */
  lemma {:induction false} DecimalLength(n: nat, k: nat)
    requires 1 <= k && Pow10(k - 1) <= n < Pow10(k)
    ensures |Decimal(n)| == k
  {
    if k > 1 {
      assert Pow10(k - 1) == 10 * Pow10(k - 2);
      DecimalLength(n / 10, k - 1);
    }
  }

  // ---------------------------------------------------------------------
  // Lower-case hexadecimal rendering of a byte buffer

  predicate IsLowerHex(c: char) {
    '0' <= c <= '9' || 'a' <= c <= 'f'
  }

  function HexDigit(d: nat): (c: char)
    requires d < 16
    ensures IsLowerHex(c)
  {
    if d < 10 then (48 + d) as char else (87 + d) as char
  }

  function HexValue(c: char): (d: nat)
    requires IsLowerHex(c)
    ensures d < 16
  {
    if c <= '9' then c as int - 48 else c as int - 87
  }

  /** `buffer.toString("hex")`: two lower-case hex digits per byte, high nibble first. */
  function Hex(bs: seq<byte>): (s: string)
    ensures |s| == 2 * |bs|
    ensures forall i :: 0 <= i < |s| ==> IsLowerHex(s[i])
  {
    if bs == [] then [] else [HexDigit(bs[0] / 16), HexDigit(bs[0] % 16)] + Hex(bs[1..])
  }

  /** Reads back a hex string of even length. */
  function Unhex(s: string): seq<byte>
    requires |s| % 2 == 0
    requires forall i :: 0 <= i < |s| ==> IsLowerHex(s[i])
  {
    if s == [] then [] else [HexValue(s[0]) * 16 + HexValue(s[1])] + Unhex(s[2..])
  }

  lemma {:induction false} HexRoundTrip(bs: seq<byte>)
    ensures Unhex(Hex(bs)) == bs
  {
    if bs != [] {
      var s := Hex(bs);
      assert s[2..] == Hex(bs[1..]);
      HexRoundTrip(bs[1..]);
    }
  }

  /** Different buffers render to different hex strings. */
  lemma HexInjective(a: seq<byte>, b: seq<byte>)
    ensures Hex(a) == Hex(b) ==> a == b
  {
    HexRoundTrip(a);
    HexRoundTrip(b);
  }
}
