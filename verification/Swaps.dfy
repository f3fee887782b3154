/** The two readings of a Uniswap V3 Swap: the indexer compares token and USDC as lower-case hex
    text, the realtime decoder as bytes. Both must pick the same delta as the token's. */
module Swaps {
  import opened Wrappers
  import opened Chain
  import Numeric

  /** ArcCanonicalUsdc. */
  const USDC: Address := 0x3600000000000000000000000000000000000000

  datatype Reading = Reading(side: Side, tokens: nat, usdc: nat)

  function Abs(x: int): nat {
    if x < 0 then -x else x
  }

  /** Deltas are signed from the pool's view; zero or equal signs are not a swap. */
  predicate ValidDeltas(amount0: int, amount1: int) {
    amount0 != 0 && amount1 != 0 && (amount0 > 0) != (amount1 > 0)
  }

  function Read(tokenIsFirst: bool, amount0: int, amount1: int): Option<Reading> {
    if !ValidDeltas(amount0, amount1) then None
    else
      var tokenDelta := if tokenIsFirst then amount0 else amount1;
      var usdcDelta := if tokenIsFirst then amount1 else amount0;
      Some(Reading(if tokenDelta < 0 then Buy else Sell, Abs(tokenDelta), Abs(usdcDelta)))
  }

  /** The reading by address order. */
  function Normalize(token: Address, amount0: int, amount1: int): Option<Reading> {
    Read(token < USDC, amount0, amount1)
  }

  /** A reading says what the pool did: it paid out exactly one side and took in the other. */
  lemma {:induction false} ReadingMeansExchange(token: Address, amount0: int, amount1: int)
    ensures Normalize(token, amount0, amount1).Some? <==> ValidDeltas(amount0, amount1)
    ensures Normalize(token, amount0, amount1).Some? ==>
      var r := Normalize(token, amount0, amount1).value;
      var tokenDelta: int, usdcDelta: int :=
        if r.side.Buy? then -(r.tokens as int) else r.tokens, if r.side.Buy? then r.usdc else -(r.usdc as int);
      r.tokens > 0 && r.usdc > 0
      && (if token < USDC then (amount0, amount1) else (amount1, amount0)) == (tokenDelta, usdcDelta)
  {
  }

  // ---------------------------------------------------------------- bytes and text

  type Byte = b: nat | b < 256

  /** strings.Compare and bytes.Compare return a negative number. */
  predicate Before<T(==)>(a: seq<T>, b: seq<T>, less: (T, T) -> bool) {
    if b == [] then false
    else if a == [] then true
    else less(a[0], b[0]) || (a[0] == b[0] && Before(a[1..], b[1..], less))
  }

  predicate ByteLess(a: Byte, b: Byte) { a < b }
  predicate CharLess(a: char, b: char) { a < b }

  /** One digit of Address.Hex(), whose checksum picks upper or lower case. */
  function Digit(n: nat, upper: bool): char
    requires n < 16
  {
    if n < 10 then '0' + n as char
    else if upper then 'A' + (n - 10) as char
    else 'a' + (n - 10) as char
  }

  /** Mixed-case hex text of some bytes; `casing[i]` is the checksum's choice for digit i. */
  function Hex(bytes: seq<Byte>, casing: nat -> bool, at: nat): string {
    if bytes == [] then ""
    else [Digit(bytes[0] / 16, casing(at)), Digit(bytes[0] % 16, casing(at + 1))] + Hex(bytes[1..], casing, at + 2)
  }

  /** strings.ToLower on ASCII. */
  function ToLower(s: string): string {
    if s == "" then ""
    else [if 'A' <= s[0] <= 'Z' then s[0] - 'A' + 'a' else s[0]] + ToLower(s[1..])
  }

  lemma {:induction false} LowerDigits(bytes: seq<Byte>, casing: nat -> bool, at: nat)
    ensures ToLower(Hex(bytes, casing, at)) == Hex(bytes, _ => false, 0)
  {
    ToLowerHex(bytes, casing, at, 0);
  }

  lemma {:induction false} ToLowerHex(bytes: seq<Byte>, casing: nat -> bool, at: nat, from: nat)
    ensures ToLower(Hex(bytes, casing, at)) == Hex(bytes, _ => false, from)
  {
    if bytes != [] {
      ToLowerHex(bytes[1..], casing, at + 2, from + 2);
      var s := Hex(bytes, casing, at);
      assert s[1..][1..] == Hex(bytes[1..], casing, at + 2);
      assert ToLower(s) == [Digit(bytes[0] / 16, false)] + ToLower(s[1..]);
      assert ToLower(s[1..]) == [Digit(bytes[0] % 16, false)] + ToLower(s[1..][1..]);
    }
  }

  lemma {:induction false} LowerHexOrder(a: seq<Byte>, b: seq<Byte>, at: nat)
    requires |a| == |b|
    ensures Before(Hex(a, _ => false, at), Hex(b, _ => false, at), CharLess) <==> Before(a, b, ByteLess)
  {
    if a != [] {
      LowerHexOrder(a[1..], b[1..], at + 2);
      var s, t := Hex(a, _ => false, at), Hex(b, _ => false, at);
      assert s[1..][1..] == Hex(a[1..], _ => false, at + 2) && t[1..][1..] == Hex(b[1..], _ => false, at + 2);
      assert Before(s, t, CharLess) <==>
        s[0] < t[0]
        || (s[0] == t[0] && (s[1] < t[1] || (s[1] == t[1] && Before(s[1..][1..], t[1..][1..], CharLess)))) by {
        assert s[1..][0] == s[1] && t[1..][0] == t[1];
      }
    }
  }

  function Value(bytes: seq<Byte>): nat
    decreases |bytes|
  {
    if bytes == [] then 0 else 256 * Value(bytes[..|bytes| - 1]) + bytes[|bytes| - 1]
  }

  /** normalizeUniswapV3Swap: both addresses as text of any checksum casing, lowered. */
  function IndexerReading(token: seq<Byte>, usdc: seq<Byte>, tokenCase: nat -> bool, usdcCase: nat -> bool,
                          amount0: int, amount1: int): Option<Reading> {
    Read(Before(ToLower(Hex(token, tokenCase, 0)), ToLower(Hex(usdc, usdcCase, 0)), CharLess), amount0, amount1)
  }

  /** decodeSwap: bytes.Compare. */
  function DecoderReading(token: seq<Byte>, usdc: seq<Byte>, amount0: int, amount1: int): Option<Reading> {
    Read(Before(token, usdc, ByteLess), amount0, amount1)
  }

  /** The two readers always agree, error cases included. */
  lemma {:induction false} ReadersAgree(token: seq<Byte>, usdc: seq<Byte>, tokenCase: nat -> bool,
                                        usdcCase: nat -> bool,
                                        amount0: int, amount1: int)
    requires |token| == |usdc|
    ensures IndexerReading(token, usdc, tokenCase, usdcCase, amount0, amount1)
         == DecoderReading(token, usdc, amount0, amount1)
  {
    LowerDigits(token, tokenCase, 0);
    LowerDigits(usdc, usdcCase, 0);
    LowerHexOrder(token, usdc, 0);
  }

  function Power256(n: nat): nat {
    if n == 0 then 1 else 256 * Power256(n - 1)
  }

  lemma {:induction false} ValueBound(a: seq<Byte>)
    ensures Value(a) < Power256(|a|)
    decreases |a|
  {
    if a != [] { ValueBound(a[..|a| - 1]); }
  }

  lemma {:induction false} Shift(x: int, p: int, v: int)
    ensures 256 * (x * p + v) == x * (256 * p) + 256 * v
  {
  }

  lemma {:induction false} ValueHead(a: seq<Byte>)
    requires a != []
    ensures Value(a) == a[0] * Power256(|a| - 1) + Value(a[1..])
    decreases |a|
  {
    var n := |a| - 1;
    if n > 0 {
      ValueHead(a[..n]);
      assert a[..n][1..] == a[1..][..n - 1];
      Shift(a[0], Power256(n - 1), Value(a[..n][1..]));
    }
  }

  lemma {:induction false} Larger(x: nat, y: nat, p: nat)
    requires x < y
    ensures x * p + p <= y * p
  {
    Numeric.MulMono(x + 1, y, p);
    Numeric.Spread(x, 1, p);
  }

  /** Byte order is the order of the address values, so `Normalize` is both readers. */
  lemma {:induction false} ByteOrderIsNumeric(a: seq<Byte>, b: seq<Byte>)
    requires |a| == |b|
    ensures Before(a, b, ByteLess) <==> Value(a) < Value(b)
  {
    if a != [] {
      ByteOrderIsNumeric(a[1..], b[1..]);
      ValueHead(a); ValueHead(b);
      ValueBound(a[1..]); ValueBound(b[1..]);
      var p := Power256(|a| - 1);
      if a[0] < b[0] { Larger(a[0], b[0], p); }
      if b[0] < a[0] { Larger(b[0], a[0], p); }
    }
  }

  lemma {:induction false} NormalizeIsBoth(token: seq<Byte>, usdc: seq<Byte>, tokenCase: nat -> bool,
                                           usdcCase: nat -> bool,
                                           amount0: int, amount1: int)
    requires |token| == |usdc| && Value(usdc) == USDC
    ensures Normalize(Value(token), amount0, amount1)
         == IndexerReading(token, usdc, tokenCase, usdcCase, amount0, amount1)
         == DecoderReading(token, usdc, amount0, amount1)
  {
    ReadersAgree(token, usdc, tokenCase, usdcCase, amount0, amount1);
    ByteOrderIsNumeric(token, usdc);
  }
}
