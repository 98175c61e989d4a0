/** The few JavaScript values and string operations that the ledger code relies on:
    the slots a block's prev and next links can hold, addresses compared with `===`,
    the `[ok, message]` pairs that checks return, decimal rendering of counters and
    the zero-prefix test that proof-of-work uses. */
module Js {

  datatype Option<+T> = None | Some(value: T)

  /** What a block's `prev` or `next` slot can hold: `undefined` (a `next` never set),
      `null` (the newer genesis block), the number `0` (the older genesis blocks) or a digest. */
  datatype Link = Undefined | Null | Zero | Hash(digest: string)

  /** How `+` renders a link when it is concatenated into a hash preimage. */
  function LinkText(l: Link): string
  {
    match l
    case Undefined => "undefined"
    case Null => "null"
    case Zero => "0"
    case Hash(d) => d
  }

  /** A sender or receiver: `null` for genesis and reward transactions, otherwise a public key. */
  datatype Address = NullAddress | Address(id: string)

  /** The `[isValid, message]` pair that the signature and block checks return. */
  datatype Check = Check(ok: bool, message: string)

  function Digit(n: nat): (c: char)
    requires n < 10
    ensures '0' <= c <= '9' && c as int - '0' as int == n
  {
    "0123456789"[n]
  }

  /** Decimal rendering of a counter, as template literals and `+` produce it. */
  function NatToString(n: nat): (s: string)
    ensures |s| >= 1
    ensures forall i :: 0 <= i < |s| ==> '0' <= s[i] <= '9'
  {
    if n < 10 then [Digit(n)] else NatToString(n / 10) + [Digit(n % 10)]
  }

  /** The number a string of decimal digits denotes. */
  function DigitsValue(s: string): nat
    requires forall i :: 0 <= i < |s| ==> '0' <= s[i] <= '9'
  {
    if |s| == 0 then 0 else DigitsValue(s[..|s| - 1]) * 10 + (s[|s| - 1] as int - '0' as int)
  }

  /** Reading the rendered digits back gives the counter: the rendering loses nothing. */
  lemma {:induction false} NatToStringRoundTrip(n: nat)
    ensures DigitsValue(NatToString(n)) == n
    decreases n
  {
    var s := NatToString(n);
    if n >= 10 {
      NatToStringRoundTrip(n / 10);
      assert s[..|s| - 1] == NatToString(n / 10);
    }
  }

  /** Distinct counters render as distinct strings. */
  lemma NatToStringInjective(m: nat, n: nat)
    ensures NatToString(m) == NatToString(n) <==> m == n
  {
    NatToStringRoundTrip(m);
    NatToStringRoundTrip(n);
  }

  /** Two strings with a common prefix are equal exactly when what follows it is. */
  lemma CommonPrefixCancels(p: string, x: string, y: string)
    ensures p + x == p + y <==> x == y
  {
    if p + x == p + y {
      assert x == (p + x)[|p|..];
      assert y == (p + y)[|p|..];
    }
  }

  /** `Array(d + 1).join('0')`: the string of `d` zero characters. */
  function Zeros(d: nat): (z: string)
    ensures |z| == d
    ensures forall i :: 0 <= i < d ==> z[i] == '0'
  {
    if d == 0 then "" else Zeros(d - 1) + "0"
  }

  /** `h.substring(0, d)`: the first `d` characters, or all of `h` when it is shorter. */
  function Prefix(h: string, d: nat): (p: string)
    ensures |p| == if d <= |h| then d else |h|
  {
    if d <= |h| then h[..d] else h
  }

  /** What `substring(0, d)` returns is a prefix of `h`: the characters it keeps are `h`'s
      own, in place. */
  lemma PrefixIsPrefix(h: string, d: nat)
    ensures Prefix(h, d) <= h
  {
  }

  /** The mining loop's exit test: `h.substring(0, d) === zeros`. */
  predicate HasZeroPrefix(h: string, d: nat)
    ensures HasZeroPrefix(h, d) ==> |h| >= d
  {
    Prefix(h, d) == Zeros(d)
  }

  /** The exit test holds exactly when `h` is at least `d` long and starts with `d` zeros. */
  lemma ZeroPrefixMeans(h: string, d: nat)
    ensures HasZeroPrefix(h, d) <==> |h| >= d && forall i :: 0 <= i < d ==> h[i] == '0'
  {
    if |h| >= d && forall i :: 0 <= i < d ==> h[i] == '0' {
      assert Prefix(h, d) == h[..d];
      assert h[..d] == Zeros(d);
    }
  }

  /** Difficulty 0 is met by every hash: the empty prefix equals the empty zero string. */
  lemma ZeroDifficultyAlwaysMet(h: string)
    ensures HasZeroPrefix(h, 0)
  {
  }

  /** A hash that meets difficulty `d` meets every smaller difficulty. */
  lemma ZeroPrefixMonotone(h: string, d: nat, e: nat)
    requires HasZeroPrefix(h, d) && e <= d
    ensures HasZeroPrefix(h, e)
  {
    ZeroPrefixMeans(h, d);
    ZeroPrefixMeans(h, e);
  }
}
