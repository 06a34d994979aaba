/**
 * The pieces of `java.lang` the plugin relies on, written out: references that
 * may be null, `int` arithmetic with overflow, the `31 * h + x` hash
 * accumulation used by `String.hashCode` and by hand-written `hashCode`
 * methods, `String` identity, and the `String` methods the plugin calls.
 */
module JavaLang {

  /** A Java reference that may be null: `None` stands for `null`. */
  datatype Option<+T> = None | Some(value: T)

  /** The text Java's string concatenation produces for a possibly-null string. */
  function NullableText(s: Option<string>): (r: string)
    ensures s.Some? ==> r == s.value
    ensures s.None? ==> r == "null"
  {
    match s
    case Some(t) => t
    case None => "null"
  }

  // ---------------------------------------------------------------------------
  // 32-bit integers

  /** Java's `int`. */
  type Int32 = x: int | -0x8000_0000 <= x < 0x8000_0000

  const INT32_MODULUS: int := 0x1_0000_0000

  /** Keeps the low 32 bits of `x`, read as two's complement: Java's `int` overflow. */
  function Wrap32(x: int): (r: Int32)
    ensures (x - r) % INT32_MODULUS == 0
    ensures -0x8000_0000 <= x < 0x8000_0000 ==> r == x
  {
    (x + 0x8000_0000) % INT32_MODULUS - 0x8000_0000
  }

  /** Numbers that are equal modulo 2^32 are the same `int`. */
  lemma Wrap32Congruent(a: int, b: int)
    requires (a - b) % INT32_MODULUS == 0
    ensures Wrap32(a) == Wrap32(b)
  {
    var k := (a - b) / INT32_MODULUS;
    assert a == b + k * INT32_MODULUS;
    ModuloShift(b + 0x8000_0000, k);
  }

  lemma ModuloShift(y: int, k: int)
    ensures (y + k * INT32_MODULUS) % INT32_MODULUS == y % INT32_MODULUS
  {
    var q := y / INT32_MODULUS;
    var m := y % INT32_MODULUS;
    assert y == q * INT32_MODULUS + m && 0 <= m < INT32_MODULUS;
    assert y + k * INT32_MODULUS == (q + k) * INT32_MODULUS + m;
  }

  // ---------------------------------------------------------------------------
  // The `31 * h + x` hash accumulation

  /** One step `h = 31 * h + x` of Java's hash accumulation, in `int` arithmetic. */
  function HashStep(h: Int32, x: Int32): Int32
  {
    Wrap32(31 * h + x)
  }

  /** Runs `h = 31 * h + x` over `xs`, first element first, starting from `h`. */
  function HashFold(h: Int32, xs: seq<Int32>): Int32
    decreases |xs|
  {
    if xs == [] then h else HashFold(HashStep(h, xs[0]), xs[1..])
  }

  /** Accumulating one more value is one more step: what a loop over `xs` keeps. */
  lemma {:induction false} HashFoldSnoc(h: Int32, xs: seq<Int32>, x: Int32)
    ensures HashFold(h, xs + [x]) == HashStep(HashFold(h, xs), x)
    decreases |xs|
  {
    if xs == [] {
      assert [] + [x] == [x];
      assert HashFold(h, [x]) == HashFold(HashStep(h, x), []);
    } else {
      assert (xs + [x])[0] == xs[0];
      assert (xs + [x])[1..] == xs[1..] + [x];
      HashFoldSnoc(HashStep(h, xs[0]), xs[1..], x);
    }
  }

  /** 31 to the power `n`. */
  function Pow31(n: nat): (r: int)
    ensures r >= 1
  {
    if n == 0 then 1 else 31 * Pow31(n - 1)
  }

  /** xs[0] * 31^(n-1) + xs[1] * 31^(n-2) + ... + xs[n-1], in unbounded integers. */
  function Polynomial(xs: seq<Int32>): int
    decreases |xs|
  {
    if xs == [] then 0 else 31 * Polynomial(xs[..|xs| - 1]) + xs[|xs| - 1]
  }

  /**
   * The accumulation loop computes, modulo 2^32, the polynomial that
   * `String.hashCode` documents: h * 31^n + xs[0] * 31^(n-1) + ... + xs[n-1].
   */
  lemma {:induction false} HashFoldIsPolynomial(h: Int32, xs: seq<Int32>)
    ensures HashFold(h, xs) == Wrap32(h * Pow31(|xs|) + Polynomial(xs))
    decreases |xs|
  {
    if xs != [] {
      var init, x := xs[..|xs| - 1], xs[|xs| - 1];
      assert xs == init + [x];
      HashFoldSnoc(h, init, x);
      HashFoldIsPolynomial(h, init);
      var a := h * Pow31(|init|) + Polynomial(init);
      HashStepOfWrapped(a, x);
      PolynomialStep(h, |init|, Polynomial(init), x);
    }
  }

  /** One hash step does not care whether the running value was already wrapped. */
  lemma HashStepOfWrapped(a: int, x: Int32)
    ensures HashStep(Wrap32(a), x) == Wrap32(31 * a + x)
  {
    var k := (a - Wrap32(a)) / INT32_MODULUS;
    assert a - Wrap32(a) == k * INT32_MODULUS;
    assert (31 * a + x) - (31 * Wrap32(a) + x) == (31 * k) * INT32_MODULUS;
    Wrap32Congruent(31 * a + x, 31 * Wrap32(a) + x);
  }

  lemma PolynomialStep(h: int, n: nat, p: int, x: int)
    ensures 31 * (h * Pow31(n) + p) + x == h * Pow31(n + 1) + (31 * p + x)
  {
    assert Pow31(n + 1) == 31 * Pow31(n);
  }

  // ---------------------------------------------------------------------------
  // Strings

  /** The UTF-16 code units of `s`, as `int`s. */
  function CharCodes(s: string): (r: seq<Int32>)
    ensures |r| == |s|
    ensures forall i :: 0 <= i < |s| ==> r[i] == s[i] as int
  {
    seq(|s|, i requires 0 <= i < |s| => s[i] as int)
  }

  /** `String.hashCode`: the empty string hashes to 0, a one-character string to its code. */
  function StringHashCode(s: string): (r: Int32)
    ensures s == [] ==> r == 0
    ensures |s| == 1 ==> r == s[0] as int
  {
    var codes := CharCodes(s);
    assert |s| == 1 ==>
      var first := HashStep(0, codes[0]);
      && first == s[0] as int
      && HashFold(0, codes) == HashFold(first, codes[1..])
      && codes[1..] == [] && HashFold(first, []) == first;
    HashFold(0, codes)
  }

  /** `String.hashCode` is the documented polynomial s[0]*31^(n-1) + ... + s[n-1] in `int` arithmetic. */
  lemma StringHashCodeIsPolynomial(s: string)
    ensures StringHashCode(s) == Wrap32(Polynomial(CharCodes(s)))
  {
    HashFoldIsPolynomial(0, CharCodes(s));
  }

  /**
   * A `java.lang.String` object. `==` on two of them is reference identity,
   * as Java's `==` on strings; `chars` is the text `equals` compares.
   */
  class JavaString {
    const chars: string

    constructor (chars: string)
      ensures this.chars == chars
    {
      this.chars := chars;
    }
  }

  /** `s.startsWith(prefix)`. */
  predicate StartsWith(s: string, prefix: string)
  {
    |prefix| <= |s| && s[..|prefix|] == prefix
  }

  /**
   * Regrouping a concatenation. Stated apart so that proofs among large
   * terms get it as one fact instead of re-deriving it in their context.
   */
  lemma AppendAssociative<T>(a: seq<T>, b: seq<T>, c: seq<T>)
    ensures (a + b) + c == a + (b + c)
  {
  }

  /** `s.endsWith(suffix)`. */
  predicate EndsWith(s: string, suffix: string)
  {
    |suffix| <= |s| && s[|s| - |suffix|..] == suffix
  }

  /** `s.lastIndexOf(c)`: the last position of `c` in `s`, or -1 when there is none. */
  function LastIndexOf(s: string, c: char): (r: int)
    ensures -1 <= r < |s|
    ensures r == -1 <==> c !in s
    ensures 0 <= r ==> s[r] == c && c !in s[r + 1..]
    decreases |s|
  {
    if s == [] then -1
    else if s[|s| - 1] == c then |s| - 1
    else
      var r := LastIndexOf(s[..|s| - 1], c);
      assert s == s[..|s| - 1] + [s[|s| - 1]];
      assert 0 <= r ==> s[r + 1..] == s[..|s| - 1][r + 1..] + [s[|s| - 1]];
      r
  }

  /** When `s` ends with `c` followed by a tail free of `c`, that `c` is the last one in `s`. */
  lemma LastIndexOfBeforeTail(s: string, c: char, tail: string)
    requires EndsWith(s, [c] + tail) && c !in tail
    ensures LastIndexOf(s, c) == |s| - |tail| - 1
  {
    var p := |s| - |tail| - 1;
    assert s[p..] == [c] + tail;
    assert s[p] == c && s[p + 1..] == tail;
  }

  /** The characters `String.trim` removes from both ends: code points up to U+0020. */
  predicate IsTrimmable(c: char)
  {
    c <= ' '
  }

  /** `s` without its leading trimmable characters. */
  function TrimStart(s: string): (r: string)
    ensures |r| <= |s| && r == s[|s| - |r|..]
    ensures forall k :: 0 <= k < |s| - |r| ==> IsTrimmable(s[k])
    ensures r != [] ==> !IsTrimmable(r[0])
    decreases |s|
  {
    if s != [] && IsTrimmable(s[0]) then TrimStart(s[1..]) else s
  }

  /** `s` without its trailing trimmable characters. */
  function TrimEnd(s: string): (r: string)
    ensures |r| <= |s| && r == s[..|r|]
    ensures forall k :: |r| <= k < |s| ==> IsTrimmable(s[k])
    ensures r != [] ==> !IsTrimmable(r[|r| - 1])
    decreases |s|
  {
    if s != [] && IsTrimmable(s[|s| - 1]) then TrimEnd(s[..|s| - 1]) else s
  }

  /** `s.trim()`: `s` without its leading and trailing trimmable characters. */
  function Trim(s: string): (r: string)
    ensures |r| <= |s|
    ensures r != [] ==> !IsTrimmable(r[0]) && !IsTrimmable(r[|r| - 1])
  {
    TrimEnd(TrimStart(s))
  }

  /**
   * The trimmed string is the slice s[i..j] of `s` such that everything
   * before i and from j on is trimmable.
   */
  lemma TrimIsSlice(s: string)
    ensures var i := |s| - |TrimStart(s)|;
      && i + |Trim(s)| <= |s|
      && Trim(s) == s[i..i + |Trim(s)|]
      && (forall k :: 0 <= k < i ==> IsTrimmable(s[k]))
      && (forall k :: i + |Trim(s)| <= k < |s| ==> IsTrimmable(s[k]))
  {
    TrimSlice(s);
    TrimmedTail(s);
  }

  lemma TrimSlice(s: string)
    ensures var i := |s| - |TrimStart(s)|;
      && i + |Trim(s)| <= |s|
      && Trim(s) == s[i..i + |Trim(s)|]
  {
    var t := TrimStart(s);
    PrefixOfSuffix(s, |s| - |t|, TrimEnd(t));
  }

  /** A prefix of the suffix s[i..] is a slice of `s` starting at i. */
  lemma PrefixOfSuffix(s: string, i: nat, r: string)
    requires i <= |s| && |r| <= |s| - i && r == s[i..][..|r|]
    ensures s[i..i + |r|] == r
  {
  }

  lemma TrimmedTail(s: string)
    ensures forall k :: |s| - |TrimStart(s)| + |Trim(s)| <= k < |s| ==> IsTrimmable(s[k])
  {
    var t := TrimStart(s);
    var i := |s| - |t|;
    assert t == s[i..];
    forall k | i + |TrimEnd(t)| <= k < |s|
      ensures IsTrimmable(s[k])
    {
      assert s[k] == t[k - i];
    }
  }

  /** Trimming twice is trimming once. */
  lemma TrimIdempotent(s: string)
    ensures Trim(Trim(s)) == Trim(s)
  {
    var r := Trim(s);
    TrimClean(r);
  }

  /** A string with no trimmable character at either end is its own trim. */
  lemma TrimClean(s: string)
    requires s != [] ==> !IsTrimmable(s[0]) && !IsTrimmable(s[|s| - 1])
    ensures Trim(s) == s
  {
    assert TrimStart(s) == s;
    assert TrimEnd(s) == s;
  }

  /** `Character.toUpperCase` on the ASCII letters; every other character is kept. */
  function UpperChar(c: char): (r: char)
    ensures 'a' <= c <= 'z' ==> 'A' <= r <= 'Z' && r as int == c as int - 32
    ensures !('a' <= c <= 'z') ==> r == c
  {
    if 'a' <= c <= 'z' then (c as int - 32) as char else c
  }

  /** `s.toUpperCase()`, restricted to ASCII letters. */
  function ToUpperCase(s: string): (r: string)
    ensures |r| == |s|
    ensures forall i :: 0 <= i < |s| ==> r[i] == UpperChar(s[i])
  {
    seq(|s|, i requires 0 <= i < |s| => UpperChar(s[i]))
  }
}
