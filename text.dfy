/** String helpers with the semantics of the Go library calls the source relies on:
    `strings.HasPrefix`, `strings.Index`, `strings.Split(s, sep)[0]`, `strconv.Atoi` and
    `fmt.Sprintf("%v", n)`. Strings are ASCII `seq<char>`, indexed by byte. */
module Text {

  const MaxInt64: int := 0x7FFF_FFFF_FFFF_FFFF
  const MinInt64: int := -0x8000_0000_0000_0000
  const MaxUint64: int := 0xFFFF_FFFF_FFFF_FFFF

  predicate IsDigit(c: char) { '0' <= c <= '9' }
  predicate IsUpper(c: char) { 'A' <= c <= 'Z' }
  predicate IsLower(c: char) { 'a' <= c <= 'z' }

  predicate AllDigits(s: string) { forall i :: 0 <= i < |s| ==> IsDigit(s[i]) }

  predicate HasPrefix(s: string, p: string) { |p| <= |s| && s[..|p|] == p }

  predicate HasSuffix(s: string, p: string) { |p| <= |s| && s[|s| - |p|..] == p }

  /** `strings.Index` for a one-character separator: -1 when absent. */
  function IndexOf(s: string, c: char): (i: int)
    ensures -1 <= i < |s|
    ensures i == -1 <==> c !in s
    ensures 0 <= i ==> s[i] == c && c !in s[..i]
  {
    if s == [] then -1
    else if s[0] == c then 0
    else
      var j := IndexOf(s[1..], c);
      assert s[1..][..if j < 0 then 0 else j] == s[1..if j < 0 then 1 else j + 1];
      if j < 0 then -1 else j + 1
  }

  /** `strings.Split(s, sep)[0]`: the text before the first separator, or all of `s`. */
  function BeforeFirst(s: string, c: char): (r: string)
    ensures HasPrefix(s, r) && c !in r
    ensures |r| < |s| <==> c in s
    ensures |r| < |s| ==> s[|r|] == c
  {
    var i := IndexOf(s, c);
    if i < 0 then s else s[..i]
  }

  /** The text after the first separator (`s[strings.Index(s, sep)+1:]`). */
  function AfterFirst(s: string, c: char): (r: string)
    requires c in s
    ensures |r| < |s| && s == BeforeFirst(s, c) + [c] + r
  {
    var i := IndexOf(s, c);
    assert s == s[..i] + [s[i]] + s[i + 1..];
    s[i + 1..]
  }

  /** The value of a string of decimal digits, read most significant digit first. */
  function DigitsValue(s: string): (v: nat)
    requires AllDigits(s)
  {
    if s == [] then 0
    else DigitsValue(s[..|s| - 1]) * 10 + (s[|s| - 1] as int - '0' as int)
  }

  /** The longest prefix of `s` made of digits. */
  function DigitPrefix(s: string): (p: string)
    ensures AllDigits(p) && HasPrefix(s, p)
    ensures |p| < |s| ==> !IsDigit(s[|p|])
  {
    if s == [] || !IsDigit(s[0]) then []
    else
      var q := DigitPrefix(s[1..]);
      assert s == [s[0]] + s[1..];
      [s[0]] + q
  }

  /** What `strconv.Atoi` returns: a value and whether the error is nil. */
  datatype Parsed = Parsed(value: int, ok: bool)

  function StripSign(s: string): string
  {
    if |s| > 0 && (s[0] == '+' || s[0] == '-') then s[1..] else s
  }

  /** `strconv.Atoi` on a 64-bit platform, base 10. An optional sign is followed by
      digits. A syntax error yields 0. A value out of the int64 range yields the nearest
      bound; that includes a digit run that overflows 64 bits before a bad character is
      reached, as Go's `ParseUint` stops with a range error at that point. */
  function Atoi(s: string): (r: Parsed)
    ensures r.ok ==> MinInt64 <= r.value <= MaxInt64
    ensures r.ok ==> StripSign(s) != [] && AllDigits(StripSign(s))
    ensures !r.ok ==> r.value == 0 || r.value == MaxInt64 || r.value == MinInt64
  {
    var neg := |s| > 0 && s[0] == '-';
    var body := StripSign(s);
    var p := DigitPrefix(body);
    if body == [] then Parsed(0, false)
    else if DigitsValue(p) > MaxUint64 then Parsed(if neg then MinInt64 else MaxInt64, false)
    else if |p| < |body| then Parsed(0, false)
    else
      assert p == body;
      var v: int := if neg then -(DigitsValue(p) as int) else DigitsValue(p);
      if v > MaxInt64 then Parsed(MaxInt64, false)
      else if v < MinInt64 then Parsed(MinInt64, false)
      else Parsed(v, true)
  }

  function DigitChar(d: nat): char
    requires d < 10
  {
    ('0' as int + d) as char
  }

  /** `fmt.Sprintf("%v", n)` for a non-negative integer. */
  function NatToString(n: nat): (s: string)
    ensures s != [] && AllDigits(s)
  {
    if n < 10 then [DigitChar(n)] else NatToString(n / 10) + [DigitChar(n % 10)]
  }

  /** `fmt.Sprintf("%v", i)` for any integer. */
  function IntToString(i: int): (s: string)
    ensures s != []
  {
    if i < 0 then "-" + NatToString(-i) else NatToString(i)
  }

  lemma {:induction false} DigitsValueOfNatToString(n: nat)
    ensures DigitsValue(NatToString(n)) == n
  {
    if n >= 10 {
      var s := NatToString(n);
      DigitsValueOfNatToString(n / 10);
      assert s[..|s| - 1] == NatToString(n / 10);
    }
  }

  /** Rendering is injective, so comparing rendered numbers compares the numbers. */
  lemma NatToStringInjective(a: nat, b: nat)
    ensures NatToString(a) == NatToString(b) <==> a == b
  {
    DigitsValueOfNatToString(a);
    DigitsValueOfNatToString(b);
  }

  lemma {:induction false} DigitPrefixOfDigits(s: string)
    requires AllDigits(s)
    ensures DigitPrefix(s) == s
  {
    if s != [] {
      DigitPrefixOfDigits(s[1..]);
      assert s == [s[0]] + s[1..];
    }
  }

  /** Round trip: `strconv.Atoi(fmt.Sprintf("%v", n))` gives back `n` with no error for
      every n in the int64 range. */
  lemma AtoiOfNatToString(n: nat)
    requires n <= MaxInt64
    ensures Atoi(NatToString(n)) == Parsed(n, true)
  {
    var s := NatToString(n);
    assert StripSign(s) == s;
    DigitPrefixOfDigits(s);
    DigitsValueOfNatToString(n);
  }

  /** `strings.Join(parts, sep)`; empty for no parts. */
  function Join(parts: seq<string>, sep: string): string
  {
    if |parts| == 0 then ""
    else if |parts| == 1 then parts[0]
    else Join(parts[..|parts| - 1], sep) + sep + parts[|parts| - 1]
  }

  /** Joining two non-empty lists of parts puts one separator between the two joins. */
  lemma {:induction false} JoinConcat(a: seq<string>, b: seq<string>, sep: string)
    requires a != [] && b != []
    ensures Join(a + b, sep) == Join(a, sep) + sep + Join(b, sep)
    decreases |b|
  {
    if |b| == 1 {
      assert (a + b)[..|a + b| - 1] == a;
    } else {
      var b' := b[..|b| - 1];
      assert (a + b)[..|a + b| - 1] == a + b';
      JoinConcat(a, b', sep);
    }
  }
}
