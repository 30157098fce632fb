/**
 * The JavaScript string operations the handlers rely on, over `seq<char>`:
 * truthiness, ASCII lower-casing, `includes`, `startsWith`, `trim`, `split`,
 * clamped `substring`, and number-to-string conversion in base 10 and 36.
 */
module JsText {
  import opened Wrappers

  /** A nullable string is truthy when it is present and non-empty. */
  predicate Truthy(o: Option<string>) {
    o.Some? && o.value != ""
  }

  /** The text of a nullable string, or "" when it is null or undefined. */
  function OrEmpty(o: Option<string>): string {
    o.GetOr("")
  }

  /** The first operand of `a || b` when it is truthy, otherwise the second. */
  function OrElse(a: Option<string>, b: Option<string>): (r: Option<string>)
    ensures Truthy(a) ==> r == a
    ensures !Truthy(a) ==> r == b
  {
    if Truthy(a) then a else b
  }

  /** A JavaScript number is truthy when it is present and not zero; NaN counts as absent. */
  predicate IntTruthy(o: Option<int>) { o.Some? && o.value != 0 }

  /** `x || d` on a number that may be missing: `x` when it is truthy, otherwise `d`. */
  function NumberOr(o: Option<int>, d: int): (r: int)
    ensures IntTruthy(o) ==> r == o.value
    ensures !IntTruthy(o) ==> r == d
  {
    if IntTruthy(o) then o.value else d
  }

  // ---------------------------------------------------------------------------
  // Case folding (ASCII letters only)
  // ---------------------------------------------------------------------------

  predicate IsUpper(c: char) {
    'A' <= c <= 'Z'
  }

  function LowerChar(c: char): char {
    if IsUpper(c) then (c as int + 32) as char else c
  }

  /** `toLowerCase`, restricted to the ASCII letters. */
  function Lower(s: string): (r: string)
    ensures |r| == |s|
    ensures forall i :: 0 <= i < |r| ==> !IsUpper(r[i])
    ensures forall i :: 0 <= i < |r| && !IsUpper(s[i]) ==> r[i] == s[i]
    ensures forall i :: 0 <= i < |r| && IsUpper(s[i]) ==> r[i] as int == s[i] as int + 32
  {
    seq(|s|, i requires 0 <= i < |s| => LowerChar(s[i]))
  }

  /** Lower-casing twice is lower-casing once. */
  lemma LowerIdempotent(s: string)
    ensures Lower(Lower(s)) == Lower(s)
  {
    assert forall i :: 0 <= i < |s| ==> Lower(Lower(s))[i] == Lower(s)[i];
  }

  /** Lower-casing distributes over concatenation. */
  lemma LowerConcat(a: string, b: string)
    ensures Lower(a + b) == Lower(a) + Lower(b)
  {
    assert forall i :: 0 <= i < |a + b| ==> Lower(a + b)[i] == (Lower(a) + Lower(b))[i];
  }

  // ---------------------------------------------------------------------------
  // Searching
  // ---------------------------------------------------------------------------

  /** `t` occurs in `s` starting at offset `i`. */
  predicate OccursAt(s: string, t: string, i: int) {
    0 <= i <= |s| - |t| && s[i..i + |t|] == t
  }

  /** `s.includes(t)`: `t` occurs in `s` at some offset. */
  predicate Contains(s: string, t: string) {
    exists i | 0 <= i <= |s| :: OccursAt(s, t, i)
  }

  /** `s.startsWith(p)`. */
  predicate StartsWith(s: string, p: string) {
    |p| <= |s| && s[..|p|] == p
  }

  /** A case-insensitive test `/t/i.test(s)` for a lower-case literal `t`. */
  predicate ContainsCI(s: string, t: string) {
    Contains(Lower(s), t)
  }

  lemma ContainsAt(s: string, t: string, i: int)
    requires 0 <= i <= |s| - |t| && s[i..i + |t|] == t
    ensures Contains(s, t)
  {
    assert OccursAt(s, t, i);
  }

  /** A text holding a character that `s` lacks does not occur in `s`. */
  lemma MissingCharNotContained(s: string, t: string, c: char)
    requires c in t && c !in s
    ensures !Contains(s, t)
  {
  }

  /** A prefix occurs in the string. */
  lemma StartsWithContains(s: string, p: string)
    requires StartsWith(s, p)
    ensures Contains(s, p)
  {
    assert OccursAt(s, p, 0);
  }

  /** Containment is transitive: if `s` contains `t` and `t` contains `u`, then `s` contains `u`. */
  lemma ContainsTrans(s: string, t: string, u: string)
    requires Contains(s, t) && Contains(t, u)
    ensures Contains(s, u)
  {
    var i :| 0 <= i <= |s| && OccursAt(s, t, i);
    var j :| 0 <= j <= |t| && OccursAt(t, u, j);
    assert 0 <= i <= |s| - |t| && s[i..i + |t|] == t;
    assert 0 <= j <= |t| - |u| && t[j..j + |u|] == u;
    forall k | 0 <= k < |u|
      ensures s[i + j + k] == u[k]
    {
      assert s[i..i + |t|][j + k] == t[j + k];
      assert t[j..j + |u|][k] == t[j + k];
    }
    assert s[i + j..i + j + |u|] == u;
    assert OccursAt(s, u, i + j);
  }

  /** The empty string contains nothing but the empty string. */
  lemma EmptyContainsNothing(t: string)
    requires t != ""
    ensures !Contains("", t)
  {
  }

  // ---------------------------------------------------------------------------
  // Trimming
  // ---------------------------------------------------------------------------

  /** The white-space and line-terminator characters `String.prototype.trim` removes. */
  predicate IsSpace(c: char) {
    || c == ' ' || c == '\t' || c == '\n' || c == '\r'
    || c == '\U{000B}' || c == '\U{000C}' || c == '\U{00A0}' || c == '\U{1680}'
    || ('\U{2000}' <= c <= '\U{200A}')
    || c == '\U{2028}' || c == '\U{2029}' || c == '\U{202F}' || c == '\U{205F}'
    || c == '\U{3000}' || c == '\U{FEFF}'
  }

  /** `s` with its leading white space removed. */
  function TrimStart(s: string): (r: string)
    ensures |r| <= |s| && r == s[|s| - |r|..]
    ensures forall i :: 0 <= i < |s| - |r| ==> IsSpace(s[i])
    ensures r == "" || !IsSpace(r[0])
    decreases |s|
  {
    if |s| > 0 && IsSpace(s[0]) then TrimStart(s[1..]) else s
  }

  /** `s` with its trailing white space removed. */
  function TrimEnd(s: string): (r: string)
    ensures |r| <= |s| && r == s[..|r|]
    ensures forall i :: |r| <= i < |s| ==> IsSpace(s[i])
    ensures r == "" || !IsSpace(r[|r| - 1])
    decreases |s|
  {
    if |s| > 0 && IsSpace(s[|s| - 1]) then TrimEnd(s[..|s| - 1]) else s
  }

  /** `s.trim()`: the slice of `s` left after removing white space at both ends. */
  function Trim(s: string): (r: string)
    ensures exists a :: TrimmedAt(s, r, a)
    ensures r == "" || (!IsSpace(r[0]) && !IsSpace(r[|r| - 1]))
  {
    var t := TrimStart(s);
    var r := TrimEnd(t);
    assert r == s[|s| - |t|..][..|r|];
    assert r == s[|s| - |t|..|s| - |t| + |r|];
    assert TrimmedAt(s, r, |s| - |t|);
    r
  }

  /** `r` is the slice of `s` at offset `a` and everything around it is white space. */
  predicate TrimmedAt(s: string, r: string, a: int) {
    && OccursAt(s, r, a)
    && (forall i :: 0 <= i < a ==> IsSpace(s[i]))
    && (forall i :: a + |r| <= i < |s| ==> IsSpace(s[i]))
  }

  /** A string without white space at its ends is its own trim. */
  lemma TrimNoop(s: string)
    requires s == "" || (!IsSpace(s[0]) && !IsSpace(s[|s| - 1]))
    ensures Trim(s) == s
  {
  }

  // ---------------------------------------------------------------------------
  // Splitting and joining on one separator character
  // ---------------------------------------------------------------------------

  /** The position of the first `c` in `s`, if any. */
  function IndexOf(s: string, c: char): (r: Option<nat>)
    ensures r.Some? ==> r.value < |s| && s[r.value] == c && c !in s[..r.value]
    ensures r.None? ==> c !in s
    decreases |s|
  {
    if |s| == 0 then None
    else if s[0] == c then Some(0)
    else match IndexOf(s[1..], c)
      case None => None
      case Some(i) => Some(i + 1)
  }

  /** `s.split(c)` for a one-character separator. */
  function Split(s: string, c: char): (r: seq<string>)
    ensures |r| >= 1
    ensures forall k :: 0 <= k < |r| ==> c !in r[k]
    decreases |s|
  {
    match IndexOf(s, c)
    case None => [s]
    case Some(i) => [s[..i]] + Split(s[i + 1..], c)
  }

  /** `parts.join(c)`. */
  function Join(parts: seq<string>, c: char): string
    requires |parts| >= 1
    decreases |parts|
  {
    if |parts| == 1 then parts[0] else parts[0] + [c] + Join(parts[1..], c)
  }

  /** Splitting on a character and joining on the same character gives the input back. */
  lemma {:induction false} JoinSplit(s: string, c: char)
    ensures Join(Split(s, c), c) == s
    decreases |s|
  {
    match IndexOf(s, c)
    case None =>
      assert Split(s, c) == [s];
    case Some(i) =>
      var rest := Split(s[i + 1..], c);
      JoinSplit(s[i + 1..], c);
      assert Split(s, c) == [s[..i]] + rest;
      assert ([s[..i]] + rest)[1..] == rest;
      assert Join([s[..i]] + rest, c) == s[..i] + [c] + Join(rest, c);
      assert s == s[..i] + [c] + s[i + 1..];
  }

  /** The first separator after a separator-free prefix is the one that ends it. */
  lemma IndexOfAfterPrefix(a: string, c: char, rest: string)
    requires c !in a
    ensures IndexOf(a + [c] + rest, c) == Some(|a|)
  {
    var s := a + [c] + rest;
    assert s[|a|] == c;
    assert forall j :: 0 <= j < |a| ==> s[j] == a[j];
  }

  /** Joining separator-free parts and splitting again gives the parts back. */
  lemma {:induction false} SplitJoin(parts: seq<string>, c: char)
    requires |parts| >= 1
    requires forall k :: 0 <= k < |parts| ==> c !in parts[k]
    ensures Split(Join(parts, c), c) == parts
    decreases |parts|
  {
    if |parts| > 1 {
      var rest := Join(parts[1..], c);
      IndexOfAfterPrefix(parts[0], c, rest);
      var s := parts[0] + [c] + rest;
      assert s[..|parts[0]|] == parts[0];
      assert s[|parts[0]| + 1..] == rest;
      SplitJoin(parts[1..], c);
      assert parts == [parts[0]] + parts[1..];
    }
  }

  /** `s.split(c)[0]`: everything before the first `c`. */
  function FirstSegment(s: string, c: char): (r: string)
    ensures StartsWith(s, r) && c !in r
    ensures r == s || s[|r|] == c
  {
    match IndexOf(s, c)
    case None => s
    case Some(i) => s[..i]
  }

  /** `s.split(c)` followed by taking the last element. */
  function LastSegment(s: string, c: char): (r: string)
    ensures c !in r
  {
    var parts := Split(s, c);
    parts[|parts| - 1]
  }

  /** The last segment is a suffix of the input that no separator precedes inside it. */
  lemma {:induction false} LastSegmentSuffix(s: string, c: char)
    ensures |LastSegment(s, c)| <= |s|
    ensures LastSegment(s, c) == s[|s| - |LastSegment(s, c)|..]
    ensures LastSegment(s, c) == s || s[|s| - |LastSegment(s, c)| - 1] == c
    decreases |s|
  {
    match IndexOf(s, c)
    case None =>
      assert Split(s, c) == [s];
    case Some(i) =>
      var tail := s[i + 1..];
      LastSegmentSuffix(tail, c);
      var parts := Split(tail, c);
      var l := LastSegment(tail, c);
      assert Split(s, c) == [s[..i]] + parts;
      assert LastSegment(s, c) == l;
      assert tail[|tail| - |l|..] == s[|s| - |l|..];
      if l == tail {
        assert s[|s| - |l| - 1] == s[i] == c;
      } else {
        assert s[|s| - |l| - 1] == tail[|tail| - |l| - 1];
      }
  }

  // ---------------------------------------------------------------------------
  // Clamped substrings
  // ---------------------------------------------------------------------------

  function Clamp(x: int, len: nat): (r: nat)
    ensures r <= len
  {
    if x < 0 then 0 else if x > len then len else x
  }

  /** `s.substring(a, b)`: both ends clamped to the string, swapped when reversed. */
  function Substring(s: string, a: int, b: int): (r: string)
    ensures |r| <= |s|
    ensures 0 <= a <= b <= |s| ==> r == s[a..b]
    ensures 0 <= a <= b ==> |r| <= b - a
  {
    var x := Clamp(a, |s|);
    var y := Clamp(b, |s|);
    if x <= y then s[x..y] else s[y..x]
  }

  /** `s.slice(-n)` for n > 0: the last n characters, or all of `s` when it is shorter. */
  function TakeLast(s: string, n: nat): (r: string)
    ensures |r| == if |s| < n then |s| else n
    ensures r == s[|s| - |r|..]
  {
    if |s| < n then s else s[|s| - n..]
  }

  // ---------------------------------------------------------------------------
  // Numbers as text
  // ---------------------------------------------------------------------------

  /** A digit of the given base, in the alphabet `Number.prototype.toString` uses (0-9, a-z). */
  predicate IsDigitOf(c: char, base: nat) {
    || ('0' <= c <= '9' && c as int - '0' as int < base)
    || ('a' <= c <= 'z' && c as int - 'a' as int + 10 < base)
  }

  function DigitChar(d: nat): (c: char)
    requires d < 36
    ensures forall base :: d < base ==> IsDigitOf(c, base)
  {
    if d < 10 then ('0' as int + d) as char else ('a' as int + d - 10) as char
  }

  function DigitValue(c: char): (d: nat)
    ensures d < 36
  {
    if '0' <= c <= '9' then c as int - '0' as int
    else if 'a' <= c <= 'z' then c as int - 'a' as int + 10
    else 0
  }

  lemma DigitValueOf(d: nat)
    requires d < 36
    ensures DigitValue(DigitChar(d)) == d
  {
  }

  /** `n.toString(base)` for a non-negative integer. */
  function Digits(n: nat, base: nat): (r: string)
    requires 2 <= base <= 36
    ensures |r| >= 1
    ensures forall k :: 0 <= k < |r| ==> IsDigitOf(r[k], base)
    decreases n
  {
    if n < base then [DigitChar(n)]
    else
      assert n / base < n && n % base < base by { DivMod(n, base); }
      var rest := Digits(n / base, base);
      var last := DigitChar(n % base);
      assert IsDigitOf(last, base);
      rest + [last]
  }

  /** The value of a digit string in the given base. */
  function ParseDigits(s: string, base: nat): nat
    requires 2 <= base <= 36
    decreases |s|
  {
    if s == [] then 0 else ParseDigits(s[..|s| - 1], base) * base + DigitValue(s[|s| - 1])
  }

  /** Appending a digit multiplies the value by the base and adds the digit. */
  lemma ParseDigitsSnoc(s: string, c: char, base: nat)
    requires 2 <= base <= 36
    ensures ParseDigits(s + [c], base) == ParseDigits(s, base) * base + DigitValue(c)
  {
    assert (s + [c])[..|s + [c]| - 1] == s;
  }

  lemma DigitsUnfold(n: nat, base: nat)
    requires 2 <= base <= 36 && n >= base
    ensures Digits(n, base) == Digits(n / base, base) + [DigitChar(n % base)]
  {
  }

  lemma DivMod(n: nat, base: nat)
    requires base > 0
    ensures n == (n / base) * base + n % base
    ensures 0 <= n % base < base
    ensures base >= 2 && n > 0 ==> n / base < n
  {
  }

  /** Reading back the digits of a number gives the number. */
  lemma {:induction false} ParseDigitsRoundTrip(n: nat, base: nat)
    requires 2 <= base <= 36
    ensures ParseDigits(Digits(n, base), base) == n
    decreases n
  {
    if n < base {
      DigitValueOf(n);
      ParseDigitsSnoc([], DigitChar(n), base);
      assert [] + [DigitChar(n)] == Digits(n, base);
    } else {
      var q, d := n / base, n % base;
      DivMod(n, base);
      ParseDigitsRoundTrip(q, base);
      DigitValueOf(d);
      DigitsUnfold(n, base);
      var ds := Digits(q, base);
      ParseDigitsSnoc(ds, DigitChar(d), base);
      var pq := ParseDigits(ds, base);
      assert pq == q;
      assert ParseDigits(Digits(n, base), base) == pq * base + d;
    }
  }

  /** Different numbers have different digit strings. */
  lemma DigitsInjective(m: nat, n: nat, base: nat)
    requires 2 <= base <= 36
    requires Digits(m, base) == Digits(n, base)
    ensures m == n
  {
    ParseDigitsRoundTrip(m, base);
    ParseDigitsRoundTrip(n, base);
  }

  /** `n.toString()` in base 10. */
  function Decimal(n: nat): string {
    Digits(n, 10)
  }

  /** `i.toString()` for any integer: a minus sign in front of the magnitude when negative. */
  function IntToString(i: int): (r: string)
    ensures |r| >= 1
    ensures (i < 0) <==> r[0] == '-'
    ensures i >= 0 ==> ParseDigits(r, 10) == i
    ensures i < 0 ==> ParseDigits(r[1..], 10) == -i
  {
    if i < 0 then
      ParseDigitsRoundTrip(-i, 10);
      assert ("-" + Decimal(-i))[1..] == Decimal(-i);
      "-" + Decimal(-i)
    else
      ParseDigitsRoundTrip(i, 10);
      Decimal(i)
  }

  /** Numbers of at least three digits render to at least three characters. */
  lemma {:induction false} DecimalLength(n: nat)
    requires n >= 100
    ensures |Decimal(n)| >= 3
  {
    assert Digits(n, 10) == Digits(n / 10, 10) + [DigitChar(n % 10)];
    assert Digits(n / 10, 10) == Digits(n / 10 / 10, 10) + [DigitChar((n / 10) % 10)];
  }

  /** `String(n).padStart(2, '0')` for 0 <= n < 100. */
  function Pad2(n: nat): (r: string)
    requires n < 100
    ensures |r| == 2
    ensures forall k :: 0 <= k < 2 ==> IsDigitOf(r[k], 10)
    ensures ParseDigits(r, 10) == n
  {
    var r := [DigitChar(n / 10), DigitChar(n % 10)];
    DigitValueOf(n / 10);
    DigitValueOf(n % 10);
    assert r[..1] == [DigitChar(n / 10)];
    assert r[..1][..0] == [];
    assert ParseDigits(r[..1], 10) == n / 10;
    assert ParseDigits(r, 10) == (n / 10) * 10 + n % 10;
    r
  }
}
