// String helpers shared by the modelled pages and server code: digit filtering,
// the JavaScript and Python whitespace classes, ASCII case mapping, substring
// search, decimal rendering and the small split/slice idioms the sources use.
module Text {
  import Lists

  // ---------------------------------------------------------------------------
  // Digits
  // ---------------------------------------------------------------------------

  /** `\d` of a JavaScript regular expression without the `u` flag: ASCII 0-9. */
  predicate IsDigit(c: char) {
    '0' <= c <= '9'
  }

  predicate AllDigits(s: string) {
    forall i :: 0 <= i < |s| ==> IsDigit(s[i])
  }

  /** `s.replace(/\D/g, '')`: keeps the ASCII digits of `s`, in order. */
  function OnlyDigits(s: string): (r: string)
    ensures AllDigits(r)
    ensures |r| <= |s|
  {
    if s == [] then []
    else if IsDigit(s[0]) then [s[0]] + OnlyDigits(s[1..])
    else OnlyDigits(s[1..])
  }
  /** A string of digits keeps all of them. */
  lemma {:induction false} OnlyDigitsIdentity(s: string)
    requires AllDigits(s)
    ensures OnlyDigits(s) == s
    decreases |s|
  {
    if s != [] {
      assert AllDigits(s[1..]);
      OnlyDigitsIdentity(s[1..]);
    }
  }


  lemma {:induction false} OnlyDigitsAppend(a: string, b: string)
    ensures OnlyDigits(a + b) == OnlyDigits(a) + OnlyDigits(b)
  {
    if a == [] {
      assert a + b == b;
    } else {
      assert (a + b)[1..] == a[1..] + b;
      OnlyDigitsAppend(a[1..], b);
    }
  }

  /** Filtering the digits of a string that consists of digits and other characters
      laid around them gives back the digits. */
  lemma OnlyDigitsOfSeparator(c: char)
    requires !IsDigit(c)
    ensures OnlyDigits([c]) == []
  {
  }

  /** No character of `s` is a digit: the punctuation and spaces a mask inserts. */
  predicate NoDigits(s: string) {
    forall i :: 0 <= i < |s| ==> !IsDigit(s[i])
  }

  lemma {:induction false} OnlyDigitsNone(s: string)
    requires NoDigits(s)
    ensures OnlyDigits(s) == []
  {
    if s != [] {
      OnlyDigitsNone(s[1..]);
    }
  }

  /** Filtering the digits of two pieces joined by punctuation gives the digits of the pieces. */
  lemma OnlyDigitsAround(a: string, sep: string, b: string)
    requires NoDigits(sep)
    ensures OnlyDigits(a + sep + b) == OnlyDigits(a) + OnlyDigits(b)
  {
    OnlyDigitsAppend(a + sep, b);
    OnlyDigitsAppend(a, sep);
    OnlyDigitsNone(sep);
  }

  /** `s.slice(0, n)` in JavaScript, `s[:n]` in Python, for `n >= 0`. */
  function Prefix<T>(s: seq<T>, n: nat): (r: seq<T>)
    ensures |r| == if n < |s| then n else |s|
    ensures r <= s
  {
    if n < |s| then s[..n] else s
  }

  lemma PrefixOfDigits(s: string, n: nat)
    requires AllDigits(s)
    ensures AllDigits(Prefix(s, n))
  {
  }

  // ---------------------------------------------------------------------------
  // Decimal rendering
  // ---------------------------------------------------------------------------

  function DigitChar(d: nat): (c: char)
    requires d < 10
    ensures IsDigit(c)
  {
    ('0' as int + d) as char
  }

  function DigitValue(c: char): (d: nat)
    requires IsDigit(c)
    ensures d < 10 && DigitChar(d) == c
  {
    c as int - '0' as int
  }

  /** `str(n)` / `String(n)` for a natural number: its decimal digits without leading zeros. */
  function NatToString(n: nat): (r: string)
    ensures 1 <= |r|
    ensures AllDigits(r)
    decreases n
  {
    if n < 10 then [DigitChar(n)] else NatToString(n / 10) + [DigitChar(n % 10)]
  }

  /** The value of a string of decimal digits. */
  function DecimalValue(s: string): nat
    requires AllDigits(s)
  {
    if s == [] then 0 else DecimalValue(s[..|s| - 1]) * 10 + DigitValue(s[|s| - 1])
  }

  /** Reading back the decimal rendering of a number gives the number. */
  lemma {:induction false} DecimalRoundTrip(n: nat)
    ensures DecimalValue(NatToString(n)) == n
    decreases n
  {
    var r := NatToString(n);
    if n >= 10 {
      DecimalRoundTrip(n / 10);
      assert r[..|r| - 1] == NatToString(n / 10);
    }
  }

  /** The number of decimal digits: one below 10, two from 10 to 99, three or more from 100. */
  lemma {:induction false} NatToStringLength(n: nat)
    ensures n < 10 ==> |NatToString(n)| == 1
    ensures 10 <= n < 100 ==> |NatToString(n)| == 2
    ensures 100 <= n ==> |NatToString(n)| >= 3
    decreases n
  {
    if n >= 10 {
      NatToStringLength(n / 10);
    }
  }

  /** Python's `f"{n:02}"`: the decimal rendering left-padded with zeros to width two. */
  function Pad2(n: nat): (r: string)
    ensures AllDigits(r)
    ensures n < 100 ==> |r| == 2
    ensures n < 100 ==> DecimalValue(r) == n
    ensures 100 <= n ==> r == NatToString(n)
  {
    NatToStringLength(n);
    DecimalRoundTrip(n);
    if n < 10 then
      assert DecimalValue(['0'] + NatToString(n)) == DecimalValue(NatToString(n)) by {
        assert (['0'] + NatToString(n))[..1] == ['0'];
      }
      ['0'] + NatToString(n)
    else NatToString(n)
  }

  /** Below 100, the padded rendering is the tens digit followed by the units digit. */
  lemma Pad2Digits(n: nat)
    requires n < 100
    ensures Pad2(n) == [DigitChar(n / 10), DigitChar(n % 10)]
  {
    if n >= 10 {
      assert NatToString(n) == NatToString(n / 10) + [DigitChar(n % 10)];
    }
  }

  /** Reading a digit back gives its value. */
  lemma DigitRoundTrip(d: nat)
    requires d < 10
    ensures DigitValue(DigitChar(d)) == d
  {
  }

  /** `t.replace(/(\d{k})(?=\d)/g, '$1 ')` on a string of digits: a space after every
      group of `k` digits that is followed by another digit. */
  function DigitGroups(t: string, k: nat): (r: string)
    requires k > 0
    ensures t != [] ==> r != [] && r[0] == t[0] && r[|r| - 1] == t[|t| - 1]
    decreases |t|
  {
    if |t| <= k then t else t[..k] + " " + DigitGroups(t[k..], k)
  }

  /** A group of digits, a space and a rest whose digits are `b` have the digits
      of the group followed by `b`. */
  lemma OnlyDigitsGroup(a: string, g: string, b: string)
    requires AllDigits(a) && OnlyDigits(g) == b
    ensures OnlyDigits(a + " " + g) == a + b
  {
    OnlyDigitsAround(a, " ", g);
    OnlyDigitsIdentity(a);
  }

  /** The grouping only inserts spaces: the digits come back out unchanged. */
  lemma {:induction false} DigitGroupsDigits(t: string, k: nat)
    requires k > 0 && AllDigits(t)
    ensures OnlyDigits(DigitGroups(t, k)) == t
    decreases |t|
  {
    if |t| > k {
      var a, b := t[..k], t[k..];
      DigitsCut(t, k);
      DigitGroupsDigits(b, k);
      OnlyDigitsGroup(a, DigitGroups(b, k), b);
    } else {
      OnlyDigitsIdentity(t);
    }
  }

  /** Both sides of a cut through a string of digits are digits. */
  lemma DigitsCut(t: string, k: nat)
    requires AllDigits(t) && k <= |t|
    ensures AllDigits(t[..k]) && AllDigits(t[k..]) && t[..k] + t[k..] == t
  {
    assert forall i :: 0 <= i < |t| - k ==> t[k..][i] == t[k + i];
  }

  /** With `k` digits per group, `g` more groups than the first add at most `g` spaces. */
  lemma {:induction false} DigitGroupsBound(t: string, k: nat, g: nat)
    requires k > 0 && |t| <= k * (g + 1)
    ensures |DigitGroups(t, k)| <= |t| + g
    decreases g
  {
    if |t| > k {
      assert k * (g + 1) == k * g + k;
      DigitGroupsBound(t[k..], k, g - 1);
    }
  }

  // ---------------------------------------------------------------------------
  // Whitespace
  // ---------------------------------------------------------------------------

  /** The characters matched by `\s` in a JavaScript regular expression, which are
      also the characters `String.prototype.trim` removes. */
  predicate JsSpace(c: char) {
    var k := c as int;
    (0x09 <= k <= 0x0D) || k == 0x20 || k == 0xA0 || k == 0x1680
    || (0x2000 <= k <= 0x200A) || k == 0x2028 || k == 0x2029
    || k == 0x202F || k == 0x205F || k == 0x3000 || k == 0xFEFF
  }

  /** The characters for which Python's `str.isspace` holds, which `str.strip()` removes. */
  predicate PySpace(c: char) {
    var k := c as int;
    (0x09 <= k <= 0x0D) || (0x1C <= k <= 0x1F) || k == 0x20 || k == 0x85
    || k == 0xA0 || k == 0x1680 || (0x2000 <= k <= 0x200A)
    || k == 0x2028 || k == 0x2029 || k == 0x202F || k == 0x205F || k == 0x3000
  }

  /** `s.trim()` in JavaScript. */
  function TrimJs(s: string): (r: string)
    ensures |r| <= |s|
    ensures r != [] ==> !JsSpace(r[0]) && !JsSpace(r[|r| - 1])
    ensures (forall i :: 0 <= i < |s| ==> JsSpace(s[i])) <==> r == []
    ensures s != [] && !JsSpace(s[0]) && !JsSpace(s[|s| - 1]) ==> r == s
  {
    DropTrailing(DropLeading(s, JsSpace), JsSpace)
  }

  /** `s.strip()` in Python. */
  function StripPy(s: string): (r: string)
    ensures |r| <= |s|
    ensures r != [] ==> !PySpace(r[0]) && !PySpace(r[|r| - 1])
    ensures (forall i :: 0 <= i < |s| ==> PySpace(s[i])) <==> r == []
  {
    DropTrailing(DropLeading(s, PySpace), PySpace)
  }

  function DropLeading(s: string, space: char -> bool): (r: string)
    ensures |r| <= |s| && r == s[|s| - |r|..]
    ensures r != [] ==> !space(r[0])
    ensures forall i :: 0 <= i < |s| - |r| ==> space(s[i])
  {
    if s != [] && space(s[0]) then DropLeading(s[1..], space) else s
  }

  function DropTrailing(s: string, space: char -> bool): (r: string)
    ensures |r| <= |s| && r == s[..|r|]
    ensures r != [] ==> !space(r[|r| - 1])
    ensures forall i :: |r| <= i < |s| ==> space(s[i])
  {
    if s != [] && space(s[|s| - 1]) then DropTrailing(s[..|s| - 1], space) else s
  }

  /** Trimming a string that ends in one trailing space removes just that space. */
  lemma TrimTrailingSpace(a: string)
    requires a != [] && !JsSpace(a[0]) && !JsSpace(a[|a| - 1])
    ensures TrimJs(a + " ") == a
  {
    var s := a + " ";
    assert DropLeading(s, JsSpace) == s;
    assert s[..|s| - 1] == a;
    assert DropTrailing(s, JsSpace) == DropTrailing(a, JsSpace);
  }

  lemma DigitNotSpace(c: char)
    requires IsDigit(c)
    ensures !JsSpace(c) && !PySpace(c)
  {
  }

  // ---------------------------------------------------------------------------
  // Case mapping (ASCII letters only)
  // ---------------------------------------------------------------------------

  function UpperChar(c: char): char {
    if 'a' <= c <= 'z' then (c as int - 32) as char else c
  }

  function LowerChar(c: char): char {
    if 'A' <= c <= 'Z' then (c as int + 32) as char else c
  }

  /** `toUpperCase()` / `upper()` restricted to ASCII letters. */
  function Upper(s: string): (r: string)
    ensures |r| == |s|
    ensures forall i :: 0 <= i < |s| ==> r[i] == UpperChar(s[i])
  {
    seq(|s|, i requires 0 <= i < |s| => UpperChar(s[i]))
  }

  /** `toLowerCase()` / `lower()` restricted to ASCII letters. */
  function Lower(s: string): (r: string)
    ensures |r| == |s|
    ensures forall i :: 0 <= i < |s| ==> r[i] == LowerChar(s[i])
  {
    seq(|s|, i requires 0 <= i < |s| => LowerChar(s[i]))
  }

  lemma LowerAppend(a: string, b: string)
    ensures Lower(a + b) == Lower(a) + Lower(b)
  {
  }

  lemma LowerSuffix(s: string, n: nat)
    requires n <= |s|
    ensures Lower(s[n..]) == Lower(s)[n..]
  {
  }

  // ---------------------------------------------------------------------------
  // Substrings, replacement and splitting
  // ---------------------------------------------------------------------------

  /** `sub in s` in Python, `s.includes(sub)` in JavaScript. */
  predicate Contains(s: string, sub: string) {
    exists i | 0 <= i <= |s| :: OccursAt(s, sub, i)
  }

  /** `sub` occurs in `s` starting at index `i`. */
  predicate OccursAt(s: string, sub: string, i: int) {
    0 <= i <= |s| - |sub| && s[i..i + |sub|] == sub
  }

  lemma ContainsInfix(a: string, b: string, c: string)
    ensures Contains(a + b + c, b)
  {
    var s := a + b + c;
    assert s[|a|..|a| + |b|] == b;
    assert OccursAt(s, b, |a|);
  }

  /** The number of occurrences of `c` in `s`. */
  function Count(s: string, c: char): nat {
    if s == [] then 0 else Count(s[..|s| - 1], c) + (if s[|s| - 1] == c then 1 else 0)
  }

  lemma {:induction false} CountAppend(a: string, b: string, c: char)
    ensures Count(a + b, c) == Count(a, c) + Count(b, c)
    decreases |b|
  {
    if b == [] {
      assert a + b == a;
    } else {
      assert (a + b)[..|a + b| - 1] == a + b[..|b| - 1];
      CountAppend(a, b[..|b| - 1], c);
    }
  }

  /** `parts.join(sep)` for a one-character separator. */
  function Join(parts: seq<string>, sep: char): string
    decreases |parts|
  {
    if parts == [] then []
    else if |parts| == 1 then parts[0]
    else Join(parts[..|parts| - 1], sep) + [sep] + parts[|parts| - 1]
  }

  /** Joining parts that do not contain the separator gives one separator fewer
      than there are parts: the parts can be told apart again. */
  lemma {:induction false} JoinCount(parts: seq<string>, sep: char)
    requires parts != []
    requires forall i :: 0 <= i < |parts| ==> Count(parts[i], sep) == 0
    ensures Count(Join(parts, sep), sep) == |parts| - 1
    decreases |parts|
  {
    if |parts| > 1 {
      var init := parts[..|parts| - 1];
      JoinCount(init, sep);
      CountAppend(Join(init, sep) + [sep], parts[|parts| - 1], sep);
      CountAppend(Join(init, sep), [sep], sep);
      assert [sep][..0] == [];
    }
  }

  /** Python's `s.replace(c, '')` for a single character `c`. */
  function RemoveChar(s: string, c: char): (r: string)
    ensures |r| <= |s|
    ensures forall i :: 0 <= i < |r| ==> r[i] != c
    ensures (forall i :: 0 <= i < |s| ==> s[i] != c) ==> r == s
    ensures r == Lists.Filter(s, x => x != c)
  {
    if s == [] then []
    else if s[0] == c then RemoveChar(s[1..], c)
    else [s[0]] + RemoveChar(s[1..], c)
  }

  /** `s.replace(a, b)` in Python, or with a global pattern in JavaScript, for single characters. */
  function ReplaceChar(s: string, a: char, b: char): (r: string)
    ensures |r| == |s|
    ensures forall i :: 0 <= i < |s| ==> r[i] == if s[i] == a then b else s[i]
  {
    seq(|s|, i requires 0 <= i < |s| => if s[i] == a then b else s[i])
  }

  /** `s.split(c)[0]`: the text before the first `c`, or all of `s` when `c` is absent. */
  function BeforeFirst(s: string, c: char): (r: string)
    ensures r <= s
    ensures forall i :: 0 <= i < |r| ==> r[i] != c
    ensures |r| < |s| ==> s[|r|] == c
  {
    if s == [] || s[0] == c then [] else [s[0]] + BeforeFirst(s[1..], c)
  }

  /** The text before the first `c` is everything before a `c` at `k` that has no
      earlier `c`. */
  lemma BeforeFirstAt(s: string, c: char, k: nat)
    requires k < |s| && s[k] == c
    requires forall i :: 0 <= i < k ==> s[i] != c
    ensures BeforeFirst(s, c) == s[..k]
  {
    var r := BeforeFirst(s, c);
    assert |r| >= k;
    assert |r| <= k;
  }

  /** `s.split(c)` for a single character: the pieces between the occurrences of `c`. */
  function Split(s: string, c: char): (r: seq<string>)
    ensures r != []
    ensures forall i :: 0 <= i < |r| ==> forall j :: 0 <= j < |r[i]| ==> r[i][j] != c
    decreases |s|
  {
    var head := BeforeFirst(s, c);
    if |head| == |s| then [s] else [head] + Split(s[|head| + 1..], c)
  }

  /** Joining a piece in front of a non-empty list puts one separator after it. */
  lemma {:induction false} JoinCons(a: string, rest: seq<string>, sep: char)
    requires rest != []
    ensures Join([a] + rest, sep) == a + [sep] + Join(rest, sep)
    decreases |rest|
  {
    var parts := [a] + rest;
    if |rest| > 1 {
      var init := rest[..|rest| - 1];
      assert parts[..|parts| - 1] == [a] + init;
      JoinCons(a, init, sep);
    } else {
      assert parts[..1] == [a];
    }
  }

  /** A text with a `c` splits into the part before the first `c` and the pieces
      of the rest. */
  lemma SplitCons(s: string, c: char)
    requires |BeforeFirst(s, c)| < |s|
    ensures var head := BeforeFirst(s, c);
            var tail := s[|head| + 1..];
            Split(s, c) == [head] + Split(tail, c) && s == head + [c] + tail
  {
    var head := BeforeFirst(s, c);
    assert s[|head|] == c && head == s[..|head|];
    assert s == s[..|head|] + [s[|head|]] + s[|head| + 1..];
  }

  /** Splitting and joining back with the same character gives the text back. */
  lemma {:induction false} JoinSplit(s: string, c: char)
    ensures Join(Split(s, c), c) == s
    decreases |s|
  {
    var head := BeforeFirst(s, c);
    if |head| < |s| {
      var tail := s[|head| + 1..];
      SplitCons(s, c);
      JoinSplit(tail, c);
      JoinCons(head, Split(tail, c), c);
    }
  }


  /** `s.split(c).pop()`: the text after the last `c`, or all of `s` when `c` is absent. */
  function AfterLast(s: string, c: char): (r: string)
    ensures |r| <= |s| && r == s[|s| - |r|..]
    ensures forall i :: 0 <= i < |r| ==> r[i] != c
    ensures |r| < |s| ==> s[|s| - |r| - 1] == c
    decreases |s|
  {
    if s == [] || s[|s| - 1] == c then [] else AfterLast(s[..|s| - 1], c) + [s[|s| - 1]]
  }

  /** A suffix free of `c` that is the whole text or follows a `c`. */
  predicate LastSegment(s: string, c: char, r: string) {
    |r| <= |s| && r == s[|s| - |r|..]
    && (forall i :: 0 <= i < |r| ==> r[i] != c)
    && (|r| < |s| ==> s[|s| - |r| - 1] == c)
  }

  /** No position of such a suffix holds `c`. */
  lemma LastSegmentFree(s: string, c: char, r: string)
    requires LastSegment(s, c, r)
    ensures forall j :: |s| - |r| <= j < |s| ==> s[j] != c
  {
    forall j | |s| - |r| <= j < |s| ensures s[j] != c {
      assert s[j] == r[j - (|s| - |r|)];
    }
  }

  /** There is only one such suffix. */
  lemma LastSegmentUnique(s: string, c: char, r: string, t: string)
    requires LastSegment(s, c, r) && LastSegment(s, c, t)
    ensures r == t
  {
    LastSegmentFree(s, c, r);
    LastSegmentFree(s, c, t);
    if |r| < |s| {
      assert s[|s| - |r| - 1] == c;
    }
    if |t| < |s| {
      assert s[|s| - |t| - 1] == c;
    }
    assert |r| == |t|;
  }

  /** The text after the last `c` is the only suffix free of `c` that is the whole
      text or follows a `c`. */
  lemma AfterLastUnique(s: string, c: char, r: string)
    requires LastSegment(s, c, r)
    ensures r == AfterLast(s, c)
  {
    var t := AfterLast(s, c);
    assert LastSegment(s, c, t);
    LastSegmentUnique(s, c, r, t);
  }
}
