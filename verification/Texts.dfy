/** The string operations of JavaScript that addresses are printed and parsed with:
    `split`, `join`, `toString(radix)`, `parseInt` and `toLowerCase`. */
module Texts {
  import opened Options

  // ----- Splitting and joining -----

  predicate OccursAt(s: string, separator: string, i: int) {
    0 <= i && i + |separator| <= |s| && s[i..i + |separator|] == separator
  }

  /** The first occurrence of the separator. */
  function IndexOf(s: string, separator: string): (r: Option<nat>)
    ensures r.Some? ==> OccursAt(s, separator, r.value) && forall j :: 0 <= j < r.value ==> !OccursAt(s, separator, j)
    ensures r.None? ==> forall j :: !OccursAt(s, separator, j)
  {
    FirstFrom(s, separator, 0)
  }

  function FirstFrom(s: string, separator: string, i: nat): (r: Option<nat>)
    ensures r.Some? ==> OccursAt(s, separator, r.value) && forall j :: i <= j < r.value ==> !OccursAt(s, separator, j)
    ensures r.None? ==> forall j :: i <= j ==> !OccursAt(s, separator, j)
    decreases |s| - i
  {
    if OccursAt(s, separator, i) then Some(i)
    else if i < |s| then FirstFrom(s, separator, i + 1)
    else None
  }

  function Split(s: string, separator: string): (parts: seq<string>)
    requires separator != ""
    ensures parts != []
    decreases |s|
  {
    match IndexOf(s, separator)
    case None => [s]
    case Some(i) => [s[..i]] + Split(s[i + |separator|..], separator)
  }

  function Join(parts: seq<string>, separator: string): string {
    if parts == [] then ""
    else if |parts| == 1 then parts[0]
    else parts[0] + separator + Join(parts[1..], separator)
  }

  lemma FirstIs(s: string, separator: string, i: nat)
    requires OccursAt(s, separator, i) && forall j :: 0 <= j < i ==> !OccursAt(s, separator, j)
    ensures IndexOf(s, separator) == Some(i)
  {
  }

  lemma SplitHead(head: string, separator: string, rest: string)
    requires separator != ""
    requires forall j :: 0 <= j < |head| ==> !OccursAt(head + separator + rest, separator, j)
    ensures Split(head + separator + rest, separator) == [head] + Split(rest, separator)
  {
    var s := head + separator + rest;
    assert s[|head|..|head| + |separator|] == separator;
    FirstIs(s, separator, |head|);
    assert s[..|head|] == head && s[|head| + |separator|..] == rest;
  }

  /** Joining parts free of a one-character separator and splitting gives them back. */
  lemma {:induction false} SplitJoin(parts: seq<string>, c: char)
    requires parts != [] && forall i :: 0 <= i < |parts| ==> c !in parts[i]
    ensures Split(Join(parts, [c]), [c]) == parts
  {
    if |parts| == 1 {
      assert forall j :: OccursAt(parts[0], [c], j) ==> parts[0][j..j + 1][0] == parts[0][j];
    } else {
      var rest := Join(parts[1..], [c]);
      SplitJoin(parts[1..], c);
      forall j | 0 <= j < |parts[0]| ensures !OccursAt(parts[0] + [c] + rest, [c], j) {
        var s := parts[0] + [c] + rest;
        assert s[j..j + 1][0] == s[j] && s[j] == parts[0][j];
      }
      SplitHead(parts[0], [c], rest);
    }
  }

  // ----- Separators in a row -----

  /** No two separators stand side by side, and none at either end. */
  predicate Spaced(s: string, c: char) {
    && (forall i :: 0 <= i < |s| && s[i] == c ==> 0 < i && i + 1 < |s|)
    && (forall i, j :: 0 <= i < |s| && j == i + 1 && j < |s| ==> !(s[i] == c && s[j] == c))
  }

  lemma {:induction false} JoinSpaced(parts: seq<string>, c: char)
    requires forall i :: 0 <= i < |parts| ==> parts[i] != "" && c !in parts[i]
    ensures Spaced(Join(parts, [c]), c)
    ensures parts != [] ==> Join(parts, [c]) != ""
  {
    if |parts| > 1 {
      JoinSpaced(parts[1..], c);
      var rest := Join(parts[1..], [c]);
      var s := parts[0] + [c] + rest;
      assert forall i :: 0 <= i < |parts[0]| ==> s[i] == parts[0][i];
      assert forall i :: |parts[0]| < i < |s| ==> s[i] == rest[i - |parts[0]| - 1];
    }
  }

  lemma DoubleAt(s: string, c: char, j: int)
    requires OccursAt(s, [c, c], j)
    ensures s[j] == c && s[j + 1] == c
  {
    assert s[j..j + 2][0] == s[j] && s[j..j + 2][1] == s[j + 1];
  }

  lemma NoDoubleIn(s: string, c: char)
    requires Spaced(s, c)
    ensures Split(s, [c, c]) == [s] && IndexOf(s, [c, c]).None?
  {
    forall j ensures !OccursAt(s, [c, c], j) {
      if OccursAt(s, [c, c], j) { DoubleAt(s, c, j); }
    }
  }

  /** A doubled separator between two spaced texts is the only one. */
  lemma SplitDouble(left: string, right: string, c: char)
    requires Spaced(left, c) && Spaced(right, c)
    ensures Split(left + [c, c] + right, [c, c]) == [left, right]
    ensures IndexOf(left + [c, c] + right, [c, c]).Some?
  {
    var s := left + [c, c] + right;
    forall j | 0 <= j < |left| ensures !OccursAt(s, [c, c], j) {
      assert s[j] == left[j];
      if OccursAt(s, [c, c], j) { DoubleAt(s, c, j); }
    }
    NoDoubleIn(right, c);
    SplitHead(left, [c, c], right);
    assert s[|left|..|left| + 2] == [c, c];
    assert OccursAt(s, [c, c], |left|);
  }

  // ----- Digits -----

  predicate IsDigit(c: char, radix: nat) {
    || ('0' <= c <= '9' && c as int - '0' as int < radix)
    || ('a' <= c <= 'f' && c as int - 'a' as int + 10 < radix)
    || ('A' <= c <= 'F' && c as int - 'A' as int + 10 < radix)
  }

  function DigitValue(c: char): (v: nat)
    ensures forall radix: nat :: IsDigit(c, radix) ==> v < radix
  {
    if '0' <= c <= '9' then c as int - '0' as int
    else if 'a' <= c <= 'f' then c as int - 'a' as int + 10
    else if 'A' <= c <= 'F' then c as int - 'A' as int + 10
    else 0
  }

  predicate AllDigits(s: string, radix: nat) { forall i :: 0 <= i < |s| ==> IsDigit(s[i], radix) }

  /** The positional value of the digits. */
  function Value(s: string, radix: nat): nat {
    if s == "" then 0 else Value(s[..|s| - 1], radix) * radix + DigitValue(s[|s| - 1])
  }

  /** `n.toString(radix)`. */
  function Digits(n: nat, radix: nat): (s: string)
    requires 2 <= radix <= 16
    decreases n
  {
    if n < radix then [DigitChar(n)] else Digits(n / radix, radix) + [DigitChar(n % radix)]
  }

  function DigitChar(d: nat): char
    requires d < 16
  {
    "0123456789abcdef"[d]
  }

  lemma LowerDigit(d: nat, radix: nat)
    requires d < radix <= 16
    ensures IsDigit(DigitChar(d), radix) && DigitValue(DigitChar(d)) == d && (DigitChar(d) == '0' <==> d == 0)
    ensures !('A' <= DigitChar(d) <= 'Z')
  {
  }

  /** Digits of the number, without a leading zero. */
  predicate Spells(s: string, n: nat, radix: nat) {
    s != "" && AllDigits(s, radix) && Value(s, radix) == n && (s[0] == '0' ==> n == 0 && |s| == 1)
  }

  /** The printed digits read back as the number, and have no leading zero. */
  lemma {:induction false} DigitsRead(n: nat, radix: nat)
    requires 2 <= radix <= 16
    ensures Spells(Digits(n, radix), n, radix)
    decreases n
  {
    hide IsDigit, DigitValue, DigitChar, Spells, Value;
    if n < radix {
      SpellsDigit(n, radix);
    } else {
      Division(n, radix);
      var q, d := n / radix, n % radix;
      DigitsRead(q, radix);
      SpellsMore(Digits(q, radix), q, d, radix);
    }
  }

  lemma SpellsDigit(d: nat, radix: nat)
    requires d < radix <= 16
    ensures Spells([DigitChar(d)], d, radix)
  {
    hide IsDigit, DigitValue, DigitChar;
    LowerDigit(d, radix);
    ValueSnoc("", DigitChar(d), radix);
    assert "" + [DigitChar(d)] == [DigitChar(d)];
  }

  lemma SpellsMore(s: string, q: nat, d: nat, radix: nat)
    requires Spells(s, q, radix) && d < radix <= 16 && q > 0
    ensures Spells(s + [DigitChar(d)], q * radix + d, radix)
  {
    hide IsDigit, DigitValue, DigitChar;
    LowerDigit(d, radix);
    ValueSnoc(s, DigitChar(d), radix);
  }

  lemma ValueSnoc(front: string, c: char, radix: nat)
    ensures Value(front + [c], radix) == Value(front, radix) * radix + DigitValue(c)
  {
    assert (front + [c])[..|front|] == front;
  }

  lemma Division(n: nat, radix: nat)
    requires radix > 0
    ensures n / radix * radix + n % radix == n && (n >= radix ==> n / radix > 0)
  {
  }

  function Power(radix: nat, k: nat): nat { if k == 0 then 1 else radix * Power(radix, k - 1) }

  /** Numbers below a power of the radix take at most that many digits. */
  lemma {:induction false} DigitsShort(n: nat, radix: nat, k: nat)
    requires 2 <= radix <= 16 && n < Power(radix, k) && k > 0
    ensures |Digits(n, radix)| <= k
    decreases k
  {
    if n >= radix {
      assert k == 1 ==> Power(radix, k) == radix * Power(radix, 0);
      Quotient(n, radix, Power(radix, k - 1));
      DigitsShort(n / radix, radix, k - 1);
    }
  }

  lemma Quotient(n: nat, radix: nat, bound: nat)
    requires radix > 0 && n < radix * bound
    ensures n / radix < bound
  {
    Division(n, radix);
    var q := n / radix;
    assert q >= bound ==> q * radix >= bound * radix;
  }

  lemma DigitFits(v: nat, d: nat, radix: nat, bound: nat)
    requires v < bound && d < radix
    ensures v * radix + d < radix * bound
  {
    assert (v + 1) * radix <= bound * radix;
  }

  lemma {:induction false} ValueBound(s: string, radix: nat)
    requires AllDigits(s, radix) && radix > 0
    ensures Value(s, radix) < Power(radix, |s|)
  {
    if s != "" {
      var front := s[..|s| - 1];
      ValueBound(front, radix);
      assert IsDigit(s[|s| - 1], radix);
      DigitFits(Value(front, radix), DigitValue(s[|s| - 1]), radix, Power(radix, |front|));
    }
  }

  // ----- Case -----

  function LowerChar(c: char): char {
    if 'A' <= c <= 'Z' then (c as int - 'A' as int + 'a' as int) as char else c
  }

  function ToLower(s: string): (r: string)
    ensures |r| == |s| && forall i :: 0 <= i < |s| ==> r[i] == LowerChar(s[i])
  {
    seq(|s|, i requires 0 <= i < |s| => LowerChar(s[i]))
  }

  lemma LowerConcat(s: string, t: string)
    ensures ToLower(s + t) == ToLower(s) + ToLower(t)
  {
  }

  function LowerAll(parts: seq<string>): (r: seq<string>)
    ensures |r| == |parts| && forall i :: 0 <= i < |parts| ==> r[i] == ToLower(parts[i])
  {
    seq(|parts|, i requires 0 <= i < |parts| => ToLower(parts[i]))
  }

  lemma {:induction false} LowerJoin(parts: seq<string>, separator: string)
    requires ToLower(separator) == separator
    ensures ToLower(Join(parts, separator)) == Join(LowerAll(parts), separator)
  {
    if |parts| > 1 {
      LowerJoin(parts[1..], separator);
      assert LowerAll(parts)[1..] == LowerAll(parts[1..]);
      LowerConcat(parts[0] + separator, Join(parts[1..], separator));
      LowerConcat(parts[0], separator);
    }
  }

  lemma {:induction false} LowerValue(s: string, radix: nat)
    requires AllDigits(s, radix)
    ensures AllDigits(ToLower(s), radix) && Value(ToLower(s), radix) == Value(s, radix)
  {
    forall i | 0 <= i < |s| ensures IsDigit(ToLower(s)[i], radix) { assert IsDigit(s[i], radix); }
    if s != "" {
      var front := s[..|s| - 1];
      LowerValue(front, radix);
      assert ToLower(s)[..|s| - 1] == ToLower(front);
      assert IsDigit(s[|s| - 1], radix);
    }
  }

  // ----- Parsing -----

  /** How many leading characters are digits of the radix. */
  function DigitPrefix(s: string, radix: nat): (k: nat)
    ensures k <= |s| && AllDigits(s[..k], radix)
    ensures AllDigits(s, radix) ==> k == |s|
  {
    if s == "" || !IsDigit(s[0], radix) then 0
    else
      var k := 1 + DigitPrefix(s[1..], radix);
      assert forall i :: 0 < i < k ==> s[..k][i] == s[1..][..k - 1][i - 1];
      k
  }

  /** `Number.parseInt(s, radix)`: the longest prefix of digits; NaN, which every use here
      writes as zero, is 0. */
  function ParseInt(s: string, radix: nat): nat { Value(s[..DigitPrefix(s, radix)], radix) }

  /** `Number(s)` on decimal text; NaN, which every use here writes as zero, is 0. */
  function ToNumber(s: string): nat { if AllDigits(s, 10) then Value(s, 10) else 0 }

  lemma ParseAll(s: string, radix: nat)
    requires AllDigits(s, radix)
    ensures ParseInt(s, radix) == Value(s, radix)
  {
    assert s[..|s|] == s;
  }
}
