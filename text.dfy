/** Character classes and string helpers with the semantics of the
    JavaScript built-ins the application uses: `\s` and `String.prototype.trim`,
    `includes`, `Number.prototype.toString(radix)` and `padStart`. */
module Text {

  /** Line terminators of ECMAScript: what `.` refuses and what `^`/`$` see in multiline mode. */
  predicate IsLineTerminator(c: char) {
    c == '\n' || c == '\r' || c == '\U{2028}' || c == '\U{2029}'
  }

  /** ECMAScript white space plus line terminators: the class `\s`, and what `trim` removes. */
  predicate IsSpace(c: char) {
    || IsLineTerminator(c)
    || c == ' ' || c == '\t' || c == '\U{000B}' || c == '\U{000C}'
    || c == '\U{00A0}' || c == '\U{FEFF}' || c == '\U{1680}'
    || ('\U{2000}' <= c <= '\U{200A}')
    || c == '\U{202F}' || c == '\U{205F}' || c == '\U{3000}'
  }

  /** White space that stays on its line. */
  predicate IsInlineSpace(c: char) {
    IsSpace(c) && !IsLineTerminator(c)
  }

  /** The class `\d`. */
  predicate IsDigit(c: char) {
    '0' <= c <= '9'
  }

  /** The class `[0-9a-f]` under the `i` flag. */
  predicate IsHexDigit(c: char) {
    IsDigit(c) || 'a' <= c <= 'f' || 'A' <= c <= 'F'
  }

  predicate AllSpace(s: string) {
    forall i :: 0 <= i < |s| ==> IsSpace(s[i])
  }

  function TrimStart(s: string): (r: string)
    ensures |r| <= |s| && r == s[|s| - |r|..]
    ensures AllSpace(s[..|s| - |r|])
    ensures r == [] || !IsSpace(r[0])
  {
    if s == [] || !IsSpace(s[0]) then s
    else
      var r := TrimStart(s[1..]);
      assert s[1..][..|s| - 1 - |r|] == s[1..|s| - |r|];
      r
  }

  function TrimEnd(s: string): (r: string)
    ensures |r| <= |s| && r == s[..|r|]
    ensures AllSpace(s[|r|..])
    ensures r == [] || !IsSpace(r[|r| - 1])
  {
    if s == [] || !IsSpace(s[|s| - 1]) then s
    else
      var r := TrimEnd(s[..|s| - 1]);
      assert s[..|s| - 1][|r|..] == s[|r|..|s| - 1];
      r
  }

  /** A string that neither starts nor ends with white space. */
  predicate IsTrimmed(s: string) {
    s == [] || (!IsSpace(s[0]) && !IsSpace(s[|s| - 1]))
  }

  /** `String.prototype.trim`: the longest slice of `s` that neither starts nor ends with white space. */
  function Trim(s: string): (r: string)
    ensures |r| <= |s|
    ensures IsTrimmed(r)
    ensures r == [] <==> AllSpace(s)
  {
    var t := TrimStart(s);
    var r := TrimEnd(t);
    assert r != [] ==> r[0] == t[0];
    assert t != [] ==> t[0] == s[|s| - |t|];
    assert r == [] ==> AllSpace(s) by {
      if r == [] {
        assert t == [];
        forall i | 0 <= i < |s| ensures IsSpace(s[i]) {
          assert s[i] == s[..|s| - |t|][i];
        }
      }
    }
    r
  }

  /** `trim` returns a slice of its input: what lies before the slice and
      what lies after it is all white space. */
  lemma TrimSlice(s: string) returns (a: nat)
    ensures a + |Trim(s)| <= |s| && Trim(s) == s[a..a + |Trim(s)|]
    ensures AllSpace(s[..a]) && AllSpace(s[a + |Trim(s)|..])
  {
    var t := TrimStart(s);
    a := |s| - |t|;
    var r := TrimEnd(t);
    assert Trim(s) == r;
    assert t == s[a..];
    assert r == t[..|r|];
    assert s[a + |r|..] == t[|r|..];
  }

  lemma {:induction false} TrimStartDropsLeadingSpace(w: string, s: string)
    requires AllSpace(w)
    ensures TrimStart(w + s) == TrimStart(s)
  {
    if w != [] {
      assert (w + s)[0] == w[0];
      assert (w + s)[1..] == w[1..] + s;
      assert IsSpace((w + s)[0]);
      assert TrimStart(w + s) == TrimStart((w + s)[1..]);
      TrimStartDropsLeadingSpace(w[1..], s);
      assert TrimStart(w[1..] + s) == TrimStart(s);
    } else {
      assert w + s == s;
    }
  }

  /** Leading white space never reaches the result of `trim`. */
  lemma TrimDropsLeadingSpace(w: string, s: string)
    requires AllSpace(w)
    ensures Trim(w + s) == Trim(s)
  {
    TrimStartDropsLeadingSpace(w, s);
  }

  /** `text.includes(pat)`, computed by scanning. */
  predicate Contains(text: string, pat: string)
    decreases |text|
  {
    (|pat| <= |text| && text[..|pat|] == pat) || (text != [] && Contains(text[1..], pat))
  }

  predicate OccursAt(text: string, pat: string, i: int) {
    0 <= i <= |text| - |pat| && text[i..i + |pat|] == pat
  }

  /** The scan finds exactly the occurrences of `pat` in `text`. */
  lemma {:induction false} ContainsIff(text: string, pat: string)
    ensures Contains(text, pat) <==> exists i :: OccursAt(text, pat, i)
    decreases |text|
  {
    if |pat| <= |text| && text[..|pat|] == pat {
      assert OccursAt(text, pat, 0);
    } else if text == [] {
      assert forall i :: !OccursAt(text, pat, i);
    } else {
      ContainsIff(text[1..], pat);
      assert |pat| <= |text| ==> text[0..|pat|] == text[..|pat|];
      assert !OccursAt(text, pat, 0);
      forall i | OccursAt(text[1..], pat, i) ensures OccursAt(text, pat, i + 1) {
        assert text[i + 1..i + 1 + |pat|] == text[1..][i..i + |pat|];
      }
      forall i | OccursAt(text, pat, i) ensures OccursAt(text[1..], pat, i - 1) {
        assert i >= 1;
        assert text[1..][i - 1..i - 1 + |pat|] == text[i..i + |pat|];
      }
    }
  }

  // ---------------------------------------------------------------------
  // Numbers as digit strings

  function Pow(b: nat, k: nat): (r: nat)
    ensures b >= 1 ==> r >= 1
  {
    if k == 0 then 1 else b * Pow(b, k - 1)
  }

  /** Digit `d` as `toString(radix)` writes it: lower-case letters above 9. */
  function DigitChar(d: nat): (c: char)
    requires d < 16
    ensures IsHexDigit(c) && !('A' <= c <= 'Z')
  {
    if d < 10 then ('0' as int + d) as char else ('a' as int + d - 10) as char
  }

  /** The value `parseInt` gives a single digit, in either case. */
  function DigitValue(c: char): (d: nat)
    ensures d < 16
  {
    if IsDigit(c) then c as nat - '0' as nat
    else if 'a' <= c <= 'f' then c as nat - 'a' as nat + 10
    else if 'A' <= c <= 'F' then c as nat - 'A' as nat + 10
    else 0
  }

  lemma DigitRoundTrip(d: nat)
    requires d < 16
    ensures DigitValue(DigitChar(d)) == d
  {
  }

  predicate IsRadixDigit(c: char, base: nat) {
    IsHexDigit(c) && !('A' <= c <= 'Z') && DigitValue(c) < base
  }

  /** `n.toString(base)` for a non-negative integer: no sign, no leading zero. */
  function ToRadix(n: nat, base: nat): (r: string)
    requires 2 <= base <= 16
    ensures |r| >= 1
    ensures forall i :: 0 <= i < |r| ==> IsRadixDigit(r[i], base)
    ensures |r| > 1 ==> r[0] != '0'
    decreases n
  {
    if n < base then [DigitChar(n)]
    else
      DivModBounds(n, base);
      ToRadix(n / base, base) + [DigitChar(n % base)]
  }

  lemma DivModBounds(n: nat, base: nat)
    requires 2 <= base <= n
    ensures 1 <= n / base < n && n % base < base
    ensures n == n / base * base + n % base
  {
  }

  /** Positional value of a digit string, most significant digit first. */
  function FromRadix(s: string, base: nat): nat
  {
    if s == [] then 0 else FromRadix(s[..|s| - 1], base) * base + DigitValue(s[|s| - 1])
  }

  /** Reading back what `ToRadix` wrote gives the number again. */
  lemma {:induction false} FromToRadix(n: nat, base: nat)
    requires 2 <= base <= 16
    ensures FromRadix(ToRadix(n, base), base) == n
    decreases n
  {
    var r := ToRadix(n, base);
    if n >= base {
      DivModBounds(n, base);
      FromToRadix(n / base, base);
      assert r[..|r| - 1] == ToRadix(n / base, base);
      DigitRoundTrip(n % base);
      assert DigitValue(r[|r| - 1]) == n % base;
    } else {
      DigitRoundTrip(n);
    }
  }

  function Repeat(c: char, k: nat): (r: string)
    ensures |r| == k && forall i :: 0 <= i < k ==> r[i] == c
  {
    if k == 0 then [] else [c] + Repeat(c, k - 1)
  }

  /** Leading zeros do not change a digit string's value. */
  lemma {:induction false} LeadingZeros(k: nat, s: string, base: nat)
    ensures FromRadix(Repeat('0', k) + s, base) == FromRadix(s, base)
    decreases |s|
  {
    var z := Repeat('0', k);
    if s == [] {
      assert z + s == z;
      ZerosAreZero(k, base);
    } else {
      assert (z + s)[..|z + s| - 1] == z + s[..|s| - 1];
      LeadingZeros(k, s[..|s| - 1], base);
    }
  }

  lemma {:induction false} ZerosAreZero(k: nat, base: nat)
    ensures FromRadix(Repeat('0', k), base) == 0
  {
    if k > 0 {
      var z := Repeat('0', k);
      assert z[..k - 1] == Repeat('0', k - 1);
      ZerosAreZero(k - 1, base);
    }
  }

  /** `s.padStart(len, c)` with a one-character pad string. */
  function PadStart(s: string, len: nat, c: char): (r: string)
    ensures |s| >= len ==> r == s
    ensures |s| < len ==> |r| == len && r == Repeat(c, len - |s|) + s
  {
    if |s| >= len then s else Repeat(c, len - |s|) + s
  }

  lemma MulMonotone(a: nat, c: nat, b: nat)
    requires a <= c
    ensures a * b <= c * b
  {
  }

  /** A number below `base^k` takes at most `k` digits. */
  lemma {:induction false} RadixLength(n: nat, base: nat, k: nat)
    requires 2 <= base <= 16 && k >= 1 && n < Pow(base, k)
    ensures |ToRadix(n, base)| <= k
    decreases n
  {
    if n >= base {
      var p := Pow(base, k - 1);
      assert k != 1 by { assert Pow(base, 1) == base; }
      assert Pow(base, k) == base * p;
      DivModBounds(n, base);
      assert n / base < p by {
        if n / base >= p {
          MulMonotone(p, n / base, base);
          assert false;
        }
      }
      RadixLength(n / base, base, k - 1);
    }
  }

  lemma PaddedIsRadix(digits: string, width: nat, base: nat)
    requires forall i :: 0 <= i < |digits| ==> IsRadixDigit(digits[i], base)
    requires base >= 1
    ensures var r := PadStart(digits, width, '0');
      forall i :: 0 <= i < |r| ==> IsRadixDigit(r[i], base)
  {
    var r := PadStart(digits, width, '0');
    forall i | 0 <= i < |r| ensures IsRadixDigit(r[i], base) {
      if |digits| < width && i >= width - |digits| {
        assert r[i] == digits[i - (width - |digits|)];
      }
    }
  }

  /** `n.toString(base).padStart(width, "0")` for a number of at most `width` digits. */
  function PaddedDigits(n: nat, base: nat, width: nat): (r: string)
    requires 2 <= base <= 16 && width >= 1 && n < Pow(base, width)
    ensures |r| == width
    ensures forall i :: 0 <= i < |r| ==> IsRadixDigit(r[i], base)
    ensures FromRadix(r, base) == n
  {
    var digits := ToRadix(n, base);
    RadixLength(n, base, width);
    FromToRadix(n, base);
    LeadingZeros(width - |digits|, digits, base);
    PaddedIsRadix(digits, width, base);
    PadStart(digits, width, '0')
  }

  /** Padding to a common width keeps distinct numbers distinct. */
  lemma PaddedDigitsInjective(m: nat, n: nat, base: nat, width: nat)
    requires 2 <= base <= 16 && width >= 1 && m < Pow(base, width) && n < Pow(base, width)
    requires PaddedDigits(m, base, width) == PaddedDigits(n, base, width)
    ensures m == n
  {
  }

  /** Decimal rendering, as `String(n)` or a template literal writes a non-negative integer. */
  function Decimal(n: nat): (r: string)
    ensures |r| >= 1 && forall i :: 0 <= i < |r| ==> IsDigit(r[i])
    ensures FromRadix(r, 10) == n
  {
    var r := ToRadix(n, 10);
    FromToRadix(n, 10);
    r
  }

  /** Two strings each free of `sep`, joined by `sep`, can be split apart again. */
  lemma {:induction false} JoinedAtSeparator(a: string, b: string, c: string, d: string, sep: char)
    requires sep !in a && sep !in c
    requires a + [sep] + b == c + [sep] + d
    ensures a == c && b == d
  {
    var s := a + [sep] + b;
    assert s == c + [sep] + d;
    assert |a| == |c| by {
      assert forall i :: 0 <= i < |a| ==> s[i] == a[i] && a[i] in a;
      assert forall i :: 0 <= i < |c| ==> s[i] == c[i] && c[i] in c;
      assert s[|a|] == sep && s[|c|] == sep;
    }
    assert a == s[..|a|] == c;
    assert b == s[|a| + 1..] == d;
  }

  // ---------------------------------------------------------------------
  // Scanning helpers

  predicate NoTerminator(s: string) {
    forall i :: 0 <= i < |s| ==> !IsLineTerminator(s[i])
  }

  /** The end of the run of white space that starts at `i`. */
  function SpaceEnd(s: string, i: nat): (e: nat)
    requires i <= |s|
    ensures i <= e <= |s|
    ensures forall k :: i <= k < e ==> IsSpace(s[k])
    ensures e < |s| ==> !IsSpace(s[e])
    decreases |s| - i
  {
    if i == |s| || !IsSpace(s[i]) then i else SpaceEnd(s, i + 1)
  }

  /** The end of the run of decimal digits that starts at `i`. */
  function DigitEnd(s: string, i: nat): (e: nat)
    requires i <= |s|
    ensures i <= e <= |s|
    ensures forall k :: i <= k < e ==> IsDigit(s[k])
    ensures e < |s| ==> !IsDigit(s[e])
    decreases |s| - i
  {
    if i == |s| || !IsDigit(s[i]) then i else DigitEnd(s, i + 1)
  }

  /** A digit run ending where the text says it ends. */
  lemma DigitEndIs(s: string, i: nat, j: nat)
    requires i <= j <= |s|
    requires forall k :: i <= k < j ==> IsDigit(s[k])
    requires j == |s| || !IsDigit(s[j])
    ensures DigitEnd(s, i) == j
  {
  }

  /** The index of the first line terminator at or after `i`, or `|s|`. */
  function LineEnd(s: string, i: nat): (e: nat)
    requires i <= |s|
    ensures i <= e <= |s|
    ensures NoTerminator(s[i..e])
    ensures e < |s| ==> IsLineTerminator(s[e])
    decreases |s| - i
  {
    if i == |s| || IsLineTerminator(s[i]) then i
    else
      var e := LineEnd(s, i + 1);
      assert s[i..e] == [s[i]] + s[i + 1..e];
      e
  }

  /** `toLowerCase` on the ASCII letters, which is all the identifiers here hold. */
  function LowerChar(c: char): (r: char)
    ensures 'A' <= c <= 'Z' ==> r as int == c as int + 32
    ensures !('A' <= c <= 'Z') ==> r == c
  {
    if 'A' <= c <= 'Z' then (c as int + 32) as char else c
  }

  function Lower(s: string): (r: string)
    ensures |r| == |s| && forall i :: 0 <= i < |s| ==> r[i] == LowerChar(s[i])
  {
    seq(|s|, i requires 0 <= i < |s| => LowerChar(s[i]))
  }

  // ---------------------------------------------------------------------
  // Splitting

  /** `parts.join(sep)`. */
  function JoinWith(parts: seq<string>, sep: char): string
    requires |parts| >= 1
  {
    if |parts| == 1 then parts[0] else parts[0] + [sep] + JoinWith(parts[1..], sep)
  }

  /** `s.split(sep)`: the pieces between separators, empty ones included. */
  function SplitOn(s: string, sep: char): (r: seq<string>)
    ensures |r| >= 1
    ensures forall k :: 0 <= k < |r| ==> sep !in r[k]
    decreases |s|
  {
    if s == [] then [[]]
    else
      var rest := SplitOn(s[1..], sep);
      if s[0] == sep then [[]] + rest
      else
        var r := [[s[0]] + rest[0]] + rest[1..];
        assert forall k :: 1 <= k < |r| ==> r[k] == rest[k];
        r
  }

  /** Joining the pieces with the separator gives the text back. */
  lemma {:induction false} SplitJoin(s: string, sep: char)
    ensures JoinWith(SplitOn(s, sep), sep) == s
    decreases |s|
  {
    if s != [] {
      var rest := SplitOn(s[1..], sep);
      SplitJoin(s[1..], sep);
      var r := SplitOn(s, sep);
      if s[0] == sep {
        assert r[1..] == rest;
      } else {
        assert r[1..] == rest[1..];
        if |rest| > 1 {
          assert JoinWith(rest, sep) == rest[0] + [sep] + JoinWith(rest[1..], sep);
        }
      }
      assert s == [s[0]] + s[1..];
    }
  }

  /** There is one piece more than there are separators. */
  lemma {:induction false} SplitCount(s: string, sep: char)
    ensures |SplitOn(s, sep)| == multiset(s)[sep] + 1
    decreases |s|
  {
    if s != [] {
      SplitCount(s[1..], sep);
      assert s == [s[0]] + s[1..];
      assert multiset(s) == multiset([s[0]]) + multiset(s[1..]);
    }
  }

  /** Where the last line of `s` begins: just after its last line terminator. */
  function LastLineStart(s: string): (t: nat)
    ensures t <= |s| && NoTerminator(s[t..])
    ensures t > 0 ==> IsLineTerminator(s[t - 1])
  {
    if s == [] then 0
    else if IsLineTerminator(s[|s| - 1]) then |s|
    else
      var t := LastLineStart(s[..|s| - 1]);
      assert s[t..] == s[..|s| - 1][t..] + [s[|s| - 1]];
      t
  }

  /** A string that `trim` leaves alone. */
  lemma TrimmedIsFixed(r: string)
    requires IsTrimmed(r)
    ensures Trim(r) == r
  {
  }
}
