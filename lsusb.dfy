/** Reading a USB device's manufacturer and product strings out of the
    verbose listing of `lsusb`, as `getDeviceStringsFromLsusb` does with the
    multiline patterns `^\s*iManufacturer\s+\d+\s+(.+)$` and
    `^\s*iProduct\s+\d+\s+(.+)$`, each capture trimmed.

    The patterns are modelled as written, and also with white space that
    stays on its line, which is what the patterns are for: `\s` also matches
    a line break, so a descriptor line whose string index is 0 and carries no
    string picks up the whole next line instead. */
module Lsusb {
  import opened Wrappers
  import opened Text

  /** The manufacturer and product strings of a device, when it has them. */
  datatype DeviceStrings = DeviceStrings(manufacturer: Option<string>, product: Option<string>)

  const NoStrings := DeviceStrings(None, None)

  /** The white space the pattern accepts around the keyword and the index:
      `\s`, which crosses line breaks, or white space that stays on its line. */
  datatype Blank = AnySpace | InlineSpace

  predicate IsBlank(b: Blank, c: char) {
    match b
    case AnySpace => IsSpace(c)
    case InlineSpace => IsInlineSpace(c)
  }

  /** The end of the run of blanks that starts at `i`. */
  function BlankEnd(b: Blank, s: string, i: nat): (e: nat)
    requires i <= |s|
    ensures i <= e <= |s|
    ensures forall k :: i <= k < e ==> IsBlank(b, s[k])
    ensures e < |s| ==> !IsBlank(b, s[e])
    decreases |s| - i
  {
    if i == |s| || !IsBlank(b, s[i]) then i else BlankEnd(b, s, i + 1)
  }

  /** The last position in `[lo, hi)` that holds no line terminator. */
  function LastNonTerminator(s: string, lo: nat, hi: nat): (r: Option<nat>)
    requires lo <= hi <= |s|
    ensures r.Some? ==> lo <= r.value < hi && !IsLineTerminator(s[r.value])
    ensures r.Some? ==> forall k :: r.value < k < hi ==> IsLineTerminator(s[k])
    ensures r.None? ==> forall k :: lo <= k < hi ==> IsLineTerminator(s[k])
    decreases hi - lo
  {
    if hi == lo then None
    else if !IsLineTerminator(s[hi - 1]) then Some(hi - 1)
    else LastNonTerminator(s, lo, hi - 1)
  }

  /** Where `^B*KEY` ends when the match starts at the line start `p`. The
      keyword starts with a letter, so the blanks before it are taken whole. */
  function KeyEnd(b: Blank, s: string, key: string, p: nat): (r: Option<nat>)
    requires p <= |s|
    ensures r.Some? ==> r.value <= |s|
  {
    var a := BlankEnd(b, s, p);
    if a + |key| <= |s| && s[a..a + |key|] == key then Some(a + |key|) else None
  }

  /** Where `B+\d+` ends when it starts at `k`. Digits are not blanks and
      blanks are not digits, so both runs are taken whole. */
  function IndexEnd(b: Blank, s: string, k: nat): (r: Option<nat>)
    requires k <= |s|
    ensures r.Some? ==> k < r.value <= |s|
  {
    var c := BlankEnd(b, s, k);
    if c == k then None
    else
      var d := DigitEnd(s, c);
      if d == c then None else Some(d)
  }

  /** Where the capture of `B+(.+)$` begins, given the blanks `[d, e)` that
      start it: these blanks give back characters, one at a time from the
      right, until the capture can start on a character that `.` accepts. */
  function CaptureStart(s: string, d: nat, e: nat): (r: Option<nat>)
    requires d < e <= |s|
    ensures r.Some? ==> d < r.value <= e && r.value < |s|
  {
    if e < |s| && !IsLineTerminator(s[e]) then Some(e) else LastNonTerminator(s, d + 1, e)
  }

  /** The capture of `B+(.+)$` when it starts at `d`; `(.+)` runs to the end
      of its line, where `$` holds. */
  function CaptureAt(b: Blank, s: string, d: nat): Option<string>
    requires d <= |s|
  {
    var e := BlankEnd(b, s, d);
    if e == d then None
    else
      match CaptureStart(s, d, e)
      case None => None
      case Some(j) => Some(s[j..LineEnd(s, j)])
  }

  /** The capture of `^B*KEY B+\d+B+(.+)$` when the match starts at the line
      start `p`. */
  function TryAt(b: Blank, s: string, key: string, p: nat): Option<string>
    requires p <= |s|
  {
    match KeyEnd(b, s, key, p)
    case None => None
    case Some(k) =>
      match IndexEnd(b, s, k)
      case None => None
      case Some(d) => CaptureAt(b, s, d)
  }

  /** `s.match(pattern)` under the `m` flag: the leftmost line start where
      the pattern matches gives the capture. A match from a line start sees
      only the text from there on, so the search goes on in the text after
      the next line terminator. */
  function Scan(b: Blank, s: string, key: string): Option<string>
    decreases |s|
  {
    match TryAt(b, s, key, 0)
    case Some(v) => Some(v)
    case None =>
      var n := LineEnd(s, 0);
      if n == |s| then None else Scan(b, s[n + 1..], key)
  }

  /** The trimmed capture, or `null` when the pattern does not match. */
  function Field(b: Blank, s: string, key: string): Option<string> {
    match Scan(b, s, key)
    case None => None
    case Some(v) => Some(Trim(v))
  }

  /** `getDeviceStringsFromLsusb` as written; `listing` is `None` when
      `execSync` throws (no such device, no permission), and then both
      strings are `null`. */
  function DeviceStringsAsWritten(listing: Option<string>): DeviceStrings {
    match listing
    case None => NoStrings
    case Some(s) => DeviceStrings(Field(AnySpace, s, "iManufacturer"), Field(AnySpace, s, "iProduct"))
  }

  /** `getDeviceStringsFromLsusb` with the white space kept on one line. */
  function DeviceStringsFromLsusb(listing: Option<string>): (r: DeviceStrings)
    ensures listing.None? ==> r == NoStrings
    ensures r.manufacturer.Some? ==> IsTrimmed(r.manufacturer.value)
    ensures r.product.Some? ==> IsTrimmed(r.product.value)
  {
    match listing
    case None => NoStrings
    case Some(s) => DeviceStrings(Field(InlineSpace, s, "iManufacturer"), Field(InlineSpace, s, "iProduct"))
  }

  // ---------------------------------------------------------------------
  // The corrected patterns read one line at a time

  /** `l` is `s` up to the end of the line through `p`. */
  predicate LineThrough(s: string, l: string, p: nat) {
    && p <= |l| <= |s| && s[..|l|] == l
    && (|l| < |s| ==> IsLineTerminator(s[|l|]))
    && forall k :: p <= k < |l| ==> !IsLineTerminator(l[k])
  }

  lemma {:induction false} BlankEndInLine(s: string, l: string, p: nat, i: nat)
    requires LineThrough(s, l, p) && p <= i <= |l|
    ensures BlankEnd(InlineSpace, s, i) == BlankEnd(InlineSpace, l, i)
    decreases |l| - i
  {
    if i < |l| {
      assert s[i] == l[i];
      BlankEndInLine(s, l, p, i + 1);
    }
  }

  lemma {:induction false} DigitEndInLine(s: string, l: string, p: nat, i: nat)
    requires LineThrough(s, l, p) && p <= i <= |l|
    ensures DigitEnd(s, i) == DigitEnd(l, i)
    decreases |l| - i
  {
    if i < |l| {
      assert s[i] == l[i];
      DigitEndInLine(s, l, p, i + 1);
    }
  }

  lemma {:induction false} LineEndInLine(s: string, l: string, p: nat, i: nat)
    requires LineThrough(s, l, p) && p <= i <= |l|
    ensures LineEnd(s, i) == |l| && LineEnd(l, i) == |l|
    decreases |l| - i
  {
    if i < |l| {
      assert s[i] == l[i];
      assert !IsLineTerminator(l[i]);
      LineEndInLine(s, l, p, i + 1);
    }
  }

  lemma {:induction false} LastNonTerminatorInLine(s: string, l: string, p: nat, lo: nat, hi: nat)
    requires LineThrough(s, l, p) && p <= lo <= hi <= |l|
    ensures LastNonTerminator(s, lo, hi) == LastNonTerminator(l, lo, hi)
    decreases hi - lo
  {
    if lo < hi {
      assert s[hi - 1] == l[hi - 1];
      LastNonTerminatorInLine(s, l, p, lo, hi - 1);
    }
  }

  lemma KeyEndInLine(s: string, l: string, p: nat, key: string)
    requires LineThrough(s, l, p) && NoTerminator(key)
    ensures var r := KeyEnd(InlineSpace, s, key, p);
      r == KeyEnd(InlineSpace, l, key, p) && (r.Some? ==> r.value <= |l|)
  {
    var a := BlankEnd(InlineSpace, l, p);
    BlankEndInLine(s, l, p, p);
    assert BlankEnd(InlineSpace, s, p) == a;
    if a + |key| <= |l| {
      forall j | a <= j < a + |key| ensures s[j] == l[j] {
        assert s[..|l|][j] == s[j];
      }
      assert s[a..a + |key|] == l[a..a + |key|];
      assert KeyEnd(InlineSpace, s, key, p) == KeyEnd(InlineSpace, l, key, p);
    } else if a + |key| <= |s| {
      assert |l| < |s| && a <= |l|;
      assert s[a..a + |key|][|l| - a] == s[|l|];
      assert s[a..a + |key|] != key;
      assert KeyEnd(InlineSpace, s, key, p) == None;
    } else {
      assert KeyEnd(InlineSpace, s, key, p) == None;
    }
  }

  lemma IndexEndInLine(s: string, l: string, p: nat, k: nat)
    requires LineThrough(s, l, p) && p <= k <= |l|
    ensures var r := IndexEnd(InlineSpace, s, k);
      r == IndexEnd(InlineSpace, l, k) && (r.Some? ==> r.value <= |l|)
  {
    BlankEndInLine(s, l, p, k);
    DigitEndInLine(s, l, p, BlankEnd(InlineSpace, l, k));
  }

  lemma CaptureStartInLine(s: string, l: string, p: nat, d: nat, e: nat)
    requires LineThrough(s, l, p) && p <= d < e <= |l| && e == BlankEnd(InlineSpace, l, d)
    ensures CaptureStart(s, d, e) == CaptureStart(l, d, e)
  {
    if e < |l| {
      assert s[e] == l[e];
    }
    LastNonTerminatorInLine(s, l, p, d + 1, e);
  }

  lemma CaptureAtInLine(s: string, l: string, p: nat, d: nat)
    requires LineThrough(s, l, p) && p <= d <= |l|
    ensures CaptureAt(InlineSpace, s, d) == CaptureAt(InlineSpace, l, d)
  {
    BlankEndInLine(s, l, p, d);
    var e := BlankEnd(InlineSpace, l, d);
    if e > d {
      CaptureStartInLine(s, l, p, d, e);
      var j := CaptureStart(l, d, e);
      if j.Some? {
        LineEndInLine(s, l, p, j.value);
        assert s[j.value..|l|] == l[j.value..|l|];
      }
    }
  }

  /** With white space kept on its line, what the pattern captures at a line
      start depends on that line alone. */
  lemma OneLineAtATime(s: string, key: string, p: nat)
    requires p <= |s| && NoTerminator(key)
    ensures TryAt(InlineSpace, s, key, p) == TryAt(InlineSpace, s[..LineEnd(s, p)], key, p)
  {
    var l := s[..LineEnd(s, p)];
    assert LineThrough(s, l, p) by {
      forall k | p <= k < |l| ensures !IsLineTerminator(l[k]) {
        assert l[k] == s[p..LineEnd(s, p)][k - p];
      }
    }
    KeyEndInLine(s, l, p, key);
    var k := KeyEnd(InlineSpace, l, key, p);
    if k.Some? {
      IndexEndInLine(s, l, p, k.value);
      var d := IndexEnd(InlineSpace, l, k.value);
      if d.Some? {
        CaptureAtInLine(s, l, p, d.value);
      }
    }
  }

  // ---------------------------------------------------------------------
  // A whole listing

  /** What the corrected pattern captures on each of `lines` by itself. */
  function LineCaptures(lines: seq<string>, key: string): (caps: seq<Option<string>>)
    ensures |caps| == |lines|
    ensures forall j :: 0 <= j < |lines| ==> caps[j] == TryAt(InlineSpace, lines[j], key, 0)
  {
    seq(|lines|, j requires 0 <= j < |lines| => TryAt(InlineSpace, lines[j], key, 0))
  }

  lemma LineCapturesTail(lines: seq<string>, key: string)
    requires |lines| >= 1
    ensures LineCaptures(lines, key)[1..] == LineCaptures(lines[1..], key)
  {
    var caps := LineCaptures(lines, key);
    var tail := LineCaptures(lines[1..], key);
    forall j | 0 <= j < |tail| ensures caps[1..][j] == tail[j] {
      assert lines[1..][j] == lines[j + 1];
    }
  }

  /** The index of the first capture there is. */
  function FirstSome(caps: seq<Option<string>>): (r: Option<nat>)
    ensures r.None? <==> forall j :: 0 <= j < |caps| ==> caps[j].None?
    ensures r.Some? ==> r.value < |caps| && caps[r.value].Some?
    ensures r.Some? ==> forall j :: 0 <= j < r.value ==> caps[j].None?
  {
    if caps == [] then None
    else if caps[0].Some? then Some(0)
    else
      var r := FirstSome(caps[1..]);
      assert forall j :: 1 <= j < |caps| ==> caps[j] == caps[1..][j - 1];
      match r
      case None => None
      case Some(j) => Some(j + 1)
  }

  /** Reading a listing line by line: the trimmed capture of the first line
      the pattern matches by itself, or `null` when it matches none. */
  function FirstDescriptor(lines: seq<string>, key: string): (r: Option<string>)
    ensures r.None? <==> forall j :: 0 <= j < |lines| ==> TryAt(InlineSpace, lines[j], key, 0).None?
  {
    var caps := LineCaptures(lines, key);
    match FirstSome(caps)
    case None => None
    case Some(j) => Some(Trim(caps[j].value))
  }

  /** Over a listing of lines joined by line breaks, the scan finds the
      capture of the first line that matches by itself, and nothing when no
      line does. */
  lemma {:induction false} ScanLines(lines: seq<string>, key: string)
    requires |lines| >= 1 && NoTerminator(key)
    requires forall j :: 0 <= j < |lines| ==> NoTerminator(lines[j])
    ensures var caps := LineCaptures(lines, key); var m := FirstSome(caps);
      Scan(InlineSpace, JoinWith(lines, '\n'), key) == if m.None? then None else caps[m.value]
  {
    var s := JoinWith(lines, '\n');
    var l := lines[0];
    var caps := LineCaptures(lines, key);
    OneLineAtATime(s, key, 0);
    assert caps[0] == TryAt(InlineSpace, l, key, 0);
    if |lines| == 1 {
      LineEndNone(s, 0);
      assert s[..LineEnd(s, 0)] == l;
    } else {
      var rest := JoinWith(lines[1..], '\n');
      assert s == l + ['\n'] + rest;
      assert s[|l|] == '\n';
      LineEndIs(s, 0, |l|);
      assert s[..LineEnd(s, 0)] == l;
      if caps[0].None? {
        assert s[|l| + 1..] == rest;
        assert forall j :: 0 <= j < |lines| - 1 ==> lines[1..][j] == lines[j + 1];
        ScanLines(lines[1..], key);
        LineCapturesTail(lines, key);
      }
    }
  }

  /** The corrected scraper, over a listing of lines: each string is the
      trimmed capture of the first descriptor line for it, and `null` exactly
      when no line is one. */
  lemma DeviceStringsReadLineByLine(lines: seq<string>)
    requires |lines| >= 1 && forall j :: 0 <= j < |lines| ==> NoTerminator(lines[j])
    ensures DeviceStringsFromLsusb(Some(JoinWith(lines, '\n')))
         == DeviceStrings(FirstDescriptor(lines, "iManufacturer"), FirstDescriptor(lines, "iProduct"))
  {
    KeysOnOneLine();
    FieldOfLines(lines, "iManufacturer");
    FieldOfLines(lines, "iProduct");
  }

  lemma KeysOnOneLine()
    ensures NoTerminator("iManufacturer") && NoTerminator("iProduct")
  {
  }

  lemma FieldOfLines(lines: seq<string>, key: string)
    requires |lines| >= 1 && NoTerminator(key)
    requires forall j :: 0 <= j < |lines| ==> NoTerminator(lines[j])
    ensures Field(InlineSpace, JoinWith(lines, '\n'), key) == FirstDescriptor(lines, key)
  {
    ScanLines(lines, key);
  }

  /** The pieces of a descriptor line as lsusb writes it: indentation, the
      keyword, the string index and the string. */
  predicate DescriptorPieces(indent: string, key: string, gap: string, index: string, gap2: string, value: string) {
    && (forall i :: 0 <= i < |indent| ==> IsInlineSpace(indent[i]))
    && key != [] && !IsInlineSpace(key[0])
    && gap != [] && (forall i :: 0 <= i < |gap| ==> IsInlineSpace(gap[i]))
    && index != [] && (forall i :: 0 <= i < |index| ==> IsDigit(index[i]))
    && gap2 != [] && (forall i :: 0 <= i < |gap2| ==> IsInlineSpace(gap2[i]))
    && value != [] && !IsSpace(value[0]) && NoTerminator(value)
  }

  /** Such a line gives its string. */
  lemma DescriptorLineRead(indent: string, key: string, gap: string, index: string, gap2: string, value: string)
    requires DescriptorPieces(indent, key, gap, index, gap2, value)
    ensures TryAt(InlineSpace, indent + key + gap + index + gap2 + value, key, 0) == Some(value)
  {
    DescriptorKey(indent, key, gap, index, gap2, value);
    DescriptorIndex(indent, key, gap, index, gap2, value);
    DescriptorCapture(indent, key, gap, index, gap2, value);
    TryAtSteps(InlineSpace, indent + key + gap + index + gap2 + value, key, 0,
               |indent| + |key|, |indent| + |key| + |gap| + |index|);
  }

  /** A line cut into its pieces at `a` (the keyword's start), `c` (the
      index's start), `d` (the index's end) and `e` (the string's start). */
  predicate DescriptorCut(l: string, key: string, value: string, a: nat, c: nat, d: nat, e: nat) {
    && a + |key| <= c <= d <= e <= |l| && l[e..] == value
    && DescriptorPieces(l[..a], key, l[a + |key|..c], l[c..d], l[d..e], value)
    && l == l[..a] + key + l[a + |key|..c] + l[c..d] + l[d..e] + value
  }

  /** Conversely, a line the corrected pattern matches is a descriptor line
      with that string, unless only blanks follow the index: then the capture
      is the last of those blanks, which `trim` empties. */
  lemma DescriptorLineShape(l: string, key: string)
    requires NoTerminator(l) && key != []
    requires TryAt(InlineSpace, l, key, 0).Some?
    ensures var v := TryAt(InlineSpace, l, key, 0).value;
      || (exists a, c, d, e :: DescriptorCut(l, key, v, a, c, d, e))
      || (|v| == 1 && IsInlineSpace(v[0]) && Trim(v) == [])
  {
    var v := TryAt(InlineSpace, l, key, 0).value;
    var a := BlankEnd(InlineSpace, l, 0);
    var k := a + |key|;
    assert KeyEnd(InlineSpace, l, key, 0) == Some(k);
    var c := BlankEnd(InlineSpace, l, k);
    var d := DigitEnd(l, c);
    assert IndexEnd(InlineSpace, l, k) == Some(d);
    assert CaptureAt(InlineSpace, l, d) == Some(v);
    var e := BlankEnd(InlineSpace, l, d);
    CapturedString(l, d, e, v);
    if e < |l| {
      assert l[a..k] == key;
      CutFromParts(l, key, a, c, d, e);
    }
  }

  /** The capture after the index: the rest of the line from the first
      character that is not a blank, or else the last blank. */
  lemma CapturedString(l: string, d: nat, e: nat, v: string)
    requires NoTerminator(l) && d <= |l| && e == BlankEnd(InlineSpace, l, d)
    requires CaptureAt(InlineSpace, l, d) == Some(v)
    ensures d < e
    ensures e < |l| ==> v == l[e..]
    ensures e == |l| ==> |v| == 1 && IsInlineSpace(v[0]) && Trim(v) == []
  {
    if e < |l| {
      assert CaptureStart(l, d, e) == Some(e);
      LineEndNone(l, e);
    } else {
      assert CaptureStart(l, d, e) == Some(e - 1);
      LineEndNone(l, e - 1);
      assert v == l[e - 1..];
      assert v[0] == l[e - 1];
    }
  }

  lemma CutFromParts(l: string, key: string, a: nat, c: nat, d: nat, e: nat)
    requires NoTerminator(l) && key != []
    requires a + |key| < c < d < e < |l|
    requires forall i :: 0 <= i < a ==> IsInlineSpace(l[i])
    requires l[a..a + |key|] == key && !IsInlineSpace(l[a])
    requires forall i :: a + |key| <= i < c ==> IsInlineSpace(l[i])
    requires forall i :: c <= i < d ==> IsDigit(l[i])
    requires forall i :: d <= i < e ==> IsInlineSpace(l[i])
    requires !IsInlineSpace(l[e])
    ensures DescriptorCut(l, key, l[e..], a, c, d, e)
  {
    var k := a + |key|;
    assert key[0] == l[a];
    assert l == l[..a] + l[a..k] + l[k..c] + l[c..d] + l[d..e] + l[e..];
    assert l[e..][0] == l[e];
  }

  /** The match at a line start, assembled from its three steps. */
  lemma TryAtSteps(b: Blank, s: string, key: string, p: nat, k: nat, d: nat)
    requires p <= |s| && k <= |s| && d <= |s|
    requires KeyEnd(b, s, key, p) == Some(k) && IndexEnd(b, s, k) == Some(d)
    ensures TryAt(b, s, key, p) == CaptureAt(b, s, d)
  {
  }

  lemma DescriptorKey(indent: string, key: string, gap: string, index: string, gap2: string, value: string)
    requires DescriptorPieces(indent, key, gap, index, gap2, value)
    ensures KeyEnd(InlineSpace, indent + key + gap + index + gap2 + value, key, 0) == Some(|indent| + |key|)
  {
    var l := indent + key + gap + index + gap2 + value;
    assert l[|indent|] == key[0];
    BlankEndIs(l, 0, |indent|);
    assert l[|indent|..|indent| + |key|] == key;
  }

  lemma DescriptorIndex(indent: string, key: string, gap: string, index: string, gap2: string, value: string)
    requires DescriptorPieces(indent, key, gap, index, gap2, value)
    ensures IndexEnd(InlineSpace, indent + key + gap + index + gap2 + value, |indent| + |key|)
         == Some(|indent| + |key| + |gap| + |index|)
  {
    var l := indent + key + gap + index + gap2 + value;
    var k := |indent| + |key|;
    var c := k + |gap|;
    var d := c + |index|;
    assert l[c] == index[0];
    BlankEndIs(l, k, c);
    assert l[d] == gap2[0];
    DigitEndIs(l, c, d);
  }

  lemma DescriptorCapture(indent: string, key: string, gap: string, index: string, gap2: string, value: string)
    requires DescriptorPieces(indent, key, gap, index, gap2, value)
    ensures CaptureAt(InlineSpace, indent + key + gap + index + gap2 + value, |indent| + |key| + |gap| + |index|)
         == Some(value)
  {
    var l := indent + key + gap + index + gap2 + value;
    var d := |indent| + |key| + |gap| + |index|;
    var e := d + |gap2|;
    assert l[e] == value[0];
    assert !IsLineTerminator(value[0]);
    BlankEndIs(l, d, e);
    assert CaptureStart(l, d, e) == Some(e);
    assert l[e..] == value;
    LineEndNone(l, e);
    assert l[e..LineEnd(l, e)] == value;
  }

  lemma BlankEndIs(s: string, i: nat, j: nat)
    requires i <= j <= |s|
    requires forall k :: i <= k < j ==> IsInlineSpace(s[k])
    requires j == |s| || !IsInlineSpace(s[j])
    ensures BlankEnd(InlineSpace, s, i) == j
  {
  }

  lemma LineEndIs(s: string, i: nat, j: nat)
    requires i <= j <= |s|
    requires forall k :: i <= k < j ==> !IsLineTerminator(s[k])
    requires j == |s| || IsLineTerminator(s[j])
    ensures LineEnd(s, i) == j
    decreases j - i
  {
    if i < j {
      LineEndIs(s, i + 1, j);
    }
  }

  lemma LineEndNone(s: string, i: nat)
    requires i <= |s| && NoTerminator(s[i..])
    ensures LineEnd(s, i) == |s|
  {
  }

  // ---------------------------------------------------------------------
  // The discrepancy

  /** lsusb's listing of a device that has a product string but no
      manufacturer string: the manufacturer's string index is 0 and nothing
      follows it. */
  const NoManufacturerListing := "iManufacturer 0\niProduct 2 X"

  /** The characters of that listing the patterns look at. */
  predicate ListingShape(s: string) {
    && |s| == 28
    && s[0] == 'i' && s[1] == 'M' && s[0..13] == "iManufacturer"
    && s[13] == ' ' && s[14] == '0' && s[15] == '\n'
    && s[16] == 'i' && s[16..24] == "iProduct"
    && s[24] == ' ' && s[25] == '2' && s[26] == ' ' && s[27] == 'X'
  }

  /** The listing has that shape; its second line is `iProduct 2 X` and the product string `X`. */
  lemma ListingHasShape(s: string)
    requires s == NoManufacturerListing
    ensures ListingShape(s)
    ensures s[16..] == "iProduct 2 X" && s[27..] == "X"
  {
  }

  /** On such a listing the pattern as written reads the whole second line as the
      manufacturer; it does not read one line at a time. The corrected pattern finds
      no manufacturer and still finds the product. */
  lemma ManufacturerTakenFromNextLine(s: string)
    requires ListingShape(s)
    ensures DeviceStringsAsWritten(Some(s)).manufacturer == Some(s[16..])
    ensures TryAt(AnySpace, s, "iManufacturer", 0) != TryAt(AnySpace, s[..LineEnd(s, 0)], "iManufacturer", 0)
    ensures DeviceStringsFromLsusb(Some(s)) == DeviceStrings(None, Some(s[27..]))
  {
    AsWrittenReadsNextLine(s);
    AsWrittenNotLineLocal(s);
    CorrectedManufacturer(s);
    CorrectedProduct(s);
  }

  lemma AsWrittenReadsNextLine(s: string)
    requires ListingShape(s)
    ensures TryAt(AnySpace, s, "iManufacturer", 0) == Some(s[16..])
    ensures Field(AnySpace, s, "iManufacturer") == Some(s[16..])
  {
    AsWrittenKey(s);
    AsWrittenIndex(s);
    AsWrittenCapture(s);
    TrimmedIsFixed(s[16..]);
  }

  lemma AsWrittenNotLineLocal(s: string)
    requires ListingShape(s)
    ensures TryAt(AnySpace, s, "iManufacturer", 0) != TryAt(AnySpace, s[..LineEnd(s, 0)], "iManufacturer", 0)
  {
    AsWrittenReadsNextLine(s);
    FirstLineEnd(s);
    FirstLineShape(s);
    AsWrittenFirstLineAlone(s[..15]);
  }

  lemma FirstLineShape(s: string)
    requires ListingShape(s)
    ensures var t := s[..15];
      |t| == 15 && t[0] == 'i' && t[0..13] == "iManufacturer" && t[13] == ' ' && t[14] == '0'
  {
    var t := s[..15];
    assert t[0..13] == s[0..13];
  }

  lemma AsWrittenKey(s: string)
    requires ListingShape(s)
    ensures KeyEnd(AnySpace, s, "iManufacturer", 0) == Some(13)
  {
    assert BlankEnd(AnySpace, s, 0) == 0;
  }

  lemma AsWrittenIndex(s: string)
    requires ListingShape(s)
    ensures IndexEnd(AnySpace, s, 13) == Some(15)
  {
    assert BlankEnd(AnySpace, s, 14) == 14;
    assert BlankEnd(AnySpace, s, 13) == 14;
    assert DigitEnd(s, 15) == 15;
    assert DigitEnd(s, 14) == 15;
  }

  /** `\s+` after the index runs over the line break. */
  lemma AsWrittenCapture(s: string)
    requires ListingShape(s)
    ensures CaptureAt(AnySpace, s, 15) == Some(s[16..])
  {
    assert BlankEnd(AnySpace, s, 16) == 16;
    assert BlankEnd(AnySpace, s, 15) == 16;
    assert CaptureStart(s, 15, 16) == Some(16);
    LineEndIs(s, 16, 28);
    assert s[16..28] == s[16..];
  }

  lemma FirstLineEnd(s: string)
    requires ListingShape(s)
    ensures LineEnd(s, 0) == 15
  {
    assert forall k :: 0 <= k < 13 ==> s[k] == s[0..13][k];
    LineEndIs(s, 0, 15);
  }

  /** On its own, the first line does not match. */
  lemma AsWrittenFirstLineAlone(t: string)
    requires |t| == 15 && t[0] == 'i' && t[0..13] == "iManufacturer" && t[13] == ' ' && t[14] == '0'
    ensures TryAt(AnySpace, t, "iManufacturer", 0) == None
  {
    assert BlankEnd(AnySpace, t, 0) == 0;
    assert KeyEnd(AnySpace, t, "iManufacturer", 0) == Some(13);
    assert BlankEnd(AnySpace, t, 14) == 14;
    assert BlankEnd(AnySpace, t, 13) == 14;
    assert DigitEnd(t, 15) == 15;
    assert DigitEnd(t, 14) == 15;
    assert IndexEnd(AnySpace, t, 13) == Some(15);
    assert BlankEnd(AnySpace, t, 15) == 15;
  }

  lemma CorrectedManufacturer(s: string)
    requires ListingShape(s)
    ensures Scan(InlineSpace, s, "iManufacturer") == None
  {
    CorrectedFirstLine(s);
    FirstLineEnd(s);
    SecondLine(s);
    CorrectedSecondLineNoManufacturer(s[16..]);
  }

  /** The second line of the listing: `iProduct 2 X`. */
  predicate ProductLineShape(t: string) {
    && |t| == 12
    && t[0] == 'i' && t[0..8] == "iProduct"
    && t[8] == ' ' && t[9] == '2' && t[10] == ' ' && t[11] == 'X'
  }

  lemma SecondLine(s: string)
    requires ListingShape(s)
    ensures ProductLineShape(s[16..]) && s[16..][11..] == s[27..]
  {
    assert s[16..][0..8] == s[16..24];
  }

  lemma CorrectedFirstLine(s: string)
    requires ListingShape(s)
    ensures TryAt(InlineSpace, s, "iManufacturer", 0) == None
  {
    assert BlankEnd(InlineSpace, s, 0) == 0;
    assert KeyEnd(InlineSpace, s, "iManufacturer", 0) == Some(13);
    assert BlankEnd(InlineSpace, s, 14) == 14;
    assert BlankEnd(InlineSpace, s, 13) == 14;
    assert DigitEnd(s, 15) == 15;
    assert DigitEnd(s, 14) == 15;
    assert IndexEnd(InlineSpace, s, 13) == Some(15);
    assert BlankEnd(InlineSpace, s, 15) == 15;
  }

  lemma CorrectedSecondLineNoManufacturer(t: string)
    requires ProductLineShape(t)
    ensures Scan(InlineSpace, t, "iManufacturer") == None
  {
    assert BlankEnd(InlineSpace, t, 0) == 0;
    assert KeyEnd(InlineSpace, t, "iManufacturer", 0) == None;
    LineEndIs(t, 0, 12);
  }

  lemma CorrectedProduct(s: string)
    requires ListingShape(s)
    ensures Scan(InlineSpace, s, "iProduct") == Some(s[27..])
    ensures Trim(s[27..]) == s[27..]
  {
    ProductNotOnFirstLine(s);
    FirstLineEnd(s);
    SecondLine(s);
    var t := s[16..];
    CorrectedProductKey(t);
    CorrectedProductIndex(t);
    CorrectedProductCapture(t);
    TryAtSteps(InlineSpace, t, "iProduct", 0, 8, 10);
    TrimmedIsFixed(s[27..]);
  }

  lemma ProductNotOnFirstLine(s: string)
    requires ListingShape(s)
    ensures TryAt(InlineSpace, s, "iProduct", 0) == None
  {
    assert BlankEnd(InlineSpace, s, 0) == 0;
    assert s[0..8][1] == 'M';
    assert KeyEnd(InlineSpace, s, "iProduct", 0) == None;
  }

  lemma CorrectedProductKey(t: string)
    requires ProductLineShape(t)
    ensures KeyEnd(InlineSpace, t, "iProduct", 0) == Some(8)
  {
    assert BlankEnd(InlineSpace, t, 0) == 0;
  }

  lemma CorrectedProductIndex(t: string)
    requires ProductLineShape(t)
    ensures IndexEnd(InlineSpace, t, 8) == Some(10)
  {
    assert BlankEnd(InlineSpace, t, 9) == 9;
    assert BlankEnd(InlineSpace, t, 8) == 9;
    assert DigitEnd(t, 10) == 10;
    assert DigitEnd(t, 9) == 10;
  }

  lemma CorrectedProductCapture(t: string)
    requires ProductLineShape(t)
    ensures CaptureAt(InlineSpace, t, 10) == Some(t[11..])
  {
    assert BlankEnd(InlineSpace, t, 11) == 11;
    assert BlankEnd(InlineSpace, t, 10) == 11;
    assert CaptureStart(t, 10, 11) == Some(11);
    LineEndIs(t, 11, 12);
    assert t[11..12] == t[11..];
  }
}
