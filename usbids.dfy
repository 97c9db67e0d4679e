/** The reader of the Linux USB id database (`usb.ids`): vendor lines
    `vvvv  Vendor name`, product lines `<TAB>pppp  Product name` under the
    vendor above them, comments and blank lines skipped. Interface and
    class sections, indented twice, are ignored. */
module UsbIds {
  import opened Wrappers
  import opened Text

  datatype VendorEntry = VendorEntry(name: string, devices: map<string, string>)

  /** Vendors by lower-case hex id. */
  type Database = map<string, VendorEntry>

  /** Four characters of `[0-9a-f]` under the `i` flag. */
  predicate IsIdWord(w: string) {
    |w| == 4 && forall i :: 0 <= i < 4 ==> IsHexDigit(w[i])
  }

  /** An id as the database stores it: four hex digits, lower case. */
  predicate IsLowerIdWord(w: string) {
    IsIdWord(w) && forall i :: 0 <= i < 4 ==> !('A' <= w[i] <= 'Z')
  }

  /** The capture `(.+)$` can begin at `j`: white space from index 4 up to `j`
      (at least one character of it), then a non-empty rest free of line
      terminators, since `.` refuses them and `$` (without the `m` flag) is the
      end of the line. */
  predicate CaptureStartsAt(s: string, j: int) {
    5 <= j < |s| && AllSpace(s[4..j]) && NoTerminator(s[j..])
  }

  /** `s` matches `^([0-9a-f]{4})\s+(.+)$` with the `i` flag. */
  ghost predicate IdLineMatches(s: string) {
    |s| >= 4 && IsIdWord(s[..4]) && exists j :: CaptureStartsAt(s, j)
  }

  /** The match of an id line: the id lower-cased, the rest trimmed. */
  function MatchIdLine(s: string): (r: Option<(string, string)>)
    ensures r.Some? <==> IdLineMatches(s)
    ensures r.Some? ==> r.value.0 == Lower(s[..4]) && r.value.1 == Trim(s[4..])
  {
    if |s| < 6 || !IsIdWord(s[..4]) then None
    else
      FirstCaptureStartIff(s);
      if FirstCaptureStart(s) <= SpaceEnd(s, 4) && FirstCaptureStart(s) < |s| then
        CaptureAtFirstCaptureStart(s);
        Some((Lower(s[..4]), Trim(s[FirstCaptureStart(s)..])))
      else None
  }

  /** The least position where the capture `(.+)$` can begin: after at least
      one character of white space, and after the last line terminator. The
      greedy `\s+` may stop later, but the capture is trimmed, so the result
      is the same (`CaptureAtFirstCaptureStart`). */
  function FirstCaptureStart(s: string): nat {
    var t := LastLineStart(s);
    if t < 5 then 5 else t
  }

  lemma CaptureAtFirstCaptureStart(s: string)
    requires |s| >= 4 && FirstCaptureStart(s) <= SpaceEnd(s, 4) && FirstCaptureStart(s) < |s|
    ensures CaptureStartsAt(s, FirstCaptureStart(s))
    ensures Trim(s[4..]) == Trim(s[FirstCaptureStart(s)..])
  {
    var j := FirstCaptureStart(s);
    SpaceBeforeFirstCaptureStart(s);
    RestAfterFirstCaptureStart(s);
    SliceJoin(s, 4, j);
    TrimDropsLeadingSpace(s[4..j], s[j..]);
  }

  lemma SpaceBeforeFirstCaptureStart(s: string)
    requires |s| >= 4 && FirstCaptureStart(s) <= SpaceEnd(s, 4)
    ensures AllSpace(s[4..FirstCaptureStart(s)])
  {
    var j := FirstCaptureStart(s);
    forall k | 0 <= k < j - 4 ensures IsSpace(s[4..j][k]) {
      assert s[4..j][k] == s[4 + k];
    }
  }

  lemma RestAfterFirstCaptureStart(s: string)
    requires FirstCaptureStart(s) < |s|
    ensures NoTerminator(s[FirstCaptureStart(s)..])
  {
    var j := FirstCaptureStart(s);
    var t := LastLineStart(s);
    assert t <= j;
    forall k | 0 <= k < |s| - j ensures !IsLineTerminator(s[j..][k]) {
      assert s[j..][k] == s[t..][k + j - t];
    }
  }

  /** Any start the pattern admits lies within the leading white space and at or after
      the least start. */
  lemma CaptureStartBounds(s: string, j: int)
    requires CaptureStartsAt(s, j)
    ensures j <= SpaceEnd(s, 4) && FirstCaptureStart(s) <= j
  {
    var e := SpaceEnd(s, 4);
    var t := LastLineStart(s);
    assert forall k :: 4 <= k < j ==> s[k] == s[4..j][k - 4];
    assert forall k :: j <= k < |s| ==> s[k] == s[j..][k - j];
  }

  /** The pattern admits some start exactly when the least candidate is one. */
  lemma FirstCaptureStartIff(s: string)
    requires |s| >= 4
    ensures (exists j :: CaptureStartsAt(s, j)) <==> FirstCaptureStart(s) <= SpaceEnd(s, 4) && FirstCaptureStart(s) < |s|
  {
    if FirstCaptureStart(s) <= SpaceEnd(s, 4) && FirstCaptureStart(s) < |s| {
      CaptureAtFirstCaptureStart(s);
    }
    forall j | CaptureStartsAt(s, j) ensures FirstCaptureStart(s) <= SpaceEnd(s, 4) && FirstCaptureStart(s) < |s| {
      CaptureStartBounds(s, j);
    }
  }

  lemma SliceJoin(s: string, a: nat, b: nat)
    requires a <= b <= |s|
    ensures s[a..b] + s[b..] == s[a..]
  {
  }

  lemma LowerIdWord(w: string)
    requires IsIdWord(w)
    ensures IsLowerIdWord(Lower(w))
  {
  }

  // ---------------------------------------------------------------------
  // The line-by-line reader

  datatype ParseState = ParseState(vendors: Database, current: Option<string>)

  /** The reader's invariant: the current vendor has an entry, every id is a
      lower-case hex word and every name is already trimmed. */
  predicate Consistent(st: ParseState) {
    && (st.current.Some? ==> st.current.value in st.vendors)
    && (forall v :: v in st.vendors ==> IsLowerIdWord(v) && EntryWellFormed(st.vendors[v]))
  }

  predicate EntryWellFormed(e: VendorEntry) {
    IsTrimmed(e.name) && forall p :: p in e.devices ==> IsLowerIdWord(p) && IsTrimmed(e.devices[p])
  }

  /** Lines starting with `#`, and lines `trim` empties, are skipped. */
  predicate IsSkipped(line: string) {
    (|line| >= 1 && line[0] == '#') || AllSpace(line)
  }

  /** A line that declares a vendor. */
  predicate IsVendorLine(line: string) {
    !IsSkipped(line) && line[0] != '\t' && MatchIdLine(line).Some?
  }

  const Initial := ParseState(map[], None)

  /** What one line does to the reader's state. */
  function Step(st: ParseState, line: string): (r: ParseState)
    requires Consistent(st)
    ensures Consistent(r)
    ensures IsVendorLine(line) ==> r.current == Some(MatchIdLine(line).value.0)
    ensures !IsVendorLine(line) ==> r.current == st.current
  {
    if IsSkipped(line) then st
    else if line[0] != '\t' then
      match MatchIdLine(line)
      case None => st
      case Some((id, name)) =>
        LowerIdWord(line[..4]);
        AddVendorConsistent(st, id, name);
        ParseState(st.vendors[id := VendorEntry(name, map[])], Some(id))
    else if |line| < 2 || line[1] != '\t' then
      match MatchIdLine(line[1..])
      case None => st
      case Some((id, name)) =>
        if st.current.Some? then
          var v := st.current.value;
          LowerIdWord(line[1..][..4]);
          AddProductConsistent(st, id, name);
          var entry := st.vendors[v];
          ParseState(st.vendors[v := entry.(devices := entry.devices[id := name])], st.current)
        else st
    else st
  }

  /** A line that is neither skipped nor an id line at its own level (a
      vendor line, or a product line indented once) changes nothing. */
  lemma NonMatchingLineIgnored(st: ParseState, line: string)
    requires Consistent(st) && !IsSkipped(line)
    requires line[0] != '\t' ==> MatchIdLine(line).None?
    requires line[0] == '\t' && (|line| < 2 || line[1] != '\t') ==> MatchIdLine(line[1..]).None?
    ensures Step(st, line) == st
  {
  }

  /** A product line with no vendor above it changes nothing. */
  lemma ProductWithoutVendorIgnored(st: ParseState, line: string)
    requires Consistent(st) && st.current.None? && !IsSkipped(line) && line[0] == '\t'
    ensures Step(st, line) == st
  {
  }

  lemma AddVendorConsistent(st: ParseState, id: string, name: string)
    requires Consistent(st) && IsLowerIdWord(id) && IsTrimmed(name)
    ensures Consistent(ParseState(st.vendors[id := VendorEntry(name, map[])], Some(id)))
  {
  }

  lemma AddProductConsistent(st: ParseState, id: string, name: string)
    requires Consistent(st) && st.current.Some? && IsLowerIdWord(id) && IsTrimmed(name)
    ensures var v := st.current.value;
      var entry := st.vendors[v];
      Consistent(ParseState(st.vendors[v := entry.(devices := entry.devices[id := name])], st.current))
  {
  }

  /** The state after reading `lines` from the start. */
  function ParseLines(lines: seq<string>): (st: ParseState)
    ensures Consistent(st)
  {
    if lines == [] then Initial
    else Step(ParseLines(lines[..|lines| - 1]), lines[|lines| - 1])
  }

  /** `readLinuxDeviceDatabase`: split the file at `\n` and read it line by line. */
  method ReadDatabase(content: string) returns (vendors: Database)
    ensures vendors == ParseLines(SplitOn(content, '\n')).vendors
  {
    var lines := SplitOn(content, '\n');
    vendors := map[];
    var current: Option<string> := None;
    var i := 0;
    while i < |lines|
      invariant i <= |lines|
      invariant ParseState(vendors, current) == ParseLines(lines[..i])
    {
      var line := lines[i];
      vendors, current := ReadLine(vendors, current, line);
      ParseSnoc(lines[..i], line);
      assert lines[..i + 1] == lines[..i] + [line];
      i := i + 1;
    }
    assert lines[..|lines|] == lines;
  }

  /** One turn of the reading loop: skip comments and blank lines, start a
      vendor at an id line, and add a product under the current vendor at an
      id line indented once. */
  method ReadLine(vendors: Database, current: Option<string>, line: string)
    returns (vendors': Database, current': Option<string>)
    requires Consistent(ParseState(vendors, current))
    ensures ParseState(vendors', current') == Step(ParseState(vendors, current), line)
  {
    vendors', current' := vendors, current;
    if (|line| >= 1 && line[0] == '#') || Trim(line) == [] {
      return;
    }
    if line[0] != '\t' {
      var m := MatchIdLine(line);
      if m.Some? {
        current' := Some(m.value.0);
        vendors' := vendors[m.value.0 := VendorEntry(m.value.1, map[])];
      }
    } else if |line| < 2 || line[1] != '\t' {
      var m := MatchIdLine(line[1..]);
      if m.Some? && current.Some? {
        var entry := vendors[current.value];
        vendors' := vendors[current.value := entry.(devices := entry.devices[m.value.0 := m.value.1])];
      }
    }
  }

  // ---------------------------------------------------------------------
  // Properties of the reader

  lemma ParseSnoc(lines: seq<string>, line: string)
    ensures ParseLines(lines + [line]) == Step(ParseLines(lines), line)
  {
    assert (lines + [line])[..|lines|] == lines;
  }

  /** A skipped line can be dropped from anywhere in the file. */
  lemma {:induction false} SkippedLineIgnored(before: seq<string>, line: string, after: seq<string>)
    requires IsSkipped(line)
    ensures ParseLines(before + [line] + after) == ParseLines(before + after)
    decreases |after|
  {
    if after == [] {
      assert before + [line] + after == before + [line];
      assert before + after == before;
      ParseSnoc(before, line);
    } else {
      var n := |after|;
      var last := after[n - 1];
      SkippedLineIgnored(before, line, after[..n - 1]);
      assert before + [line] + after == (before + [line] + after[..n - 1]) + [last];
      assert before + after == (before + after[..n - 1]) + [last];
      ParseSnoc(before + [line] + after[..n - 1], last);
      ParseSnoc(before + after[..n - 1], last);
    }
  }

  /** Until a vendor has been declared, product lines go nowhere. */
  lemma {:induction false} NothingBeforeFirstVendor(lines: seq<string>)
    requires forall i :: 0 <= i < |lines| ==> !IsVendorLine(lines[i])
    ensures ParseLines(lines) == Initial
  {
    if lines != [] {
      var n := |lines|;
      assert forall i :: 0 <= i < n - 1 ==> lines[..n - 1][i] == lines[i];
      NothingBeforeFirstVendor(lines[..n - 1]);
      InitialKeptBy(lines[n - 1]);
    }
  }

  /** Before any vendor, a line that declares none leaves the state empty. */
  lemma InitialKeptBy(line: string)
    requires !IsVendorLine(line)
    ensures Step(Initial, line) == Initial
  {
    if !IsSkipped(line) {
      if line[0] == '\t' {
        ProductWithoutVendorIgnored(Initial, line);
      } else {
        NonMatchingLineIgnored(Initial, line);
      }
    }
  }

  /** An id, some white space and a trimmed one-line name match the id-line
      pattern, giving the id in lower case and the name. */
  lemma IdLineRead(id: string, gap: string, name: string)
    requires IsIdWord(id) && gap != [] && AllSpace(gap) && NoTerminator(gap)
    requires name != [] && IsTrimmed(name) && NoTerminator(name)
    ensures MatchIdLine(id + gap + name) == Some((Lower(id), name))
  {
    var line := id + gap + name;
    assert line[..4] == id;
    assert line[4..] == gap + name;
    assert line[4..4 + |gap|] == gap;
    assert line[4 + |gap|..] == name;
    assert CaptureStartsAt(line, 4 + |gap|);
    TrimDropsLeadingSpace(gap, name);
    TrimmedIsFixed(name);
  }

  /** A vendor line as the database writes it is read back as a fresh entry
      under its id, in lower case; declaring a vendor again drops the products
      read for it so far. */
  lemma VendorLineRead(st: ParseState, id: string, gap: string, name: string)
    requires Consistent(st)
    requires IsIdWord(id) && gap != [] && AllSpace(gap) && NoTerminator(gap)
    requires name != [] && IsTrimmed(name) && NoTerminator(name)
    ensures Step(st, id + gap + name) == ParseState(st.vendors[Lower(id) := VendorEntry(name, map[])], Some(Lower(id)))
  {
    IdLineRead(id, gap, name);
    NotSkipped(id, gap, name);
    VendorStep(st, id + gap + name, Lower(id), name);
  }

  lemma NotSkipped(id: string, gap: string, name: string)
    requires IsIdWord(id)
    ensures var line := id + gap + name; !IsSkipped(line) && line[0] != '\t'
    ensures var line := "\t" + (id + gap + name); !IsSkipped(line) && line[0] == '\t' && line[1] != '\t'
  {
    assert (id + gap + name)[0] == id[0];
    assert ("\t" + (id + gap + name))[1] == id[0];
  }

  lemma VendorStep(st: ParseState, line: string, id: string, name: string)
    requires Consistent(st)
    requires !IsSkipped(line) && line[0] != '\t' && MatchIdLine(line) == Some((id, name))
    ensures Step(st, line) == ParseState(st.vendors[id := VendorEntry(name, map[])], Some(id))
  {
  }

  lemma TabbedRest(rest: string)
    ensures ("\t" + rest)[1..] == rest
  {
  }

  lemma ProductStep(st: ParseState, line: string, id: string, name: string)
    requires Consistent(st) && st.current.Some?
    requires !IsSkipped(line) && line[0] == '\t' && |line| >= 2 && line[1] != '\t'
    requires MatchIdLine(line[1..]) == Some((id, name))
    ensures var v := st.current.value;
      var entry := st.vendors[v];
      Step(st, line) == ParseState(st.vendors[v := entry.(devices := entry.devices[id := name])], st.current)
  {
  }

  /** A product line under a vendor is recorded under that vendor and
      nowhere else. */
  lemma ProductLineRead(st: ParseState, id: string, gap: string, name: string)
    requires Consistent(st) && st.current.Some?
    requires IsIdWord(id) && gap != [] && AllSpace(gap) && NoTerminator(gap)
    requires name != [] && IsTrimmed(name) && NoTerminator(name)
    ensures var v := st.current.value;
      var entry := st.vendors[v];
      Step(st, "\t" + (id + gap + name)) ==
        ParseState(st.vendors[v := VendorEntry(entry.name, entry.devices[Lower(id) := name])], st.current)
  {
    IdLineRead(id, gap, name);
    NotSkipped(id, gap, name);
    TabbedRest(id + gap + name);
    ProductStep(st, "\t" + (id + gap + name), Lower(id), name);
  }

  /** A line indented twice (an interface or class entry) changes nothing. */
  lemma DoubleIndentIgnored(st: ParseState, line: string)
    requires Consistent(st)
    requires |line| >= 2 && line[0] == '\t' && line[1] == '\t'
    ensures Step(st, line) == st
  {
  }
}
