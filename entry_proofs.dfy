/** Rendering a clock entry and reading the line back gives the entry back,
    whatever follows the line. */
module EntryProofs {
  import opened Wrappers
  import opened Text
  import opened Times
  import opened Records
  import opened RecordLines
  import opened RecordProofs

  /** Reading an entry line whose fields have been located, and whose fields
      parse as the entry's times, gives the entry. */
  lemma ReadEntry(s: string, en: Entry, fs: string, fe: string)
    requires EntryScanned(s, en.task, fs, fe, en.end.None?)
    requires ParseTime(fs) == Ok(en.start)
    requires en.end.Some? ==> ParseTime(fe) == Ok(en.end.value) && !Earlier(en.end.value, en.start)
    ensures EntryFromString(s) == Ok(en)
  {
    var e: nat, q: nat, d: nat, q2: nat, d2: nat :|
      EntryScannedAt(s, e, q, d, q2, d2, en.task, fs, fe, en.end.None?);
    HeadSlice(s, e, en.task);
    StartSlice(s, e, q, d, fs, en.start);
    EndSlice(s, d, q2, d2, fe, en.end);
    EntryFields(s, e, q, d, q2, d2, en.task, en.start, en.end);
  }

  /** The start field of a scanned entry line parses as the start. */
  lemma StartSlice(s: string, e: nat, q: nat, d: nat, fs: string, start: Stamp)
    requires StartRead(s, e, q, d, fs) && ParseTime(fs) == Ok(start)
    ensures ParseTime(s[q..d]) == Ok(start)
  {
    AtSlice(s, q, d, fs);
  }

  /** The end field of a scanned entry line is `--` for an open entry and
      parses as the end of a closed one. */
  lemma EndSlice(s: string, d: nat, q2: nat, d2: nat, fe: string, end: Option<Stamp>)
    requires EndRead(s, d, q2, d2, fe, end.None?)
    requires end.Some? ==> ParseTime(fe) == Ok(end.value)
    ensures end.None? ==> q2 + 2 <= |s| && s[q2] == '-' && s[q2 + 1] == '-'
    ensures end.Some? ==> && !(q2 + 2 <= |s| && s[q2] == '-' && s[q2 + 1] == '-')
                          && q2 <= d2 <= |s| && DateEnd(s, q2) == Some(d2)
                          && ParseTime(s[q2..d2]) == Ok(end.value)
  {
    AtSlice(s, q2, d2, fe);
    if end.Some? {
      assert s[q2..q2 + 2][0] == s[q2];
    }
  }

  /** What `Entry.from_string` makes of a line, given where its scan stops
      and what the fields between those places read as. */
  lemma EntryFields(s: string, e: nat, q: nat, d: nat, q2: nat, d2: nat,
                    task: string, start: Stamp, end: Option<Stamp>)
    requires SkipSpaces(s, TotalEnd(s)) == 10 && 12 <= e <= |s| && NameEnd(s, 10) == e
    requires s[10..e] == task
    requires e + 2 <= q <= |s| && SkipSpaces(s, e) == q && DateEnd(s, q) == Some(d)
    requires ParseTime(s[q..d]) == Ok(start)
    requires d + 2 <= q2 && SkipSpaces(s, d) == q2
    requires end.None? ==> q2 + 2 <= |s| && s[q2] == '-' && s[q2 + 1] == '-'
    requires end.Some? ==> && !(q2 + 2 <= |s| && s[q2] == '-' && s[q2 + 1] == '-')
                           && q2 <= d2 <= |s| && DateEnd(s, q2) == Some(d2)
                           && ParseTime(s[q2..d2]) == Ok(end.value) && !Earlier(end.value, start)
    ensures EntryFromString(s) == Ok(Entry(task, start, end))
  {
    if end.None? {
      OpenEntryFields(s, e, q, d, q2, task, start);
    } else {
      ClosedEntryFields(s, e, q, d, q2, d2, task, start, end.value);
    }
  }

  /** A line whose head reads as `task` up to a start field at `q`. */
  lemma EntryHead(s: string, e: nat, q: nat, task: string)
    requires SkipSpaces(s, TotalEnd(s)) == 10 && 12 <= e <= |s| && NameEnd(s, 10) == e
    requires s[10..e] == task
    requires e + 2 <= q <= |s| && SkipSpaces(s, e) == q
    ensures EntryFromString(s) == EntryTimes(s, task, q)
  {
  }

  lemma OpenEntryFields(s: string, e: nat, q: nat, d: nat, q2: nat, task: string, start: Stamp)
    requires SkipSpaces(s, TotalEnd(s)) == 10 && 12 <= e <= |s| && NameEnd(s, 10) == e
    requires s[10..e] == task
    requires e + 2 <= q <= |s| && SkipSpaces(s, e) == q && DateEnd(s, q) == Some(d)
    requires ParseTime(s[q..d]) == Ok(start)
    requires d + 2 <= q2 && SkipSpaces(s, d) == q2
    requires q2 + 2 <= |s| && s[q2] == '-' && s[q2 + 1] == '-'
    ensures EntryFromString(s) == Ok(Entry(task, start, None))
  {
    EntryHead(s, e, q, task);
    OpenEntryTimes(s, q, d, q2, task, start);
  }

  /** The start field and `--` of an open entry line. */
  lemma OpenEntryTimes(s: string, q: nat, d: nat, q2: nat, task: string, start: Stamp)
    requires q <= |s| && DateEnd(s, q) == Some(d)
    requires ParseTime(s[q..d]) == Ok(start)
    requires d + 2 <= q2 && SkipSpaces(s, d) == q2
    requires q2 + 2 <= |s| && s[q2] == '-' && s[q2 + 1] == '-'
    ensures EntryTimes(s, task, q) == Ok(Entry(task, start, None))
  {
  }

  lemma ClosedEntryFields(s: string, e: nat, q: nat, d: nat, q2: nat, d2: nat,
                          task: string, start: Stamp, end: Stamp)
    requires SkipSpaces(s, TotalEnd(s)) == 10 && 12 <= e <= |s| && NameEnd(s, 10) == e
    requires s[10..e] == task
    requires e + 2 <= q <= |s| && SkipSpaces(s, e) == q && DateEnd(s, q) == Some(d)
    requires ParseTime(s[q..d]) == Ok(start)
    requires d + 2 <= q2 && SkipSpaces(s, d) == q2
    requires !(q2 + 2 <= |s| && s[q2] == '-' && s[q2 + 1] == '-')
    requires q2 <= d2 <= |s| && DateEnd(s, q2) == Some(d2)
    requires ParseTime(s[q2..d2]) == Ok(end) && !Earlier(end, start)
    ensures EntryFromString(s) == Ok(Entry(task, start, Some(end)))
  {
    EntryHead(s, e, q, task);
    ClosedEntryTimes(s, q, d, q2, d2, task, start, end);
  }

  /** The start and end fields of a closed entry line. */
  lemma ClosedEntryTimes(s: string, q: nat, d: nat, q2: nat, d2: nat,
                         task: string, start: Stamp, end: Stamp)
    requires q <= |s| && DateEnd(s, q) == Some(d)
    requires ParseTime(s[q..d]) == Ok(start)
    requires d + 2 <= q2 && SkipSpaces(s, d) == q2
    requires !(q2 + 2 <= |s| && s[q2] == '-' && s[q2 + 1] == '-')
    requires q2 <= d2 <= |s| && DateEnd(s, q2) == Some(d2)
    requires ParseTime(s[q2..d2]) == Ok(end) && !Earlier(end, start)
    ensures EntryTimes(s, task, q) == Ok(Entry(task, start, Some(end)))
  {
  }

  /** A date token is scanned as one. */
  lemma ScanDate(s: string, i: nat, f: string)
    requires At(s, i, f) && DateToken(f)
    ensures DateEnd(s, i) == Some(i + 11)
  {
    DateSplitToken(s, i, f);
  }

  /** A date token after two or more spaces is the start field. */
  lemma ScanStart(s: string, e: nat, w: string, fs: string)
    requires |w| >= 2 && AllSpaces(w) && DateToken(fs)
    requires At(s, e, w) && At(s, e + |w|, fs)
    ensures StartRead(s, e, e + |w|, e + |w| + 11, fs)
  {
    assert s[e + |w|] == fs[0];
    SkipGap(s, e, w);
    ScanDate(s, e + |w|, fs);
  }

  /** A date token after two or more spaces is the end field of a closed entry. */
  lemma ScanClosedEnd(s: string, d: nat, w: string, fe: string)
    requires |w| >= 2 && AllSpaces(w) && DateToken(fe)
    requires At(s, d, w) && At(s, d + |w|, fe)
    ensures EndRead(s, d, d + |w|, d + |w| + 11, fe, false)
  {
    assert s[d + |w|] == fe[0];
    SkipGap(s, d, w);
    ScanDate(s, d + |w|, fe);
  }

  /** `--` after two or more spaces is the end field of an open entry. */
  lemma ScanOpenEnd(s: string, d: nat, w: string)
    requires |w| >= 2 && AllSpaces(w)
    requires At(s, d, w) && At(s, d + |w|, "--")
    ensures EndRead(s, d, d + |w|, d + |w| + 2, "--", true)
  {
    assert "--"[0] == '-';
    assert s[d + |w|] == '-';
    SkipGap(s, d, w);
  }

  /** The end field of an entry line: `--` while open, else a date token. */
  predicate EndToken(fe: string, open: bool)
  {
    if open then fe == "--" else DateToken(fe)
  }

  /** The pieces of an entry line lie one after another in `s`, the name
      ending at `e`. */
  predicate EntryLayout(s: string, total: string, task: string, e: nat, w1: string, fs: string, w2: string, fe: string)
  {
    && e == 10 + |task|
    && At(s, 0, total + "   ") && At(s, 10, task) && At(s, e, w1) && At(s, e + |w1|, fs)
    && At(s, e + |w1| + 11, w2) && At(s, e + |w1| + 11 + |w2|, fe)
  }

  lemma EntryAt(s: string, total: string, task: string, e: nat, w1: string, fs: string, w2: string, fe: string, open: bool)
    requires TotalToken(total) && TaskName(task) && |w1| >= 2 && AllSpaces(w1) && |w2| >= 2 && AllSpaces(w2)
    requires DateToken(fs) && EndToken(fe, open)
    requires EntryLayout(s, total, task, e, w1, fs, w2, fe)
    ensures EntryScanned(s, task, fs, fe, open)
  {
    var d := e + |w1| + 11;
    GapStops(s, e, w1);
    ScanHead(s, total, task, e);
    ScanStart(s, e, w1, fs);
    if open {
      ScanOpenEnd(s, d, w2);
    } else {
      ScanClosedEnd(s, d, w2, fe);
    }
    assert EntryScannedAt(s, e, e + |w1|, d, d + |w2|, d + |w2| + |fe|, task, fs, fe, open);
  }

  /** Where the fields of an entry line lie. */
  lemma EntryPieces(total: string, task: string, w1: string, fs: string, w2: string, fe: string, rest: string)
    requires |total| == 7 && |fs| == 11
    ensures EntryLayout(total + "   " + task + w1 + fs + w2 + fe + rest, total, task, 10 + |task|, w1, fs, w2, fe)
  {
    var s := total + "   " + task + w1 + fs + w2 + fe + rest;
    AtWhole(s);
    AtConcat(s, 0, total + "   " + task + w1 + fs + w2 + fe, rest);
    AtConcat(s, 0, total + "   " + task + w1 + fs + w2, fe);
    AtConcat(s, 0, total + "   " + task + w1 + fs, w2);
    EntryHeadPieces(s, total, task, w1, fs);
  }

  /** Where the head fields of an entry line lie, up to its start field. */
  lemma EntryHeadPieces(s: string, total: string, task: string, w1: string, fs: string)
    requires |total| == 7 && At(s, 0, total + "   " + task + w1 + fs)
    ensures At(s, 0, total + "   ") && At(s, 10, task) && At(s, 10 + |task|, w1)
            && At(s, 10 + |task| + |w1|, fs)
  {
    AtConcat(s, 0, total + "   " + task + w1, fs);
    AtConcat(s, 0, total + "   " + task, w1);
    AtConcat(s, 0, total + "   ", task);
  }

  /** An entry line, whatever follows it: its fields are located. */
  lemma EntryLineAt(total: string, task: string, w1: string, fs: string, fe: string, open: bool, rest: string)
    requires TotalToken(total) && TaskName(task) && |w1| >= 2 && AllSpaces(w1)
    requires DateToken(fs) && EndToken(fe, open)
    ensures EntryScanned(total + "   " + task + w1 + fs + "   " + fe + rest, task, fs, fe, open)
  {
    EntryPieces(total, task, w1, fs, "   ", fe, rest);
    SepSpaces();
    EntryAt(total + "   " + task + w1 + fs + "   " + fe + rest, total, task, 10 + |task|, w1, fs, "   ", fe, open);
  }

  /** The text of an entry line, its name padding and separator made one gap. */
  lemma EntryText(total: string, task: string, fs: string, fe: string)
    ensures total + "   " + PadRight(task, 20) + "   " + fs + "   " + fe
            == total + "   " + task + (NamePad(task) + "   ") + fs + "   " + fe
  {
  }

  /** Rendering an entry and reading its line back gives the entry back,
      whatever text follows the line. */
  lemma EntryRoundTrip(en: Entry, now: Stamp, rest: string)
    requires ReadableEntry(en, now)
    ensures EntryFromString(EntryLine(en, now) + rest) == Ok(en)
  {
    var m := EntryTime(en, now);
    var total := FmtDelta(m);
    FmtDeltaToken(m);
    var fs := FmtTime(en.start);
    FmtTimeToken(en.start);
    ParseFmtTime(en.start);
    var fe := if en.end.Some? then FmtTime(en.end.value) else "--";
    if en.end.Some? {
      FmtTimeToken(en.end.value);
      ParseFmtTime(en.end.value);
    }
    var w1 := NamePad(en.task) + "   ";
    SepSpaces();
    AllSpacesAppend(NamePad(en.task), "   ");
    EntryText(total, en.task, fs, fe);
    EntryLineAt(total, en.task, w1, fs, fe, en.end.None?, rest);
    ReadEntry(EntryLine(en, now) + rest, en, fs, fe);
  }

  /** An entry line whose task name is not ASCII. */
  const CafeEntryLine := "(00:00)   café  01-01 10:00  --"

  lemma TenOClock()
    ensures FmtTime(Moment(1, 1, 10, 0)) == "01-01 10:00"
    ensures ParseTime("01-01 10:00") == Ok(Moment(1, 1, 10, 0))
  {
    ParseFmtTime(Moment(1, 1, 10, 0));
  }

  lemma CafeEntryHead()
    ensures SkipSpaces(CafeEntryLine, TotalEnd(CafeEntryLine)) == 10 && NameEnd(CafeEntryLine, 10) == 14
    ensures CafeEntryLine[10..14] == "café" && SkipSpaces(CafeEntryLine, 14) == 16
  {
    CafeEntryTotal();
    CafeEntryName();
    CafeEntryGap();
  }

  lemma CafeEntryTotal()
    ensures SkipSpaces(CafeEntryLine, TotalEnd(CafeEntryLine)) == 10
  {
    var s := CafeEntryLine;
    assert s[0] == '(' && s[1] == '0' && s[2] == '0' && s[3] == ':' && s[4] == '0' && s[5] == '0' && s[6] == ')';
    assert TotalEnd(s) == 7;
    assert s[7] == ' ' && s[8] == ' ' && s[9] == ' ' && s[10] == 'c';
    assert SkipSpaces(s, 10) == 10;
    assert SkipSpaces(s, 9) == 10;
    assert SkipSpaces(s, 8) == 10;
  }

  lemma CafeEntryName()
    ensures NameEnd(CafeEntryLine, 10) == 14 && CafeEntryLine[10..14] == "café"
  {
    var s := CafeEntryLine;
    assert s[14] == ' ' && s[15] == ' ';
    assert WordEnd(s, 14) == 14;
    assert WordEnd(s, 13) == 14;
    assert WordEnd(s, 12) == 14;
    assert WordEnd(s, 11) == 14;
  }

  lemma CafeEntryGap()
    ensures SkipSpaces(CafeEntryLine, 14) == 16
  {
    var s := CafeEntryLine;
    assert s[14] == ' ' && s[15] == ' ' && s[16] == '0';
    assert SkipSpaces(s, 16) == 16;
    assert SkipSpaces(s, 15) == 16;
  }

  lemma CafeEntryDates()
    ensures DateEnd(CafeEntryLine, 16) == Some(27) && SkipSpaces(CafeEntryLine, 27) == 29
    ensures ParseTime(CafeEntryLine[16..27]) == Ok(Moment(1, 1, 10, 0))
    ensures CafeEntryLine[29] == '-' && CafeEntryLine[30] == '-'
  {
    CafeEntryStart();
    CafeEntryEnd();
  }

  lemma CafeEntryStart()
    ensures DateEnd(CafeEntryLine, 16) == Some(27)
    ensures ParseTime(CafeEntryLine[16..27]) == Ok(Moment(1, 1, 10, 0))
  {
    var s := CafeEntryLine;
    assert s[16..27] == "01-01 10:00";
    TenOClock();
    FmtTimeToken(Moment(1, 1, 10, 0));
    DateSplitToken(s, 16, "01-01 10:00");
  }

  lemma CafeEntryEnd()
    ensures SkipSpaces(CafeEntryLine, 27) == 29
    ensures CafeEntryLine[29] == '-' && CafeEntryLine[30] == '-'
  {
    var s := CafeEntryLine;
    assert s[27] == ' ' && s[28] == ' ';
    assert SkipSpaces(s, 29) == 29;
    assert SkipSpaces(s, 28) == 29;
  }

  /** `café` is read whole as the task of an open entry. */
  lemma CafeEntry()
    ensures EntryFromString(CafeEntryLine) == Ok(Entry("café", Moment(1, 1, 10, 0), None))
  {
    CafeEntryHead();
    CafeEntryDates();
    EntryFields(CafeEntryLine, 14, 16, 27, 29, 0, "café", Moment(1, 1, 10, 0), None);
  }
}
