/** Writing a sheet and reading the text back gives the sheet back, for a
    valid sheet whose names and tags the line grammar can read and whose
    totals stay under one hundred hours. */
module CodecProofs {
  import opened Wrappers
  import opened Text
  import opened Times
  import opened Records
  import opened RecordLines
  import opened RecordProofs
  import opened EntryProofs
  import opened Ledgers
  import opened Codec

  lemma NoCharAppend(a: string, b: string, c: char)
    requires NoChar(a, c) && NoChar(b, c)
    ensures NoChar(a + b, c)
  {
  }

  lemma {:induction false} JoinNoChar(parts: seq<string>, sep: string, c: char)
    requires NoChar(sep, c) && forall p :: p in parts ==> NoChar(p, c)
    ensures NoChar(Join(parts, sep), c)
  {
    if |parts| == 1 {
      assert parts[0] in parts;
    } else if |parts| > 1 {
      assert parts[0] in parts;
      assert forall p :: p in parts[1..] ==> p in parts;
      JoinNoChar(parts[1..], sep, c);
      NoCharAppend(parts[0], sep, c);
      NoCharAppend(parts[0] + sep, Join(parts[1..], sep), c);
    }
  }

  /** Stripping a text that starts with a non-space and has one at index
      `n - 1` keeps its first `n` characters and adds none. */
  lemma StripHead(s: string, n: nat)
    requires 0 < n <= |s| && !IsSpace(s[0]) && !IsSpace(s[n - 1])
    ensures |Strip(s)| >= n && Strip(s)[0] == s[0]
    ensures NoChar(s, '\n') ==> NoChar(Strip(s), '\n')
  {
    TrimEndSpaces(s, |s|);
  }

  lemma TotalNoNewline(m: int)
    requires 0 <= m < 6000
    ensures NoChar(FmtDelta(m), '\n') && FmtDelta(m)[0] == '(' && FmtDelta(m)[6] == ')'
  {
    FmtDeltaToken(m);
  }

  lemma DateNoNewline(t: Stamp)
    ensures NoChar(FmtTime(t), '\n')
  {
    FmtTimeToken(t);
  }

  lemma PadNoNewline(s: string, w: nat)
    requires NoChar(s, '\n')
    ensures NoChar(PadRight(s, w), '\n')
  {
  }

  lemma NameNoNewline(name: string)
    requires TaskName(name)
    ensures NoChar(name, '\n')
  {
  }

  /** The unstripped text of a task line holds no newline and keeps its
      total at the front. */
  lemma TaskRawShape(total: string, name: string, f: string, j: string)
    requires |total| == 7 && total[0] == '(' && total[6] == ')'
    requires NoChar(total, '\n') && NoChar(name, '\n') && NoChar(f, '\n') && NoChar(j, '\n')
    ensures var raw := total + "   " + PadRight(name, 20) + "   " + PadRight(f, 11) + "   " + j;
            NoChar(raw, '\n') && raw[0] == '(' && raw[6] == ')'
  {
    PadNoNewline(f, 11);
    PadNoNewline(name, 20);
    var a := total + "   ";
    NoCharAppend(total, "   ", '\n');
    NoCharAppend(a, PadRight(name, 20), '\n');
    var b := a + PadRight(name, 20) + "   ";
    NoCharAppend(a + PadRight(name, 20), "   ", '\n');
    NoCharAppend(b, PadRight(f, 11), '\n');
    var c := b + PadRight(f, 11) + "   ";
    NoCharAppend(b + PadRight(f, 11), "   ", '\n');
    NoCharAppend(c, j, '\n');
    assert (c + j)[0] == total[0] && (c + j)[6] == total[6];
  }

  /** The stripped text of a task line keeps its total at the front and
      holds no newline. */
  lemma TaskStripShape(total: string, name: string, f: string, j: string)
    requires |total| == 7 && total[0] == '(' && total[6] == ')'
    requires NoChar(total, '\n') && NoChar(name, '\n') && NoChar(f, '\n') && NoChar(j, '\n')
    ensures var s := Strip(total + "   " + PadRight(name, 20) + "   " + PadRight(f, 11) + "   " + j);
            |s| >= 7 && s[0] == '(' && NoChar(s, '\n')
  {
    TaskRawShape(total, name, f, j);
    StripHead(total + "   " + PadRight(name, 20) + "   " + PadRight(f, 11) + "   " + j, 7);
  }

  lemma TagsNoNewline(t: Task)
    requires ReadableTaskFields(t)
    ensures NoChar(t.name, '\n') && NoChar(Join(t.tags, ", "), '\n')
  {
    JoinNoChar(t.tags, ", ", '\n');
  }

  /** A rendered task line starts with its total, is longer than two
      characters and holds no newline. */
  lemma TaskLineShape(t: Task, time: seq<Entry>, now: Stamp)
    requires ReadableTask(t, time, now)
    ensures var s := TaskLine(t, time, now); |s| >= 7 && s[0] == '(' && NoChar(s, '\n')
  {
    var total := FmtDelta(TaskTime(t.name, time, now));
    TotalNoNewline(TaskTime(t.name, time, now));
    FmtDeltaToken(TaskTime(t.name, time, now));
    var f := if t.deadline.Some? then FmtTime(t.deadline.value) else "";
    if t.deadline.Some? {
      DateNoNewline(t.deadline.value);
    }
    TagsNoNewline(t);
    TaskStripShape(total, t.name, f, Join(t.tags, ", "));
  }

  /** A rendered entry line starts with its duration, is longer than two
      characters and holds no newline. */
  lemma EntryLineShape(e: Entry, now: Stamp)
    requires ReadableEntry(e, now)
    ensures var s := EntryLine(e, now); |s| >= 7 && s[0] == '(' && NoChar(s, '\n')
  {
    var total := FmtDelta(EntryTime(e, now));
    TotalNoNewline(EntryTime(e, now));
    DateNoNewline(e.start);
    var fe := if e.end.Some? then FmtTime(e.end.value) else "--";
    if e.end.Some? {
      DateNoNewline(e.end.value);
    }
    NameNoNewline(e.task);
    PadNoNewline(e.task, 20);
    var a := total + "   ";
    NoCharAppend(total, "   ", '\n');
    NoCharAppend(a, PadRight(e.task, 20), '\n');
    var b := a + PadRight(e.task, 20) + "   ";
    NoCharAppend(a + PadRight(e.task, 20), "   ", '\n');
    NoCharAppend(b, FmtTime(e.start), '\n');
    var c := b + FmtTime(e.start) + "   ";
    NoCharAppend(b + FmtTime(e.start), "   ", '\n');
    NoCharAppend(c, fe, '\n');
    assert EntryLine(e, now) == c + fe;
  }

  lemma {:induction false} BlanksTo(s: string, i: nat, j: nat)
    requires i <= j < |s| && s[j] != ' '
    requires forall k :: i <= k < j ==> s[k] == ' '
    ensures Blanks(s, i) == j
    decreases j - i
  {
    if i < j {
      BlanksTo(s, i + 1, j);
    }
  }

  /** A section title as `__str__` writes it is read as that section's header. */
  lemma TitleHeader(title: string)
    requires |title| == 4 && title[0] != ' ' && NoChar(title, '\n')
    ensures HeaderLine(Center(title, Width) + "\n", title)
    ensures NoChar(Center(title, Width), '\n')
  {
    var s := Center(title, Width) + "\n";
    assert s == Spaces(33) + title + Spaces(33) + "\n";
    BlanksTo(s, 0, 33);
    assert s[33..37] == title;
  }

  lemma RuleShape()
    ensures RuleLine(Repeat('-', Width) + "\n") && NoChar(Repeat('-', Width), '\n')
  {
  }

  /** A line that starts with a parenthesis is no section header. */
  lemma ParenNotHeader(s: string, word: string)
    requires |s| > 0 && s[0] == '('
    ensures !HeaderLine(s, word)
  {
  }

  lemma {:induction false} KeptAppend(a: seq<string>, b: seq<string>)
    ensures Kept(a + b) == Kept(a) + Kept(b)
  {
    if |a| > 0 {
      assert (a + b)[1..] == a[1..] + b;
      KeptAppend(a[1..], b);
    } else {
      assert a + b == b;
    }
  }

  lemma {:induction false} KeptLong(xs: seq<string>)
    requires forall k :: 0 <= k < |xs| ==> |xs[k]| > 2
    ensures Kept(xs) == xs
  {
    if |xs| > 0 {
      KeptLong(xs[1..]);
    }
  }

  lemma TerminatedAppend(a: seq<string>, b: seq<string>)
    ensures Terminated(a + b) == Terminated(a) + Terminated(b)
  {
  }

  /** A blank line, written, is a bare newline, which reading drops. */
  lemma BlankDropped()
    ensures Terminated([""]) == ["\n"] && Kept(["\n"]) == []
  {
    assert "" + "\n" == "\n";
  }

  /** Reading the kept lines of a written section: the blank line that ends
      it is dropped, every other line is kept with its newline. */
  lemma KeptSection(a: seq<string>, rest: seq<string>)
    requires forall k :: 0 <= k < |a| ==> |a[k]| >= 2
    ensures Kept(Terminated(a + [""] + rest)) == Terminated(a) + Kept(Terminated(rest))
  {
    var ta, tr := Terminated(a), Terminated(rest);
    calc {
      Kept(Terminated(a + [""] + rest));
    == { TerminatedAppend(a + [""], rest); TerminatedAppend(a, [""]); BlankDropped(); }
      Kept(ta + ["\n"] + tr);
    == { KeptAppend(ta + ["\n"], tr); }
      Kept(ta + ["\n"]) + Kept(tr);
    == { KeptAppend(ta, ["\n"]); BlankDropped(); assert Kept(ta) + [] == Kept(ta); }
      Kept(ta) + Kept(tr);
    == { KeptLong(ta); }
      ta + Kept(tr);
    }
  }

  /** The tasks of a dictionary, in order. */
  function Tasks(d: seq<(string, Task)>): (r: seq<Task>)
    ensures |r| == |d| && forall k :: 0 <= k < |d| ==> r[k] == d[k].1
  {
    seq(|d|, k requires 0 <= k < |d| => d[k].1)
  }

  /** Reading the written tasks back gives the dictionary back. */
  lemma TaskDictOfTasks(d: Dict)
    requires KeysNamed(d)
    ensures TaskDict(Tasks(d)) == d
  {
    assert Named(Tasks(d)) == d;
    FromPairsDistinct(d);
  }

  /** Record lines as written: long enough to be kept and free of newlines. */
  predicate Plain(lines: seq<string>)
  {
    forall k :: 0 <= k < |lines| ==> |lines[k]| >= 7 && NoChar(lines[k], '\n')
  }

  /** Lines that start with a parenthesis and read, one by one, as `vals`. */
  ghost predicate ReadsAs<T>(lines: seq<string>, read: string -> Result<T>, vals: seq<T>)
  {
    |lines| == |vals|
    && forall k :: 0 <= k < |lines| ==> |lines[k]| > 0 && lines[k][0] == '(' && read(lines[k]) == Ok(vals[k])
  }

  /** Line `k`, written without its newline, is plain and reads, with it, as `vals[k]`. */
  ghost predicate LineReads<T>(lines: seq<string>, k: int, read: string -> Result<T>, vals: seq<T>)
  {
    && 0 <= k < |lines| && k < |vals|
    && |lines[k]| >= 7 && NoChar(lines[k], '\n') && lines[k][0] == '('
    && read(lines[k] + "\n") == Ok(vals[k])
  }

  /** Line `k` is `line`, which reads, with its newline, as `vals[k]`. */
  lemma LineReadsAt<T>(lines: seq<string>, k: int, read: string -> Result<T>, vals: seq<T>, line: string)
    requires 0 <= k < |lines| && k < |vals| && lines[k] == line
    requires |line| >= 7 && NoChar(line, '\n') && line[0] == '(' && read(line + "\n") == Ok(vals[k])
    ensures LineReads(lines, k, read, vals)
  {
  }

  /** Lines that each read as their value are plain and, terminated, read as the values. */
  lemma LinesRead<T>(lines: seq<string>, read: string -> Result<T>, vals: seq<T>)
    requires |lines| == |vals| && forall k :: 0 <= k < |lines| ==> LineReads(lines, k, read, vals)
    ensures Plain(lines) && ReadsAs(Terminated(lines), read, vals)
  {
    forall k | 0 <= k < |lines|
      ensures |lines[k]| >= 7 && NoChar(lines[k], '\n')
      ensures Terminated(lines)[k][0] == '(' && read(Terminated(lines)[k]) == Ok(vals[k])
    {
      assert LineReads(lines, k, read, vals);
    }
  }

  /** The written lines of the tasks of `d` each read back as their task. */
  lemma TaskLinesRead(d: seq<(string, Task)>, time: seq<Entry>, now: Stamp)
    requires forall k :: 0 <= k < |d| ==> ReadableTask(d[k].1, time, now)
    ensures Plain(TaskLines(d, time, now))
    ensures ReadsAs(Terminated(TaskLines(d, time, now)), TaskFromString, Tasks(d))
  {
    var ls, ts := TaskLines(d, time, now), Tasks(d);
    forall k | 0 <= k < |ls|
      ensures LineReads(ls, k, TaskFromString, ts)
    {
      TaskLineRead(d[k].1, time, now);
      LineReadsAt(ls, k, TaskFromString, ts, TaskLine(d[k].1, time, now));
    }
    LinesRead(ls, TaskFromString, ts);
  }

  /** One written task line, with its newline, reads back as its task. */
  lemma TaskLineRead(t: Task, time: seq<Entry>, now: Stamp)
    requires ReadableTask(t, time, now)
    ensures var s := TaskLine(t, time, now);
      |s| >= 7 && NoChar(s, '\n') && (s + "\n")[0] == '(' && TaskFromString(s + "\n") == Ok(t)
  {
    TaskLineShape(t, time, now);
    TaskRoundTrip(t, time, now, "\n");
  }

  /** The written lines of the entries each read back as their entry. */
  lemma EntryLinesRead(es: seq<Entry>, now: Stamp)
    requires forall k :: 0 <= k < |es| ==> ReadableEntry(es[k], now)
    ensures Plain(EntryLines(es, now))
    ensures ReadsAs(Terminated(EntryLines(es, now)), EntryFromString, es)
  {
    var ls := EntryLines(es, now);
    forall k | 0 <= k < |ls|
      ensures LineReads(ls, k, EntryFromString, es)
    {
      EntryLineRead(es[k], now);
      LineReadsAt(ls, k, EntryFromString, es, EntryLine(es[k], now));
    }
    LinesRead(ls, EntryFromString, es);
  }

  /** One written entry line, with its newline, reads back as its entry. */
  lemma EntryLineRead(e: Entry, now: Stamp)
    requires ReadableEntry(e, now)
    ensures var s := EntryLine(e, now);
      |s| >= 7 && NoChar(s, '\n') && (s + "\n")[0] == '(' && EntryFromString(s + "\n") == Ok(e)
  {
    EntryLineShape(e, now);
    EntryRoundTrip(e, now, "\n");
  }

  /** `n` lines from `i` that read, closed by the header of `word` and a
      rule: the section gives their values and resumes after the rule. */
  lemma SectionThrough<T>(ls: seq<string>, i: nat, n: nat, word: string, final: bool,
                          read: string -> Result<T>, vals: seq<T>)
    requires i + n + 1 < |ls|
    requires ReadsAs(ls[i..i + n], read, vals)
    requires HeaderLine(ls[i + n], word) && RuleLine(ls[i + n + 1])
    ensures Section(ls, i, word, final, read) == Ok((vals, i + n + 2))
  {
    var h := i + n;
    forall k | i <= k < h
      ensures !HeaderLine(ls[k], word) && read(ls[k]).Ok?
    {
      assert ls[k] == ls[i..h][k - i];
      ParenNotHeader(ls[k], word);
    }
    SectionStops(ls, i, h, word, final, read);
    var v := Values(ls[i..h], read);
    assert forall k :: 0 <= k < |v| ==> v[k] == vals[k];
    assert v == vals;
  }

  /** The last section: lines from `i` that read, up to the end of the input. */
  lemma SectionToEnd<T>(ls: seq<string>, i: nat, word: string, read: string -> Result<T>, vals: seq<T>)
    requires i <= |ls|
    requires ReadsAs(ls[i..], read, vals)
    ensures Section(ls, i, word, true, read) == Ok((vals, |ls|))
  {
    forall k | i <= k < |ls|
      ensures !HeaderLine(ls[k], word) && read(ls[k]).Ok?
    {
      assert ls[k] == ls[i..][k - i];
      ParenNotHeader(ls[k], word);
    }
    SectionRuns(ls, i, word, true, read);
    var v := Values(ls[i..], read);
    assert forall k :: 0 <= k < |v| ==> v[k] == vals[k];
    assert v == vals;
  }

  /** The title line and the rule that open a section, with their newlines. */
  function Opening(title: string): seq<string>
  {
    [Center(title, Width) + "\n", Repeat('-', Width) + "\n"]
  }

  /** The two lines that open a section: the header of `word` and a rule. */
  predicate Opens(o: seq<string>, word: string)
  {
    |o| == 2 && HeaderLine(o[0], word) && RuleLine(o[1])
  }

  /** The three sections of a written sheet, as `from_file` keeps them, read
      one after the other with the task reader `rt` and the entry reader
      `re`: Todo up to the Time header, Time up to the Done header, Done up
      to the end. */
  lemma WrittenSections(o1: seq<string>, t1: seq<string>, o2: seq<string>, es: seq<string>,
                        o3: seq<string>, t2: seq<string>,
                        rt: string -> Result<Task>, re: string -> Result<Entry>,
                        todo: seq<Task>, time: seq<Entry>, done: seq<Task>)
    requires |o1| == 2 && Opens(o2, "Time") && Opens(o3, "Done")
    requires ReadsAs(t1, rt, todo)
    requires ReadsAs(es, re, time)
    requires ReadsAs(t2, rt, done)
    ensures var ls := (o1 + t1) + (o2 + es) + (o3 + t2);
            && ls[0] == o1[0] && ls[1] == o1[1]
            && Section(ls, 2, "Time", false, rt) == Ok((todo, 2 + |t1| + 2))
            && Section(ls, 2 + |t1| + 2, "Done", false, re) == Ok((time, 2 + |t1| + 2 + |es| + 2))
            && Section(ls, 2 + |t1| + 2 + |es| + 2, "None", true, rt) == Ok((done, |ls|))
  {
    var ls := (o1 + t1) + (o2 + es) + (o3 + t2);
    var p := 2 + |t1| + 2;
    var q := p + |es| + 2;
    assert ls[2..2 + |t1|] == t1;
    assert ls[2 + |t1|] == o2[0] && ls[2 + |t1| + 1] == o2[1];
    SectionThrough(ls, 2, |t1|, "Time", false, rt, todo);
    assert ls[p..p + |es|] == es;
    assert ls[p + |es|] == o3[0] && ls[p + |es| + 1] == o3[1];
    SectionThrough(ls, p, |es|, "Done", false, re, time);
    assert ls[q..] == t2;
    SectionToEnd(ls, q, "None", rt, done);
  }

  /** The opening of a written section is the header of its title and a rule. */
  lemma OpeningShape(title: string)
    requires |title| == 4 && title[0] != ' ' && NoChar(title, '\n')
    ensures Opens(Opening(title), title)
  {
    TitleHeader(title);
    RuleShape();
  }

  /** The lines kept from a written sheet are the openings and the record
      lines of its sections, each with its newline. */
  lemma SheetKept(l: Ledger, now: Stamp)
    requires Plain(TaskLines(l.todo, l.time, now))
    requires Plain(EntryLines(l.time, now))
    requires Plain(TaskLines(l.done, l.time, now))
    ensures Kept(FileLines(SheetText(l, now)))
            == (Opening("Todo") + Terminated(TaskLines(l.todo, l.time, now)))
               + (Opening("Time") + Terminated(EntryLines(l.time, now)))
               + (Opening("Done") + Terminated(TaskLines(l.done, l.time, now)))
  {
    KeptSheet("Todo", "Time", "Done", TaskLines(l.todo, l.time, now), EntryLines(l.time, now), TaskLines(l.done, l.time, now));
  }

  /** The openings of the three sections: each a header of its title and a rule. */
  lemma Openings()
    ensures Opens(Opening("Todo"), "Todo") && Opens(Opening("Time"), "Time") && Opens(Opening("Done"), "Done")
  {
    OpeningShape("Todo");
    OpeningShape("Time");
    OpeningShape("Done");
  }

  /** The written layout, kept: the Todo opening `o1`, task lines `t1`, the
      Time opening `o2`, entry lines `es`, the Done opening `o3` and task
      lines `t2` read section by section as the tasks and entries the
      record lines read as. */
  lemma LayoutRead(ls: seq<string>, o1: seq<string>, t1: seq<string>, o2: seq<string>, es: seq<string>,
                   o3: seq<string>, t2: seq<string>, rt: string -> Result<Task>, re: string -> Result<Entry>,
                   todo: seq<Task>, time: seq<Entry>, done: seq<Task>)
    requires ls == (o1 + t1) + (o2 + es) + (o3 + t2)
    requires Opens(o1, "Todo") && Opens(o2, "Time") && Opens(o3, "Done")
    requires ReadsAs(t1, rt, todo)
    requires ReadsAs(es, re, time)
    requires ReadsAs(t2, rt, done)
    ensures SheetSections(ls, rt, re) == Ok((todo, time, done))
  {
    WrittenSections(o1, t1, o2, es, o3, t2, rt, re, todo, time, done);
  }

  /** The kept lines of a written sheet read section by section as its
      tasks and entries, when every record line reads back as its record. */
  lemma SheetLayout(l: Ledger, now: Stamp)
    requires forall k :: 0 <= k < |l.todo| ==> ReadableTask(l.todo[k].1, l.time, now)
    requires forall k :: 0 <= k < |l.done| ==> ReadableTask(l.done[k].1, l.time, now)
    requires forall k :: 0 <= k < |l.time| ==> ReadableEntry(l.time[k], now)
    ensures SheetSections(Kept(FileLines(SheetText(l, now))), TaskFromString, EntryFromString)
            == Ok((Tasks(l.todo), l.time, Tasks(l.done)))
  {
    TaskLinesRead(l.todo, l.time, now);
    EntryLinesRead(l.time, now);
    TaskLinesRead(l.done, l.time, now);
    SheetKept(l, now);
    Openings();
    LayoutRead(Kept(FileLines(SheetText(l, now))), Opening("Todo"), Terminated(TaskLines(l.todo, l.time, now)),
               Opening("Time"), Terminated(EntryLines(l.time, now)),
               Opening("Done"), Terminated(TaskLines(l.done, l.time, now)),
               TaskFromString, EntryFromString, Tasks(l.todo), l.time, Tasks(l.done));
  }

  /** A ledger whose sections the kept lines read as is what `from_file`
      gives back, when it is valid. */
  lemma ParsedAs(lines: seq<string>, l: Ledger)
    requires Valid(l)
    requires SheetSections(Kept(lines), TaskFromString, EntryFromString) == Ok((Tasks(l.todo), l.time, Tasks(l.done)))
    ensures ParseSheet(lines) == Ok(l)
  {
    TaskDictOfTasks(l.todo);
    TaskDictOfTasks(l.done);
  }

  /** Writing a valid sheet and reading the text back gives the same sheet,
      when every name and tag can be read back and every total stays under
      one hundred hours. */
  lemma SheetRoundTrip(l: Ledger, now: Stamp)
    requires Valid(l)
    requires forall k :: 0 <= k < |l.todo| ==> ReadableTask(l.todo[k].1, l.time, now)
    requires forall k :: 0 <= k < |l.done| ==> ReadableTask(l.done[k].1, l.time, now)
    requires forall k :: 0 <= k < |l.time| ==> ReadableEntry(l.time[k], now)
    ensures ParseSheet(FileLines(SheetText(l, now))) == Ok(l)
  {
    SheetLayout(l, now);
    ParsedAs(FileLines(SheetText(l, now)), l);
  }

  /** A section as written: its title, its rule and its record lines. */
  function Block(title: string, lines: seq<string>): seq<string>
  {
    [Center(title, Width), Repeat('-', Width)] + lines
  }

  /** The lines of a section as written hold no newline, are long enough to
      be kept, and come back with a newline each. */
  lemma BlockShape(title: string, lines: seq<string>)
    requires |title| == 4 && title[0] != ' ' && NoChar(title, '\n')
    requires Plain(lines)
    ensures Short(Block(title, lines))
    ensures forall k :: 0 <= k < |Block(title, lines)| ==> |Block(title, lines)[k]| > 2
    ensures Terminated(Block(title, lines)) == Opening(title) + Terminated(lines)
  {
    TitleHeader(title);
    RuleShape();
    TerminatedAppend([Center(title, Width), Repeat('-', Width)], lines);
  }

  /** Lines free of newlines and at least two characters long. */
  predicate Short(a: seq<string>)
  {
    forall k :: 0 <= k < |a| ==> |a[k]| >= 2 && NoChar(a[k], '\n')
  }

  /** Blocks of newline-free lines with blank lines between them hold no
      newline. */
  lemma ShortBody(a: seq<string>, b: seq<string>, c: seq<string>)
    requires Short(a) && Short(b) && Short(c)
    ensures forall s :: s in a + [""] + b + [""] + c ==> NoChar(s, '\n')
  {
    var body := a + [""] + b + [""] + c;
    forall s | s in body
      ensures NoChar(s, '\n')
    {
      var k :| 0 <= k < |body| && body[k] == s;
      if k < |a| {
        assert s == a[k];
      } else if k == |a| {
        assert s == "";
      } else if k < |a| + 1 + |b| {
        assert s == b[k - |a| - 1];
      } else if k == |a| + 1 + |b| {
        assert s == "";
      } else {
        assert s == c[k - |a| - |b| - 2];
      }
    }
  }

  /** Three blocks each followed by `e`, regrouped. */
  lemma Regroup<T>(a: seq<T>, b: seq<T>, c: seq<T>, e: T)
    ensures (a + [e]) + (b + [e]) + (c + [e]) == (a + [e] + b + [e] + c) + [e]
    ensures a + [e] + b + [e] + c == a + [e] + (b + [e] + c)
  {
  }

  lemma SeqAssoc<T>(x: seq<T>, y: seq<T>, z: seq<T>)
    ensures x + (y + z) == x + y + z
  {
  }

  /** Blocks of newline-free lines, each followed by a blank line and joined
      with newlines, read back line by line: every line of the blocks and
      the blanks between them, each with its newline. */
  lemma JoinedBlocks(a: seq<string>, b: seq<string>, c: seq<string>)
    requires Short(a) && Short(b) && Short(c)
    ensures FileLines(Join((a + [""]) + (b + [""]) + (c + [""]), "\n")) == Terminated(a + [""] + (b + [""] + c))
  {
    Regroup(a, b, c, "");
    ShortBody(a, b, c);
    FileLinesOfJoin(a + [""] + b + [""] + c);
  }

  /** The written lines of three blocks with blank lines between them, kept:
      the blanks are dropped. */
  lemma KeptBlockLines(a: seq<string>, b: seq<string>, c: seq<string>)
    requires Short(a) && Short(b) && Short(c)
    requires forall k :: 0 <= k < |c| ==> |c[k]| > 2
    ensures Kept(Terminated(a + [""] + (b + [""] + c))) == Terminated(a) + Terminated(b) + Terminated(c)
  {
    calc {
      Kept(Terminated(a + [""] + (b + [""] + c)));
    == { KeptSection(a, b + [""] + c); }
      Terminated(a) + Kept(Terminated(b + [""] + c));
    == { KeptSection(b, c); }
      Terminated(a) + (Terminated(b) + Kept(Terminated(c)));
    == { KeptLong(Terminated(c)); }
      Terminated(a) + (Terminated(b) + Terminated(c));
    == { SeqAssoc(Terminated(a), Terminated(b), Terminated(c)); }
      Terminated(a) + Terminated(b) + Terminated(c);
    }
  }

  /** Three blocks of newline-free lines, each followed by a blank line and
      joined with newlines: the lines kept on reading are the blocks' lines,
      each with its newline. */
  lemma KeptBlocks(a: seq<string>, b: seq<string>, c: seq<string>)
    requires Short(a) && Short(b) && Short(c)
    requires forall k :: 0 <= k < |c| ==> |c[k]| > 2
    ensures Kept(FileLines(Join((a + [""]) + (b + [""]) + (c + [""]), "\n"))) == Terminated(a) + Terminated(b) + Terminated(c)
  {
    JoinedBlocks(a, b, c);
    KeptBlockLines(a, b, c);
  }

  /** A title `TitleHeader` can centre: four characters, the first no space. */
  predicate Title(title: string)
  {
    |title| == 4 && title[0] != ' ' && NoChar(title, '\n')
  }

  /** The lines `from_file` keeps from a written sheet whose sections are
      titled `n1`, `n2`, `n3` and whose record lines are `x`, `y` and `z`:
      every line of the three sections but the blank ones, each with its
      newline. */
  lemma KeptSheet(n1: string, n2: string, n3: string, x: seq<string>, y: seq<string>, z: seq<string>)
    requires Title(n1) && Title(n2) && Title(n3)
    requires Plain(x) && Plain(y) && Plain(z)
    ensures Kept(FileLines(Join(SectionLines(n1, x) + SectionLines(n2, y) + SectionLines(n3, z), "\n")))
            == (Opening(n1) + Terminated(x)) + (Opening(n2) + Terminated(y)) + (Opening(n3) + Terminated(z))
  {
    var a, b, c := Block(n1, x), Block(n2, y), Block(n3, z);
    BlockShape(n1, x);
    BlockShape(n2, y);
    BlockShape(n3, z);
    KeptBlocks(a, b, c);
  }
}
