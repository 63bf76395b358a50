/** The text form of a sheet. `__str__` writes three sections, Todo, Time
    and Done, each a title centred in 70 columns, a rule of 70 dashes, one
    line per record and a blank line. `from_file` skips the lines of at most
    two characters and reads the sections back one after the other from a
    single stream of lines. */
module Codec {
  import opened Wrappers
  import opened Text
  import opened Times
  import opened Records
  import opened Ledgers

  /** Width of the section titles and of the rules under them. */
  const Width: nat := 70

  /** `section(title, lines)` of `__str__`. */
  function SectionLines(title: string, lines: seq<string>): seq<string>
  {
    [Center(title, Width), Repeat('-', Width)] + lines + [""]
  }

  /** `t.to_string(self)` for each task of a dictionary, in order. */
  function TaskLines(d: seq<(string, Task)>, time: seq<Entry>, now: Stamp): seq<string>
  {
    seq(|d|, k requires 0 <= k < |d| => TaskLine(d[k].1, time, now))
  }

  /** `str(e)` for each entry of the log, in order. */
  function EntryLines(es: seq<Entry>, now: Stamp): seq<string>
  {
    seq(|es|, k requires 0 <= k < |es| => EntryLine(es[k], now))
  }

  /** The lines `__str__` joins: the Todo, Time and Done sections. */
  function SheetLines(l: Ledger, now: Stamp): seq<string>
  {
    SectionLines("Todo", TaskLines(l.todo, l.time, now))
    + SectionLines("Time", EntryLines(l.time, now))
    + SectionLines("Done", TaskLines(l.done, l.time, now))
  }

  /** `TymeSheet.__str__`; open entries count up to `now`. */
  function SheetText(l: Ledger, now: Stamp): string
  {
    Join(SheetLines(l, now), "\n")
  }

  /** The lines `from_file` reads: those longer than two characters. */
  function Kept(lines: seq<string>): (r: seq<string>)
    ensures forall k :: 0 <= k < |r| ==> |r[k]| > 2
  {
    if |lines| == 0 then []
    else (if |lines[0]| > 2 then [lines[0]] else []) + Kept(lines[1..])
  }

  /** End of the run of spaces that starts at `i`. */
  function Blanks(s: string, i: nat): (r: nat)
    requires i <= |s|
    ensures i <= r <= |s| && (r < |s| ==> s[r] != ' ')
    decreases |s| - i
  {
    if i < |s| && s[i] == ' ' then Blanks(s, i + 1) else i
  }

  /** `re.match(' {10,}' + word, line)` for a word that does not start with a
      space: ten or more spaces, then the word. */
  predicate HeaderLine(line: string, word: string)
  {
    var n := Blanks(line, 0);
    n >= 10 && n + |word| <= |line| && line[n..n + |word|] == word
  }

  /** `re.match('-{10,}', line)`: ten dashes or more at the start. */
  predicate RuleLine(line: string)
  {
    |line| >= 10 && forall k :: 0 <= k < 10 ==> line[k] == '-'
  }

  /** The `parse` generator of `from_file`, run from line `i` until it stops:
      the records read before the header of `word`, and the line after the
      rule under that header. Only the last section (`final`, whose break
      pattern is compiled from `None`) may also run to the end of the input.
      A header that ends the input makes the `next` inside the generator
      raise StopIteration, which Python turns into a RuntimeError. */
  function Section<T>(ls: seq<string>, i: nat, word: string, final: bool, read: string -> Result<T>)
    : (r: Result<(seq<T>, nat)>)
    requires i <= |ls|
    ensures r.Ok? ==> i <= r.value.1 <= |ls|
    decreases |ls| - i
  {
    if i == |ls| then
      if final then Ok(([], i)) else Err(ParseError("Missing section: " + word))
    else if HeaderLine(ls[i], word) then
      if i + 1 == |ls| then Err(RuntimeError("generator raised StopIteration"))
      else if !RuleLine(ls[i + 1]) then Err(ParseError("No line: " + ls[i + 1]))
      else Ok(([], i + 2))
    else match read(ls[i])
      case Err(e) => Err(e)
      case Ok(x) =>
        match Section(ls, i + 1, word, final, read)
        case Err(e) => Err(e)
        case Ok((xs, j)) => Ok(([x] + xs, j))
  }

  /** The tasks read from the Todo and Done sections, as the `OrderedDict`
      of `TymeSheet.__init__` files them. */
  function TaskDict(ts: seq<Task>): (r: Dict)
    ensures KeysNamed(r)
  {
    FromPairsNamed(Named(ts));
    FromPairs(Named(ts))
  }

  /** The `parse` generator of `TymeSheet.from_file` run over the kept lines
      `ls`: the Todo header and its rule, then the Todo, Time and Done
      sections, each resuming where the one before it stopped. The task
      reader `rt` and the entry reader `re` are the `line_class.from_string`
      that `parse` is given. */
  function SheetSections(ls: seq<string>, rt: string -> Result<Task>, re: string -> Result<Entry>)
    : (r: Result<(seq<Task>, seq<Entry>, seq<Task>)>)
    ensures r.Ok? ==> |ls| >= 2 && HeaderLine(ls[0], "Todo") && RuleLine(ls[1])
  {
    if |ls| == 0 then Err(StopIteration)
    else if !HeaderLine(ls[0], "Todo") then Err(ParseError("No Todo: " + ls[0]))
    else if |ls| == 1 then Err(StopIteration)
    else if !RuleLine(ls[1]) then Err(ParseError("No Todo line: " + ls[1]))
    else match Section(ls, 2, "Time", false, rt)
      case Err(e) => Err(e)
      case Ok((todo, i)) =>
        match Section(ls, i, "Done", false, re)
        case Err(e) => Err(e)
        case Ok((time, j)) =>
          match Section(ls, j, "None", true, rt)
          case Err(e) => Err(e)
          case Ok((done, _)) => Ok((todo, time, done))
  }

  /** `TymeSheet.from_file` over the lines of the file: the sections of the
      lines it keeps, filed into a sheet, then `_validate`. */
  function ParseSheet(lines: seq<string>): (r: Result<Ledger>)
  {
    match SheetSections(Kept(lines), TaskFromString, EntryFromString)
    case Err(e) => Err(e)
    case Ok((todo, time, done)) =>
      if OnlyLastOpen(time) then Ok(Ledger(TaskDict(todo), time, TaskDict(done)))
      else Err(ParseError("Unfinished nonfinal entry"))
  }

  /** The values of lines that all read. */
  function Values<T>(ls: seq<string>, read: string -> Result<T>): (r: seq<T>)
    requires forall k :: 0 <= k < |ls| ==> read(ls[k]).Ok?
    ensures |r| == |ls| && forall k :: 0 <= k < |ls| ==> read(ls[k]) == Ok(r[k])
  {
    if |ls| == 0 then [] else [read(ls[0]).value] + Values(ls[1..], read)
  }

  /** Lines `i` to `h` all read and none of them is the header of `word`. */
  predicate AllRead<T>(ls: seq<string>, i: nat, h: nat, word: string, read: string -> Result<T>)
    requires h <= |ls|
  {
    forall k :: i <= k < h ==> !HeaderLine(ls[k], word) && read(ls[k]).Ok?
  }

  /** Lines that all read and none of which is the header run the section to
      the end of the input: the last section ends there, any other one is
      missing its successor's header. */
  lemma {:induction false} SectionRuns<T>(ls: seq<string>, i: nat, word: string, final: bool, read: string -> Result<T>)
    requires i <= |ls|
    requires AllRead(ls, i, |ls|, word, read)
    ensures Section(ls, i, word, final, read)
            == if final then Ok((Values(ls[i..], read), |ls|)) else Err(ParseError("Missing section: " + word))
    decreases |ls| - i
  {
    if i < |ls| {
      SectionRuns(ls, i + 1, word, final, read);
      assert ls[i..][1..] == ls[i + 1..];
    }
  }

  /** Lines that all read up to the header of `word`, followed by its rule:
      the section gives their values and resumes after the rule. */
  lemma {:induction false} SectionStops<T>(ls: seq<string>, i: nat, h: nat, word: string, final: bool, read: string -> Result<T>)
    requires i <= h && h + 1 < |ls|
    requires HeaderLine(ls[h], word) && RuleLine(ls[h + 1])
    requires AllRead(ls, i, h, word, read)
    ensures Section(ls, i, word, final, read) == Ok((Values(ls[i..h], read), h + 2))
    decreases h - i
  {
    if i < h {
      SectionStops(ls, i + 1, h, word, final, read);
      assert ls[i..h][1..] == ls[i + 1..h];
    }
  }

  /** A sheet read from a file is valid: its tasks are filed under their own
      names and only its last entry may be open. */
  lemma ParsedValid(lines: seq<string>)
    requires ParseSheet(lines).Ok?
    ensures Valid(ParseSheet(lines).value)
  {
  }

  /** A sheet is read only when the first two kept lines are the Todo header
      and a rule. */
  lemma ParsedHeader(lines: seq<string>)
    requires ParseSheet(lines).Ok?
    ensures |Kept(lines)| >= 2 && HeaderLine(Kept(lines)[0], "Todo") && RuleLine(Kept(lines)[1])
  {
  }

  /** No Time header after the Todo rule, while every line there reads as a
      task: the Time section is missing. */
  lemma MissingTime(lines: seq<string>)
    requires var ls := Kept(lines);
             && |ls| >= 2 && HeaderLine(ls[0], "Todo") && RuleLine(ls[1])
             && AllRead(ls, 2, |ls|, "Time", TaskFromString)
    ensures ParseSheet(lines) == Err(ParseError("Missing section: " + "Time"))
  {
    SectionRuns(Kept(lines), 2, "Time", false, TaskFromString);
  }

  /** `SheetSections` with any readers: a Time section whose lines all read
      but which no Done header ends leaves the Done section missing. */
  lemma SectionsMissingDone(ls: seq<string>, h: nat, rt: string -> Result<Task>, re: string -> Result<Entry>)
    requires |ls| >= 2 && HeaderLine(ls[0], "Todo") && RuleLine(ls[1])
    requires 2 <= h && h + 1 < |ls| && HeaderLine(ls[h], "Time") && RuleLine(ls[h + 1])
    requires AllRead(ls, 2, h, "Time", rt)
    requires AllRead(ls, h + 2, |ls|, "Done", re)
    ensures SheetSections(ls, rt, re) == Err(ParseError("Missing section: " + "Done"))
  {
    SectionStops(ls, 2, h, "Time", false, rt);
    SectionRuns(ls, h + 2, "Done", false, re);
  }

  /** A Time section whose entries all read but which no Done header ends:
      the Done section is missing. */
  lemma MissingDone(lines: seq<string>, h: nat)
    requires var ls := Kept(lines);
             && |ls| >= 2 && HeaderLine(ls[0], "Todo") && RuleLine(ls[1])
             && 2 <= h && h + 1 < |ls| && HeaderLine(ls[h], "Time") && RuleLine(ls[h + 1])
             && AllRead(ls, 2, h, "Time", TaskFromString)
             && AllRead(ls, h + 2, |ls|, "Done", EntryFromString)
    ensures ParseSheet(lines) == Err(ParseError("Missing section: " + "Done"))
  {
    SectionsMissingDone(Kept(lines), h, TaskFromString, EntryFromString);
  }

  /** `Section` with the first `k` records already read. */
  function Prefixed<T>(xs: seq<T>, r: Result<(seq<T>, nat)>): Result<(seq<T>, nat)>
  {
    match r
    case Err(e) => Err(e)
    case Ok((ys, j)) => Ok((xs + ys, j))
  }

  /** The `parse` generator of `from_file`: a loop over the lines that stops
      at the header of `word`. */
  method ReadSection<T>(ls: seq<string>, i: nat, word: string, final: bool, read: string -> Result<T>)
    returns (r: Result<(seq<T>, nat)>)
    requires i <= |ls|
    ensures r == Section(ls, i, word, final, read)
  {
    var xs: seq<T> := [];
    var j := i;
    match Section(ls, i, word, final, read) {
      case Err(_) =>
      case Ok((ys, _)) =>
        assert [] + ys == ys;
    }
    while j < |ls|
      invariant i <= j <= |ls|
      invariant Section(ls, i, word, final, read) == Prefixed(xs, Section(ls, j, word, final, read))
      decreases |ls| - j
    {
      var line := ls[j];
      if HeaderLine(line, word) {
        if j + 1 == |ls| {
          return Err(RuntimeError("generator raised StopIteration"));
        }
        if !RuleLine(ls[j + 1]) {
          return Err(ParseError("No line: " + ls[j + 1]));
        }
        assert xs + [] == xs;
        return Ok((xs, j + 2));
      }
      match read(line) {
        case Err(e) =>
          return Err(e);
        case Ok(x) =>
          match Section(ls, j + 1, word, final, read) {
            case Err(_) =>
            case Ok((ys, _)) =>
              assert xs + ([x] + ys) == (xs + [x]) + ys;
          }
          xs := xs + [x];
      }
      j := j + 1;
    }
    if final {
      assert xs + [] == xs;
      return Ok((xs, j));
    }
    return Err(ParseError("Missing section: " + word));
  }
}
