/** The two record types of the ledger, one line each: a Task (a name, its
    tags and an optional deadline) and an Entry (a clock-in interval that
    refers to its task by name). Each renders to a line and is read back from
    a line by a field scanner that takes the place of the source's regular
    expressions: an optional `(HH:MM)` total, then fields separated by runs of
    two or more whitespace characters. */
module Records {
  import opened Wrappers
  import opened Text
  import opened Times

  datatype Task = Task(name: string, tags: seq<string>, deadline: Option<Stamp>)

  datatype Entry = Entry(task: string, start: Stamp, end: Option<Stamp>)

  /** `Task.__eq__`: two tasks are the same task when their names agree. */
  predicate SameTask(a: Task, b: Task)
  {
    a.name == b.name
  }

  /** Word runs joined by single spaces: what `(?:\w+[ ]?)+\w` matches when
      it is taken as far as it goes. */
  predicate Phrase(s: string)
  {
    && |s| > 0 && IsWord(s[0]) && IsWord(s[|s| - 1])
    && (forall k :: 0 <= k < |s| ==> IsWord(s[k]) || s[k] == ' ')
    && (forall a, b :: 0 <= a < |s| && 0 <= b < |s| && b == a + 1 ==> IsWord(s[a]) || IsWord(s[b]))
  }

  /** A name the line grammar can read: a phrase of at least two characters. */
  predicate TaskName(s: string)
  {
    |s| >= 2 && Phrase(s)
  }

  /** `Entry.__init__`: an entry may not end before it starts. */
  function NewEntry(task: string, start: Stamp, end: Option<Stamp>): (r: Result<Entry>)
    ensures r.Err? <==> end.Some? && Earlier(end.value, start)
    ensures r.Err? ==> r.error == TymeError("Entry cannot end before it begins!")
    ensures r.Ok? ==> r.value == Entry(task, start, end)
  {
    if end.Some? && Minutes(end.value) < Minutes(start) then
      EarlierIffFewerMinutes(end.value, start);
      Err(TymeError("Entry cannot end before it begins!"))
    else
      EarlierIffFewerMinutes(if end.Some? then end.value else start, start);
      Ok(Entry(task, start, end))
  }

  /** `Entry.time` in minutes; an open entry runs until `now`. */
  function EntryTime(e: Entry, now: Stamp): int
  {
    Minutes(if e.end.Some? then e.end.value else now) - Minutes(e.start)
  }

  /** `Task.entries`: the entries of the time log that refer to `name`, in order. */
  function Entries(name: string, time: seq<Entry>): (r: seq<Entry>)
    ensures forall e :: e in r <==> e in time && e.task == name
    ensures |r| <= |time|
  {
    if |time| == 0 then []
    else (if time[0].task == name then [time[0]] else []) + Entries(name, time[1..])
  }

  function SumTimes(es: seq<Entry>, now: Stamp): int
  {
    if |es| == 0 then 0 else EntryTime(es[0], now) + SumTimes(es[1..], now)
  }

  /** `Task.time`: the total time of the entries that refer to `name`. */
  function TaskTime(name: string, time: seq<Entry>, now: Stamp): int
  {
    SumTimes(Entries(name, time), now)
  }

  /** An entry that does not end before it starts, taken no earlier than
      it starts, lasts no negative time. */
  lemma EntryTimeNonNegative(e: Entry, now: Stamp)
    requires e.end.Some? ==> !Earlier(e.end.value, e.start)
    requires !Earlier(now, e.start)
    ensures EntryTime(e, now) >= 0
  {
    EarlierIffFewerMinutes(if e.end.Some? then e.end.value else now, e.start);
  }

  lemma {:induction false} EntriesAppend(name: string, a: seq<Entry>, b: seq<Entry>)
    ensures Entries(name, a + b) == Entries(name, a) + Entries(name, b)
  {
    if |a| > 0 {
      assert (a + b)[1..] == a[1..] + b;
      EntriesAppend(name, a[1..], b);
    } else {
      assert a + b == b;
    }
  }

  lemma {:induction false} SumTimesAppend(a: seq<Entry>, b: seq<Entry>, now: Stamp)
    ensures SumTimes(a + b, now) == SumTimes(a, now) + SumTimes(b, now)
  {
    if |a| > 0 {
      assert (a + b)[1..] == a[1..] + b;
      SumTimesAppend(a[1..], b, now);
    } else {
      assert a + b == b;
    }
  }

  /** A new entry in the log adds its time to the total of its own task and
      leaves every other task's total as it was. */
  lemma TaskTimeAppend(name: string, time: seq<Entry>, e: Entry, now: Stamp)
    ensures TaskTime(name, time + [e], now)
            == TaskTime(name, time, now) + (if e.task == name then EntryTime(e, now) else 0)
  {
    EntriesAppend(name, time, [e]);
    SumTimesAppend(Entries(name, time), Entries(name, [e]), now);
    assert Entries(name, [e]) == if e.task == name then [e] else [];
  }

  /** `Task.to_string`: the total, the name padded to 20 columns, the deadline
      padded to 11 columns and the comma-separated tags, joined by three
      spaces, with surrounding whitespace stripped. */
  function TaskLine(t: Task, time: seq<Entry>, now: Stamp): string
  {
    var total := FmtDelta(TaskTime(t.name, time, now));
    var deadline := PadRight(if t.deadline.Some? then FmtTime(t.deadline.value) else "", 11);
    Strip(total + "   " + PadRight(t.name, 20) + "   " + deadline + "   " + Join(t.tags, ", "))
  }

  /** `Entry.__str__`: the duration, the task padded to 20 columns, the start
      and the end (`--` while open), joined by three spaces. */
  function EntryLine(e: Entry, now: Stamp): string
  {
    FmtDelta(EntryTime(e, now)) + "   " + PadRight(e.task, 20) + "   " + FmtTime(e.start) + "   "
      + (if e.end.Some? then FmtTime(e.end.value) else "--")
  }

  /** The optional total `\(\d\d:\d\d\)` at the head of a line: 7 when it is
      there, else 0. */
  function TotalEnd(s: string): (r: nat)
    ensures r <= |s|
  {
    if |s| >= 7 && s[0] == '(' && IsDigit(s[1]) && IsDigit(s[2]) && s[3] == ':'
       && IsDigit(s[4]) && IsDigit(s[5]) && s[6] == ')'
    then 7 else 0
  }

  /** First index at or after `i` that is not a word character. */
  function WordEnd(s: string, i: nat): (r: nat)
    requires i <= |s|
    ensures i <= r <= |s|
    ensures r < |s| ==> !IsWord(s[r])
    decreases |s| - i
  {
    if i < |s| && IsWord(s[i]) then WordEnd(s, i + 1) else i
  }

  /** What `WordEnd` passes over is word characters. */
  lemma {:induction false} WordEndWords(s: string, i: nat)
    requires i <= |s|
    ensures forall k :: i <= k < WordEnd(s, i) ==> IsWord(s[k])
    decreases |s| - i
  {
    if i < |s| && IsWord(s[i]) {
      WordEndWords(s, i + 1);
    }
  }

  /** The phrase starting at `i` cannot be extended at `r`. */
  predicate PhraseStops(s: string, r: nat)
    requires r <= |s|
  {
    r == |s| || (!IsWord(s[r]) && !(s[r] == ' ' && r + 1 < |s| && IsWord(s[r + 1])))
  }

  /** End of the longest phrase starting at `i` (`i` itself when none does). */
  function NameEnd(s: string, i: nat): (r: nat)
    requires i <= |s|
    ensures i <= r <= |s|
    ensures r > i ==> PhraseStops(s, r)
    ensures r == i ==> i == |s| || !IsWord(s[i])
    decreases |s| - i
  {
    var j := WordEnd(s, i);
    if j == i then i
    else if j + 1 < |s| && s[j] == ' ' && IsWord(s[j + 1]) then NameEnd(s, j + 1)
    else j
  }

  /** What `NameEnd` passes over is a phrase. */
  lemma {:induction false} NameEndPhrase(s: string, i: nat)
    requires i <= |s|
    ensures NameEnd(s, i) > i ==> Phrase(s[i..NameEnd(s, i)])
    decreases |s| - i
  {
    var j := WordEnd(s, i);
    WordEndWords(s, i);
    if j == i {
    } else if j + 1 < |s| && s[j] == ' ' && IsWord(s[j + 1]) {
      NameEndPhrase(s, j + 1);
      PhraseJoin(s, i, j, NameEnd(s, j + 1));
    } else {
      assert forall k :: 0 <= k < j - i ==> s[i..j][k] == s[i + k];
    }
  }

  /** A word run, a space and a phrase make a phrase. */
  lemma PhraseJoin(s: string, i: nat, j: nat, r: nat)
    requires i < j && j + 1 < r <= |s|
    requires forall k :: i <= k < j ==> IsWord(s[k])
    requires s[j] == ' '
    requires Phrase(s[j + 1..r])
    ensures Phrase(s[i..r])
  {
    var p, q := s[i..r], s[j + 1..r];
    forall k | 0 <= k < |p|
      ensures p[k] == s[i + k]
    {
    }
    forall k | j + 1 - i <= k < |p|
      ensures p[k] == q[k - (j + 1 - i)]
    {
    }
    assert p[|p| - 1] == q[|q| - 1];
    forall k | 0 <= k < |p| - 1
      ensures IsWord(p[k]) || IsWord(p[k + 1])
    {
      if k == j - i {
        assert p[k + 1] == q[0];
      } else if k >= j + 1 - i {
        assert p[k] == q[k - (j + 1 - i)] && p[k + 1] == q[k + 1 - (j + 1 - i)];
      }
    }
  }

  /** `(\s\s+{date})?` at `i`: the end of the deadline group when there is one. */
  function DeadlineEnd(s: string, i: nat): (r: Option<nat>)
    requires i <= |s|
    ensures r.Some? ==> i + 2 < r.value <= |s|
  {
    var q := SkipSpaces(s, i);
    if q < i + 2 then None else DateEnd(s, q)
  }

  /** `[\w ,]` */
  predicate IsTagChar(c: char)
  {
    IsWord(c) || c == ' ' || c == ','
  }

  /** First index at or after `i` that is not a `[\w ,]` character. */
  function TagRunEnd(s: string, i: nat): (r: nat)
    requires i <= |s|
    ensures i <= r <= |s|
    ensures r < |s| ==> !IsTagChar(s[r])
    decreases |s| - i
  {
    if i < |s| && IsTagChar(s[i]) then TagRunEnd(s, i + 1) else i
  }

  /** What `TagRunEnd` passes over is `[\w ,]` characters. */
  lemma {:induction false} TagRunEndChars(s: string, i: nat)
    requires i <= |s|
    ensures forall k :: i <= k < TagRunEnd(s, i) ==> IsTagChar(s[k])
    decreases |s| - i
  {
    if i < |s| && IsTagChar(s[i]) {
      TagRunEndChars(s, i + 1);
    }
  }

  /** The index of the last word character in `s[lo..hi]`, if there is one. */
  function LastWord(s: string, lo: nat, hi: nat): (r: Option<nat>)
    requires hi <= |s|
    ensures r.Some? ==> lo <= r.value < hi && IsWord(s[r.value])
    decreases hi
  {
    if hi <= lo then None
    else if IsWord(s[hi - 1]) then Some(hi - 1)
    else LastWord(s, lo, hi - 1)
  }

  /** `LastWord` finds the last word character: none lies after the one it
      finds, and none lies in the range when it finds none. */
  lemma {:induction false} LastWordLast(s: string, lo: nat, hi: nat)
    requires hi <= |s|
    ensures LastWord(s, lo, hi).Some? ==> forall k :: LastWord(s, lo, hi).value < k < hi ==> !IsWord(s[k])
    ensures LastWord(s, lo, hi).None? ==> forall k :: lo <= k < hi ==> !IsWord(s[k])
    decreases hi
  {
    if hi > lo && !IsWord(s[hi - 1]) {
      LastWordLast(s, lo, hi - 1);
    }
  }

  /** `(\s\s+[\w ,]+\w)?` at `i`: the end of the tags group when there is one.
      The `[\w ,]` run is cut back to its last word character; a run whose
      only word character is its first needs the whitespace to give back a
      trailing space, which takes a whitespace run of three or more. */
  function TagsEnd(s: string, i: nat): (r: Option<nat>)
    requires i <= |s|
    ensures r.Some? ==> i + 2 < r.value <= |s| && IsWord(s[r.value - 1])
  {
    var q := SkipSpaces(s, i);
    if q < i + 2 then None
    else
      match LastWord(s, q + 1, TagRunEnd(s, q))
      case Some(k) => Some(k + 1)
      case None =>
        if q >= i + 3 && s[q - 1] == ' ' && q < |s| && IsWord(s[q]) then Some(q + 1) else None
  }

  /** The ParseError `Task.from_string` raises for a line it cannot match. */
  function BadTask(s: string): (r: Result<Task>)
    ensures r.Err? && r.error.ParseError?
  {
    Err(ParseError("Bad Task: " + s))
  }

  /** `Task.from_string`: an optional total, the name, then an optional
      deadline and optional tags, each after two or more whitespace
      characters; whatever follows is ignored. */
  function TaskFromString(s: string): (r: Result<Task>)
    ensures r.Err? ==> r.error == ParseError("Bad Task: " + s) || r.error.ValueError?
  {
    var p := SkipSpaces(s, TotalEnd(s));
    var e := NameEnd(s, p);
    if e < p + 2 then BadTask(s)
    else
      var dl := DeadlineEnd(s, e);
      var pos := if dl.Some? then dl.value else e;
      var tg := TagsEnd(s, pos);
      var tags := if tg.Some? then Split(Strip(s[pos..tg.value]), ", ") else [];
      match dl
      case None => Ok(Task(s[p..e], tags, None))
      case Some(d) =>
        match ParseTime(s[e..d])
        case Err(err) => Err(err)
        case Ok(t) => Ok(Task(s[p..e], tags, Some(t)))
  }

  /** The ParseError `Entry.from_string` raises for a line it cannot match. */
  function BadEntry(s: string): (r: Result<Entry>)
    ensures r.Err? && r.error.ParseError?
  {
    Err(ParseError("Cannot parse entry:\n" + s))
  }

  /** `Entry.from_string`: an optional total, the task name, the start and
      the end (`--` while open), each after two or more whitespace characters;
      whatever follows is ignored. */
  function EntryFromString(s: string): (r: Result<Entry>)
    ensures r.Ok? && r.value.end.Some? ==> !Earlier(r.value.end.value, r.value.start)
    ensures r.Err? ==> || r.error == ParseError("Cannot parse entry:\n" + s)
                       || r.error.ValueError?
                       || r.error == TymeError("Entry cannot end before it begins!")
  {
    var p := SkipSpaces(s, TotalEnd(s));
    var e := NameEnd(s, p);
    var q := SkipSpaces(s, e);
    if e < p + 2 || q < e + 2 then BadEntry(s)
    else EntryTimes(s, s[p..e], q)
  }

  /** The start and end fields of an entry line of `task`, the start field
      beginning at `q`. */
  function EntryTimes(s: string, task: string, q: nat): (r: Result<Entry>)
    requires q <= |s|
    ensures r.Ok? ==> r.value.task == task
    ensures r.Ok? && r.value.end.Some? ==> !Earlier(r.value.end.value, r.value.start)
    ensures r.Err? ==> || r.error == ParseError("Cannot parse entry:\n" + s)
                       || r.error.ValueError?
                       || r.error == TymeError("Entry cannot end before it begins!")
  {
    match DateEnd(s, q)
    case None => BadEntry(s)
    case Some(d) =>
      var q2 := SkipSpaces(s, d);
      if q2 < d + 2 then BadEntry(s)
      else if q2 + 2 <= |s| && s[q2] == '-' && s[q2 + 1] == '-' then
        match ParseTime(s[q..d])
        case Err(err) => Err(err)
        case Ok(start) => NewEntry(task, start, None)
      else match DateEnd(s, q2)
        case None => BadEntry(s)
        case Some(d2) =>
          match ParseTime(s[q..d])
          case Err(err) => Err(err)
          case Ok(start) =>
            match ParseTime(s[q2..d2])
            case Err(err) => Err(err)
            case Ok(end) => NewEntry(task, start, Some(end))
  }

  /** A task read from a line has a name the line grammar can read. */
  lemma TaskReadName(s: string)
    ensures TaskFromString(s).Ok? ==> TaskName(TaskFromString(s).value.name)
  {
    NameEndPhrase(s, SkipSpaces(s, TotalEnd(s)));
  }

  /** An entry read from a line names a task the line grammar can read. */
  lemma EntryReadName(s: string)
    ensures EntryFromString(s).Ok? ==> TaskName(EntryFromString(s).value.task)
  {
    NameEndPhrase(s, SkipSpaces(s, TotalEnd(s)));
  }
}
