/** The facts a line scan establishes about a rendered line: where a piece
    of text occurs, and what each field group of a task line gives. */
module RecordLines {
  import opened Wrappers
  import opened Text
  import opened Times
  import opened Records

  /** `x` occurs in `s` at index `i`. */
  predicate At(s: string, i: nat, x: string)
  {
    i + |x| <= |s| && forall k :: 0 <= k < |x| ==> s[i + k] == x[k]
  }

  /** What `fmt_delta` writes for a total under one hundred hours: `(HH:MM)`. */
  predicate TotalToken(f: string)
  {
    && |f| == 7 && f[0] == '(' && IsDigit(f[1]) && IsDigit(f[2]) && f[3] == ':'
    && IsDigit(f[4]) && IsDigit(f[5]) && f[6] == ')'
  }

  /** The line ends at `i`, or has its newline there and ends after it. */
  predicate LineEndAt(s: string, i: nat)
  {
    i == |s| || (i + 1 == |s| && s[i] == '\n')
  }

  /** What may follow a name on a rendered line: the end of the line, its
      newline, or the gap before the next field. */
  predicate NameStops(s: string, e: nat)
  {
    LineEndAt(s, e) || (e + 1 < |s| && s[e] == ' ' && s[e + 1] == ' ')
  }

  /** The head of a line has been read up to the end of the name at `e`. */
  predicate HeadRead(s: string, e: nat, name: string)
  {
    && 12 <= e <= |s| && SkipSpaces(s, TotalEnd(s)) == 10 && NameEnd(s, 10) == e
    && At(s, 10, name) && e == 10 + |name|
  }

  /** What the deadline group of a task line gives: nothing, the scan going
      on at `e`; or the field `x` from `e` to `pos`. */
  predicate DeadlineCase(s: string, e: nat, pos: nat, x: string, dl: Option<Stamp>)
  {
    if dl.None? then e == pos <= |s| && DeadlineEnd(s, e).None?
    else e <= |s| && DeadlineEnd(s, e) == Some(pos) && At(s, e, x) && pos == e + |x|
  }

  /** What the tags group of a task line gives: nothing, and no tags; or a
      field `y` from `pos` to `te` that splits into the tags. */
  predicate TagsCase(s: string, pos: nat, te: nat, y: string, tags: seq<string>)
  {
    if |tags| == 0 then pos <= |s| && TagsEnd(s, pos).None?
    else
      && pos <= |s| && TagsEnd(s, pos) == Some(te)
      && At(s, pos, y) && te == pos + |y| && Split(Strip(y), ", ") == tags
  }

  /** `j` is the tags field that splits into `tags`: a `[\w ,]` run that
      starts and ends with a word character. */
  predicate TagsText(j: string, tags: seq<string>)
  {
    && |j| > 0 && IsWord(j[0]) && IsWord(j[|j| - 1])
    && (forall k :: 0 <= k < |j| ==> IsTagChar(j[k]))
    && Split(j, ", ") == tags
  }

  /** A task line whose head, deadline and tags have all been scanned as
      `t`'s, the deadline field (if any) being `x`. */
  predicate Scanned(s: string, e: nat, t: Task, pos: nat, x: string, te: nat, y: string)
  {
    HeadRead(s, e, t.name) && DeadlineCase(s, e, pos, x, t.deadline) && TagsCase(s, pos, te, y, t.tags)
  }

  ghost predicate TaskScanned(s: string, t: Task, x: string)
  {
    exists e: nat, pos: nat, te: nat, y: string :: Scanned(s, e, t, pos, x, te, y)
  }

  /** The start field of an entry line: after a gap of two or more
      whitespace characters from `e`, the date token `fs` from `q` to `d`. */
  predicate StartRead(s: string, e: nat, q: nat, d: nat, fs: string)
  {
    && d <= |s| && e + 2 <= q <= d && SkipSpaces(s, e) == q
    && DateEnd(s, q) == Some(d) && q + |fs| == d && At(s, q, fs)
  }

  /** The end field of an entry line: after a gap from `d`, the field `fe`
      from `q2` to `d2`, which is `--` exactly when the entry is open. */
  predicate EndRead(s: string, d: nat, q2: nat, d2: nat, fe: string, open: bool)
  {
    && d2 <= |s| && d + 2 <= q2 <= d2 && SkipSpaces(s, d) == q2
    && q2 + |fe| == d2 && At(s, q2, fe)
    && if open then fe == "--" else DateEnd(s, q2) == Some(d2) && s[q2] != '-'
  }

  predicate EntryScannedAt(s: string, e: nat, q: nat, d: nat, q2: nat, d2: nat,
                           task: string, fs: string, fe: string, open: bool)
  {
    HeadRead(s, e, task) && StartRead(s, e, q, d, fs) && EndRead(s, d, q2, d2, fe, open)
  }

  /** An entry line whose task, start field `fs` and end field `fe` have been located. */
  ghost predicate EntryScanned(s: string, task: string, fs: string, fe: string, open: bool)
  {
    exists e: nat, q: nat, d: nat, q2: nat, d2: nat :: EntryScannedAt(s, e, q, d, q2, d2, task, fs, fe, open)
  }
}
