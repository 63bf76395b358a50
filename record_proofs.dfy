/** Rendering a record and reading the line back gives the record back, for
    every record whose name and tags the line grammar can read and whose
    total stays under one hundred hours. */
module RecordProofs {
  import opened Wrappers
  import opened Text
  import opened Times
  import opened Records
  import opened RecordLines

  /** A tag that survives the comma-separated tags field. */
  predicate TagOk(t: string)
  {
    && |t| > 0 && IsWord(t[0]) && IsWord(t[|t| - 1])
    && forall k :: 0 <= k < |t| ==> IsWord(t[k]) || t[k] == ' '
  }

  /** A name and tags the task line grammar can read. */
  predicate ReadableTaskFields(t: Task)
  {
    TaskName(t.name) && forall tag :: tag in t.tags ==> TagOk(tag)
  }

  /** A task whose line reads back as the same task. */
  predicate ReadableTask(t: Task, time: seq<Entry>, now: Stamp)
  {
    ReadableTaskFields(t) && 0 <= TaskTime(t.name, time, now) < 6000
  }

  /** An entry whose line reads back as the same entry. */
  predicate ReadableEntry(e: Entry, now: Stamp)
  {
    && TaskName(e.task)
    && 0 <= EntryTime(e, now) < 6000
    && (e.end.Some? ==> !Earlier(e.end.value, e.start))
  }

  /** What may follow a rendered line: nothing, or its newline. */
  predicate LineBreak(nl: string)
  {
    nl == "" || nl == "\n"
  }

  lemma PhraseSuffix(s: string, i: nat, j: nat, m: nat)
    requires i < m < j <= |s| && Phrase(s[i..j]) && IsWord(s[m])
    ensures Phrase(s[m..j])
  {
    var p, q := s[i..j], s[m..j];
    forall k | 0 <= k < |q|
      ensures q[k] == p[k + (m - i)]
    {
    }
  }

  /** Inside a phrase, the first word run ends at a single space that
      another phrase follows. */
  lemma PhraseGap(s: string, i: nat, j: nat, w: nat)
    requires i < j <= |s| && Phrase(s[i..j]) && w == WordEnd(s, i) && w < j
    ensures w + 1 < j && s[w] == ' ' && IsWord(s[w + 1]) && Phrase(s[w + 1..j])
  {
    var p := s[i..j];
    assert p[w - i] == s[w];
    assert p[|p| - 1] == s[j - 1];
    assert p[w + 1 - i] == s[w + 1];
    PhraseSuffix(s, i, j, w + 1);
  }

  /** A phrase that is one word run ends the name where it ends. */
  lemma WordRunEnd(s: string, i: nat, j: nat)
    requires i < j <= |s| && Phrase(s[i..j]) && PhraseStops(s, j) && WordEnd(s, i) >= j
    ensures NameEnd(s, i) == j
  {
    var p := s[i..j];
    assert p[0] == s[i];
    WordEndWords(s, i);
    forall k | i <= k < j
      ensures IsWord(s[k])
    {
    }
  }

  /** The name scanner stops exactly at the end of a phrase that cannot go on. */
  lemma {:induction false} NameEndOfPhrase(s: string, i: nat, j: nat)
    requires i < j <= |s| && Phrase(s[i..j]) && PhraseStops(s, j)
    ensures NameEnd(s, i) == j
    decreases j - i
  {
    var w := WordEnd(s, i);
    if w < j {
      PhraseGap(s, i, j, w);
      assert s[i..j][0] == s[i];
      NameEndOfPhrase(s, w + 1, j);
    } else {
      WordRunEnd(s, i, j);
    }
  }

  /** An occurrence of spaces is a run of spaces in the line. */
  lemma AtSpaces(s: string, i: nat, w: string)
    requires At(s, i, w) && AllSpaces(w)
    ensures forall k :: i <= k < i + |w| ==> s[k] == ' '
  {
    forall k | i <= k < i + |w|
      ensures s[k] == ' '
    {
      assert s[i + (k - i)] == w[k - i];
    }
  }

  /** An occurrence of a `[\w ,]` run is such a run in the line. */
  lemma AtTagChars(s: string, i: nat, j: string)
    requires At(s, i, j) && forall k :: 0 <= k < |j| ==> IsTagChar(j[k])
    ensures forall k :: i <= k < i + |j| ==> IsTagChar(s[k])
  {
    forall k | i <= k < i + |j|
      ensures IsTagChar(s[k])
    {
      assert s[i + (k - i)] == j[k - i];
    }
  }

  /** An occurrence is a slice of the line. */
  lemma AtSlice(s: string, i: nat, j: nat, x: string)
    requires At(s, i, x) && j == i + |x|
    ensures s[i..j] == x
  {
    forall k | 0 <= k < |x|
      ensures s[i..j][k] == x[k]
    {
      assert s[i..j][k] == s[i + k];
    }
  }

  /** Two adjacent occurrences make an occurrence of the concatenation, and back. */
  lemma AtConcat(s: string, i: nat, a: string, b: string)
    ensures At(s, i, a + b) <==> At(s, i, a) && At(s, i + |a|, b)
  {
    if At(s, i, a + b) {
      forall k | 0 <= k < |a|
        ensures s[i + k] == a[k]
      {
        assert (a + b)[k] == a[k];
      }
      forall k | 0 <= k < |b|
        ensures s[i + |a| + k] == b[k]
      {
        assert s[i + (|a| + k)] == (a + b)[|a| + k];
      }
    }
    if At(s, i, a) && At(s, i + |a|, b) {
      forall k | 0 <= k < |a + b|
        ensures s[i + k] == (a + b)[k]
      {
        if k >= |a| {
          assert s[i + |a| + (k - |a|)] == b[k - |a|];
        }
      }
    }
  }

  /** A total under one hundred hours is written as `(HH:MM)`. */
  lemma FmtDeltaToken(m: int)
    requires 0 <= m < 6000
    ensures TotalToken(FmtDelta(m))
  {
    FmtDeltaChars(m);
  }

  /** The head of a rendered line: a total, three spaces, and a name that stops. */
  lemma ScanHead(s: string, total: string, name: string, e: nat)
    requires TotalToken(total) && TaskName(name) && e == 10 + |name|
    requires At(s, 0, total + "   ") && At(s, 10, name) && NameStops(s, e)
    ensures HeadRead(s, e, name)
  {
    AtConcat(s, 0, total, "   ");
    TotalAt(s, total);
    SepSpaces();
    AtSpaces(s, 7, "   ");
    assert s[10] == name[0];
    WordNotSpace(name[0]);
    SkipSpacesTo(s, 7, 10);
    AtSlice(s, 10, 10 + |name|, name);
    NameEndOfPhrase(s, 10, 10 + |name|);
  }

  /** A total at the head of a line is scanned as one. */
  lemma TotalAt(s: string, total: string)
    requires TotalToken(total) && At(s, 0, total)
    ensures TotalEnd(s) == 7
  {
    assert s[0] == total[0] && s[1] == total[1] && s[2] == total[2] && s[3] == total[3];
    assert s[4] == total[4] && s[5] == total[5] && s[6] == total[6];
  }

  /** Stripping the whitespace before a formatted timestamp and parsing it gives it back. */
  lemma ParseSpacedTime(w: string, d: Stamp)
    requires AllSpaces(w)
    ensures ParseTime(w + FmtTime(d)) == Ok(d)
  {
    var f := FmtTime(d);
    FmtTimeToken(d);
    assert w + f == w + f + "";
    StripSurrounded(w, f, "");
    ParseStrippedTime(w + f, d);
  }

  /** Whitespace skipping from `e` stops after the gap of spaces that starts there. */
  lemma SkipGap(s: string, e: nat, w: string)
    requires At(s, e, w) && AllSpaces(w) && e + |w| < |s| && !IsSpace(s[e + |w|])
    ensures SkipSpaces(s, e) == e + |w|
  {
    AtSpaces(s, e, w);
    SkipSpacesTo(s, e, e + |w|);
  }

  /** A date token after a gap of two or more whitespace characters is a deadline field. */
  lemma DeadlineAt(s: string, e: nat, gap: nat, f: string)
    requires e <= |s| && gap >= 2 && e + gap + 11 <= |s| && DateToken(f)
    requires SkipSpaces(s, e) == e + gap
    requires At(s, e + gap, f)
    ensures DeadlineEnd(s, e) == Some(e + gap + 11)
  {
    DateSplitToken(s, e + gap, f);
  }

  /** A date token after two or more spaces is taken as the deadline field. */
  lemma ScanDeadline(s: string, e: nat, w: string, f: string)
    requires |w| >= 2 && AllSpaces(w) && DateToken(f)
    requires At(s, e, w) && At(s, e + |w|, f)
    ensures DeadlineEnd(s, e) == Some(e + |w| + 11)
  {
    assert s[e + |w|] == f[0];
    SkipGap(s, e, w);
    DeadlineAt(s, e, |w|, f);
  }

  /** No deadline is taken where no dash follows. */
  lemma ScanNoDeadline(s: string, e: nat)
    requires e <= |s|
    requires forall k :: e <= k < |s| ==> s[k] != '-'
    ensures DeadlineEnd(s, e).None?
  {
    var q := SkipSpaces(s, e);
    DateEndNeedsDash(s, q);
  }

  /** Nothing but the line's end at `e`: no deadline and no tags. */
  lemma ScanLineEnd(s: string, e: nat, tags: seq<string>)
    requires e <= |s| && LineEndAt(s, e) && |tags| == 0
    ensures DeadlineEnd(s, e).None? && TagsCase(s, e, 0, [], tags)
  {
    assert |s| <= e + 1;
  }

  /** The tags, comma-joined, form a `[\w ,]` run that starts and ends with a word character. */
  lemma {:induction false} JoinedTags(tags: seq<string>)
    requires |tags| > 0 && forall t :: t in tags ==> TagOk(t)
    ensures var j := Join(tags, ", ");
      && |j| > 0 && IsWord(j[0]) && IsWord(j[|j| - 1])
      && forall k :: 0 <= k < |j| ==> IsTagChar(j[k])
    ensures forall t :: t in tags ==> NoChar(t, ',')
  {
    assert tags[0] in tags;
    if |tags| > 1 {
      JoinedTags(tags[1..]);
      var h, r := tags[0], Join(tags[1..], ", ");
      var j := h + ", " + r;
      assert Join(tags, ", ") == j;
      forall k | 0 <= k < |j|
        ensures IsTagChar(j[k])
      {
        if k < |h| {
          assert j[k] == h[k];
        } else if k >= |h| + 2 {
          assert j[k] == r[k - |h| - 2];
        }
      }
      assert j[|j| - 1] == r[|r| - 1];
      forall t | t in tags
        ensures NoChar(t, ',')
      {
        if t != h {
          assert t in tags[1..];
        }
      }
    } else {
      assert Join(tags, ", ") == tags[0];
    }
  }

  /** TagRunEnd stops at the first character outside `[\w ,]`. */
  lemma {:induction false} TagRunEndTo(s: string, i: nat, j: nat)
    requires i <= j <= |s|
    requires forall k :: i <= k < j ==> IsTagChar(s[k])
    requires j < |s| ==> !IsTagChar(s[j])
    ensures TagRunEnd(s, i) == j
    decreases j - i
  {
    if i < j {
      TagRunEndTo(s, i + 1, j);
    }
  }

  /** A `[\w ,]` run from `q` to `t` that starts and ends with a word
      character, after a gap of three or more spaces from `pos`, is a tags
      field. */
  lemma TagsAt(s: string, pos: nat, q: nat, t: nat)
    requires pos + 3 <= q < t <= |s|
    requires forall k :: pos <= k < q ==> s[k] == ' '
    requires forall k :: q <= k < t ==> IsTagChar(s[k])
    requires IsWord(s[q]) && IsWord(s[t - 1])
    requires t < |s| ==> s[t] == '\n'
    ensures TagsEnd(s, pos) == Some(t)
  {
    WordNotSpace(s[q]);
    SkipSpacesTo(s, pos, q);
    TagRunEndTo(s, q, t);
    if q + 1 < t {
      assert LastWord(s, q + 1, t) == Some(t - 1);
    } else {
      assert LastWord(s, q + 1, t) == None;
    }
  }

  /** Readable tags, comma-joined, are the tags field of themselves. */
  lemma JoinedTagsText(tags: seq<string>)
    requires |tags| > 0 && forall t :: t in tags ==> TagOk(t)
    ensures TagsText(Join(tags, ", "), tags)
  {
    JoinedTags(tags);
    SplitJoin(tags);
  }

  /** A tags field after three or more spaces is taken and splits back into the tags. */
  lemma ScanTags(s: string, pos: nat, w: string, j: string, tags: seq<string>)
    requires |w| >= 3 && AllSpaces(w) && TagsText(j, tags)
    requires At(s, pos, w) && At(s, pos + |w|, j) && LineEndAt(s, pos + |w| + |j|)
    ensures TagsCase(s, pos, pos + |w| + |j|, w + j, tags)
  {
    TagsFieldAt(s, pos, w, j);
    AtConcat(s, pos, w, j);
    StripTagsField(w, j);
  }

  /** The tags field after three or more spaces ends the `[\w ,]` run. */
  lemma TagsFieldAt(s: string, pos: nat, w: string, j: string)
    requires |w| >= 3 && AllSpaces(w)
    requires |j| > 0 && IsWord(j[0]) && IsWord(j[|j| - 1]) && forall k :: 0 <= k < |j| ==> IsTagChar(j[k])
    requires At(s, pos, w) && At(s, pos + |w|, j) && LineEndAt(s, pos + |w| + |j|)
    ensures TagsEnd(s, pos) == Some(pos + |w| + |j|)
  {
    var q := pos + |w|;
    AtSpaces(s, pos, w);
    AtTagChars(s, q, j);
    assert s[q] == j[0] && s[q + (|j| - 1)] == j[|j| - 1];
    TagsAt(s, pos, q, q + |j|);
  }

  /** Stripping the spaces before a tags field leaves the field. */
  lemma StripTagsField(w: string, j: string)
    requires AllSpaces(w) && |j| > 0 && IsWord(j[0]) && IsWord(j[|j| - 1])
    ensures Strip(w + j) == j
  {
    WordNotSpace(j[0]);
    WordNotSpace(j[|j| - 1]);
    StripSurrounded(w, j, "");
    assert w + j + "" == w + j;
  }

  /** Spaces, a tags field and the line's end hold no dash, so no deadline. */
  lemma NoDashAfter(s: string, e: nat, w: string, j: string, tags: seq<string>)
    requires AllSpaces(w) && TagsText(j, tags)
    requires At(s, e, w) && At(s, e + |w|, j) && LineEndAt(s, e + |w| + |j|)
    ensures DeadlineEnd(s, e).None?
  {
    AtSpaces(s, e, w);
    AtTagChars(s, e + |w|, j);
    forall k | e <= k < |s|
      ensures s[k] != '-'
    {
      if k >= e + |w| + |j| {
        assert s[k] == '\n';
      }
    }
    ScanNoDeadline(s, e);
  }

  lemma ScannedFrom(s: string, e: nat, t: Task, pos: nat, x: string, te: nat, y: string)
    requires HeadRead(s, e, t.name)
    requires DeadlineCase(s, e, pos, x, t.deadline)
    requires TagsCase(s, pos, te, y, t.tags)
    ensures TaskScanned(s, t, x)
  {
    assert Scanned(s, e, t, pos, x, te, y);
  }

  /** Reading a task line whose fields have been located, and whose deadline
      field (if any) parses as the deadline, gives the task. */
  lemma ReadTask(s: string, t: Task, x: string)
    requires TaskScanned(s, t, x)
    requires t.deadline.Some? ==> ParseTime(x) == Ok(t.deadline.value)
    ensures TaskFromString(s) == Ok(t)
  {
    var e: nat, pos: nat, te: nat, y: string :| Scanned(s, e, t, pos, x, te, y);
    HeadSlice(s, e, t.name);
    DeadlineSlice(s, e, pos, x, t.deadline);
    TagsSlice(s, pos, te, y, t.tags);
    TaskFields(s, e, pos, TagsEnd(s, pos), t.name, t.tags, t.deadline);
  }

  /** The head of a scanned line holds the name. */
  lemma HeadSlice(s: string, e: nat, name: string)
    requires HeadRead(s, e, name)
    ensures s[10..e] == name
  {
    AtSlice(s, 10, e, name);
  }

  /** The deadline group of a scanned line holds the deadline field. */
  lemma DeadlineSlice(s: string, e: nat, pos: nat, x: string, dl: Option<Stamp>)
    requires DeadlineCase(s, e, pos, x, dl)
    requires dl.Some? ==> ParseTime(x) == Ok(dl.value)
    ensures pos <= |s|
    ensures dl.None? ==> DeadlineEnd(s, e).None? && pos == e
    ensures dl.Some? ==> DeadlineEnd(s, e) == Some(pos) && e <= pos && ParseTime(s[e..pos]) == Ok(dl.value)
  {
    if dl.Some? {
      AtSlice(s, e, pos, x);
    }
  }

  /** The tags group of a scanned line holds the tags field. */
  lemma TagsSlice(s: string, pos: nat, te: nat, y: string, tags: seq<string>)
    requires TagsCase(s, pos, te, y, tags)
    ensures pos <= |s|
    ensures TagsEnd(s, pos).Some? ==> var tg := TagsEnd(s, pos).value;
      pos <= tg <= |s| && Split(Strip(s[pos..tg]), ", ") == tags
    ensures TagsEnd(s, pos).None? ==> tags == []
  {
    if |tags| > 0 {
      AtSlice(s, pos, te, y);
    }
  }

  /** What `Task.from_string` makes of a line, given where its scan stops
      and what the fields between those places read as. */
  lemma TaskFields(s: string, e: nat, pos: nat, tg: Option<nat>, name: string, tags: seq<string>,
                   dl: Option<Stamp>)
    requires SkipSpaces(s, TotalEnd(s)) == 10 && 12 <= e <= |s| && NameEnd(s, 10) == e
    requires s[10..e] == name
    requires dl.None? ==> DeadlineEnd(s, e).None? && pos == e
    requires dl.Some? ==> DeadlineEnd(s, e) == Some(pos) && ParseTime(s[e..pos]) == Ok(dl.value)
    requires pos <= |s| && TagsEnd(s, pos) == tg
    requires tg.Some? ==> tg.value <= |s| && Split(Strip(s[pos..tg.value]), ", ") == tags
    requires tg.None? ==> tags == []
    ensures TaskFromString(s) == Ok(Task(name, tags, dl))
  {
  }

  /** The head of a line followed by a gap of two or more spaces. */
  lemma HeadAt(s: string, total: string, name: string, e: nat, w: string)
    requires TotalToken(total) && TaskName(name) && e == 10 + |name| && |w| >= 2 && AllSpaces(w)
    requires At(s, 0, total + "   ") && At(s, 10, name) && At(s, e, w)
    ensures HeadRead(s, e, name)
  {
    GapStops(s, e, w);
    ScanHead(s, total, name, e);
  }

  /** After the name: tags and no deadline. */
  lemma TaggedGroups(s: string, e: nat, t: Task, w: string, j: string)
    requires |w| >= 3 && AllSpaces(w)
    requires t.deadline.None? && TagsText(j, t.tags)
    requires At(s, e, w) && At(s, e + |w|, j) && LineEndAt(s, e + |w| + |j|)
    ensures DeadlineCase(s, e, e, [], t.deadline)
    ensures TagsCase(s, e, e + |w| + |j|, w + j, t.tags)
  {
    NoDeadlineGroup(s, e, w, j, t.tags, t.deadline);
    ScanTags(s, e, w, j, t.tags);
  }

  /** After the name: a deadline and no tags. */
  lemma DatedGroups(s: string, e: nat, t: Task, w: string, f: string)
    requires |w| >= 2 && AllSpaces(w)
    requires t.deadline.Some? && DateToken(f) && |t.tags| == 0
    requires At(s, e, w) && At(s, e + |w|, f) && LineEndAt(s, e + |w| + 11)
    ensures DeadlineCase(s, e, e + |w| + 11, w + f, t.deadline)
    ensures TagsCase(s, e + |w| + 11, 0, [], t.tags)
  {
    DeadlineGroup(s, e, w, f, t.deadline);
    ScanLineEnd(s, e + |w| + 11, t.tags);
  }

  /** A date token after two or more spaces is the deadline group. */
  lemma DeadlineGroup(s: string, e: nat, w: string, f: string, dl: Option<Stamp>)
    requires |w| >= 2 && AllSpaces(w) && DateToken(f) && dl.Some?
    requires At(s, e, w) && At(s, e + |w|, f)
    ensures DeadlineCase(s, e, e + |w| + 11, w + f, dl)
  {
    ScanDeadline(s, e, w, f);
    AtConcat(s, e, w, f);
  }

  /** Tags and no date after the name: the deadline group is empty. */
  lemma NoDeadlineGroup(s: string, e: nat, w: string, j: string, tags: seq<string>, dl: Option<Stamp>)
    requires AllSpaces(w) && TagsText(j, tags) && dl.None?
    requires At(s, e, w) && At(s, e + |w|, j) && LineEndAt(s, e + |w| + |j|)
    ensures DeadlineCase(s, e, e, [], dl)
  {
    NoDashAfter(s, e, w, j, tags);
  }

  /** A line is an occurrence of itself. */
  lemma AtWhole(s: string)
    ensures At(s, 0, s)
  {
  }

  /** The gap after a name stops the name. */
  lemma GapStops(s: string, e: nat, w: string)
    requires |w| >= 2 && AllSpaces(w) && At(s, e, w)
    ensures NameStops(s, e)
  {
    assert s[e] == w[0] && s[e + 1] == w[1];
  }

  /** The separator `'   '.join` puts between fields. */
  lemma SepSpaces()
    ensures |"   "| == 3 && AllSpaces("   ")
  {
  }

  /** Where the fields of a line with a deadline and tags lie. */
  lemma DatedTaggedPieces(total: string, name: string, w1: string, f: string, w2: string, j: string, nl: string)
    requires |total| == 7 && |f| == 11 && LineBreak(nl)
    ensures var s := total + "   " + name + w1 + f + w2 + j + nl;
            var e := 10 + |name|;
            && At(s, 0, total + "   ") && At(s, 10, name) && At(s, e, w1) && At(s, e + |w1|, f)
            && At(s, e + |w1| + 11, w2) && At(s, e + |w1| + 11 + |w2|, j)
            && LineEndAt(s, e + |w1| + 11 + |w2| + |j|)
  {
    var s := total + "   " + name + w1 + f + w2 + j + nl;
    AtWhole(s);
    AtConcat(s, 0, total + "   " + name + w1 + f + w2 + j, nl);
    AtConcat(s, 0, total + "   " + name + w1 + f + w2, j);
    AtConcat(s, 0, total + "   " + name + w1 + f, w2);
    AtConcat(s, 0, total + "   " + name + w1, f);
    AtConcat(s, 0, total + "   " + name, w1);
    AtConcat(s, 0, total + "   ", name);
  }

  /** A line with a deadline and tags: its fields are located. */
  lemma DatedTaggedAt(s: string, total: string, t: Task, e: nat, w1: string, f: string, w2: string, j: string)
    requires TotalToken(total) && TaskName(t.name) && |w1| >= 2 && AllSpaces(w1) && |w2| >= 3 && AllSpaces(w2)
    requires t.deadline.Some? && DateToken(f) && TagsText(j, t.tags)
    requires e == 10 + |t.name|
    requires && At(s, 0, total + "   ") && At(s, 10, t.name) && At(s, e, w1) && At(s, e + |w1|, f)
             && At(s, e + |w1| + 11, w2) && At(s, e + |w1| + 11 + |w2|, j)
             && LineEndAt(s, e + |w1| + 11 + |w2| + |j|)
    ensures TaskScanned(s, t, w1 + f)
  {
    HeadAt(s, total, t.name, e, w1);
    DatedTaggedTail(s, t, e, w1, f, w2, j);
  }

  /** After a read head: a deadline and tags make the line scanned. */
  lemma DatedTaggedTail(s: string, t: Task, e: nat, w1: string, f: string, w2: string, j: string)
    requires HeadRead(s, e, t.name) && |w1| >= 2 && AllSpaces(w1) && |w2| >= 3 && AllSpaces(w2)
    requires t.deadline.Some? && DateToken(f) && TagsText(j, t.tags)
    requires At(s, e, w1) && At(s, e + |w1|, f) && At(s, e + |w1| + 11, w2) && At(s, e + |w1| + 11 + |w2|, j)
    requires LineEndAt(s, e + |w1| + 11 + |w2| + |j|)
    ensures TaskScanned(s, t, w1 + f)
  {
    var pos := e + |w1| + 11;
    DeadlineGroup(s, e, w1, f, t.deadline);
    ScanTags(s, pos, w2, j, t.tags);
    ScannedFrom(s, e, t, pos, w1 + f, pos + |w2| + |j|, w2 + j);
  }

  lemma DatedTaggedLine(total: string, t: Task, w1: string, f: string, j: string, nl: string)
    requires TotalToken(total) && TaskName(t.name) && |w1| >= 2 && AllSpaces(w1)
    requires t.deadline.Some? && DateToken(f) && TagsText(j, t.tags) && LineBreak(nl)
    ensures TaskScanned(total + "   " + t.name + w1 + f + "   " + j + nl, t, w1 + f)
  {
    DatedTaggedPieces(total, t.name, w1, f, "   ", j, nl);
    SepSpaces();
    DatedTaggedAt(total + "   " + t.name + w1 + f + "   " + j + nl, total, t, 10 + |t.name|, w1, f, "   ", j);
  }

  /** Where the fields of a line with tags and no deadline lie. */
  lemma TaggedPieces(total: string, name: string, w: string, j: string, nl: string)
    requires |total| == 7 && LineBreak(nl)
    ensures var s := total + "   " + name + w + j + nl;
            var e := 10 + |name|;
            && At(s, 0, total + "   ") && At(s, 10, name) && At(s, e, w) && At(s, e + |w|, j)
            && LineEndAt(s, e + |w| + |j|)
  {
    var s := total + "   " + name + w + j + nl;
    AtWhole(s);
    AtConcat(s, 0, total + "   " + name + w + j, nl);
    AtConcat(s, 0, total + "   " + name + w, j);
    AtConcat(s, 0, total + "   " + name, w);
    AtConcat(s, 0, total + "   ", name);
  }

  lemma TaggedAt(s: string, total: string, t: Task, e: nat, w: string, j: string)
    requires TotalToken(total) && TaskName(t.name) && |w| >= 3 && AllSpaces(w)
    requires t.deadline.None? && TagsText(j, t.tags)
    requires e == 10 + |t.name|
    requires && At(s, 0, total + "   ") && At(s, 10, t.name) && At(s, e, w) && At(s, e + |w|, j)
             && LineEndAt(s, e + |w| + |j|)
    ensures TaskScanned(s, t, [])
  {
    HeadAt(s, total, t.name, e, w);
    TaggedGroups(s, e, t, w, j);
    ScannedFrom(s, e, t, e, [], e + |w| + |j|, w + j);
  }

  /** A line with tags and no deadline: its fields are located. */
  lemma TaggedLine(total: string, t: Task, w: string, j: string, nl: string)
    requires TotalToken(total) && TaskName(t.name) && |w| >= 3 && AllSpaces(w)
    requires t.deadline.None? && TagsText(j, t.tags) && LineBreak(nl)
    ensures TaskScanned(total + "   " + t.name + w + j + nl, t, [])
  {
    TaggedPieces(total, t.name, w, j, nl);
    TaggedAt(total + "   " + t.name + w + j + nl, total, t, 10 + |t.name|, w, j);
  }

  /** Where the fields of a line with a deadline and no tags lie. */
  lemma DatedPieces(total: string, name: string, w: string, f: string, nl: string)
    requires |total| == 7 && |f| == 11 && LineBreak(nl)
    ensures var s := total + "   " + name + w + f + nl;
            var e := 10 + |name|;
            && At(s, 0, total + "   ") && At(s, 10, name) && At(s, e, w) && At(s, e + |w|, f)
            && LineEndAt(s, e + |w| + 11)
  {
    var s := total + "   " + name + w + f + nl;
    AtWhole(s);
    AtConcat(s, 0, total + "   " + name + w + f, nl);
    AtConcat(s, 0, total + "   " + name + w, f);
    AtConcat(s, 0, total + "   " + name, w);
    AtConcat(s, 0, total + "   ", name);
  }

  lemma DatedAt(s: string, total: string, t: Task, e: nat, w: string, f: string)
    requires TotalToken(total) && TaskName(t.name) && |w| >= 2 && AllSpaces(w)
    requires t.deadline.Some? && DateToken(f) && |t.tags| == 0
    requires e == 10 + |t.name|
    requires && At(s, 0, total + "   ") && At(s, 10, t.name) && At(s, e, w) && At(s, e + |w|, f)
             && LineEndAt(s, e + |w| + 11)
    ensures TaskScanned(s, t, w + f)
  {
    HeadAt(s, total, t.name, e, w);
    DatedGroups(s, e, t, w, f);
    ScannedFrom(s, e, t, e + |w| + 11, w + f, 0, []);
  }

  /** A line with a deadline and no tags: its fields are located. */
  lemma DatedLine(total: string, t: Task, w: string, f: string, nl: string)
    requires TotalToken(total) && TaskName(t.name) && |w| >= 2 && AllSpaces(w)
    requires t.deadline.Some? && DateToken(f) && |t.tags| == 0 && LineBreak(nl)
    ensures TaskScanned(total + "   " + t.name + w + f + nl, t, w + f)
  {
    DatedPieces(total, t.name, w, f, nl);
    DatedAt(total + "   " + t.name + w + f + nl, total, t, 10 + |t.name|, w, f);
  }

  /** Where the fields of a line with a name only lie. */
  lemma BarePieces(total: string, name: string, nl: string)
    requires |total| == 7 && LineBreak(nl)
    ensures var s := total + "   " + name + nl;
            At(s, 0, total + "   ") && At(s, 10, name) && LineEndAt(s, 10 + |name|)
  {
    var s := total + "   " + name + nl;
    AtWhole(s);
    AtConcat(s, 0, total + "   " + name, nl);
    AtConcat(s, 0, total + "   ", name);
  }

  /** A line with a name only: its fields are located. */
  lemma BareLine(total: string, t: Task, nl: string)
    requires TotalToken(total) && TaskName(t.name)
    requires t.deadline.None? && |t.tags| == 0 && LineBreak(nl)
    ensures TaskScanned(total + "   " + t.name + nl, t, [])
  {
    var s := total + "   " + t.name + nl;
    BarePieces(total, t.name, nl);
    ScanHead(s, total, t.name, 10 + |t.name|);
    ScanLineEnd(s, 10 + |t.name|, t.tags);
    ScannedFrom(s, 10 + |t.name|, t, 10 + |t.name|, [], 0, []);
  }

  lemma AllSpacesAppend(a: string, b: string)
    requires AllSpaces(a) && AllSpaces(b)
    ensures AllSpaces(a + b)
  {
  }

  /** The spaces that pad a name to 20 columns. */
  function NamePad(name: string): (r: string)
    ensures AllSpaces(r) && PadRight(name, 20) == name + r
  {
    Spaces(if |name| < 20 then 20 - |name| else 0)
  }

  /** The stripped text of a task line with a deadline and tags. */
  lemma DatedTaggedText(total: string, name: string, f: string, j: string)
    requires TotalToken(total) && |f| == 11 && |j| > 0 && IsWord(j[|j| - 1])
    ensures Strip(total + "   " + PadRight(name, 20) + "   " + PadRight(f, 11) + "   " + j)
            == total + "   " + name + (NamePad(name) + "   ") + f + "   " + j
  {
    var y := total + "   " + name + (NamePad(name) + "   ") + f + "   " + j;
    assert PadRight(f, 11) == f;
    assert total + "   " + PadRight(name, 20) + "   " + PadRight(f, 11) + "   " + j == "" + y + "";
    assert y[0] == '(' && y[|y| - 1] == j[|j| - 1];
    WordNotSpace(j[|j| - 1]);
    StripSurrounded("", y, "");
  }

  /** The stripped text of a task line with tags and no deadline. */
  lemma TaggedText(total: string, name: string, j: string)
    requires TotalToken(total) && |j| > 0 && IsWord(j[|j| - 1])
    ensures Strip(total + "   " + PadRight(name, 20) + "   " + PadRight("", 11) + "   " + j)
            == total + "   " + name + (NamePad(name) + "   " + Spaces(11) + "   ") + j
  {
    var y := total + "   " + name + (NamePad(name) + "   " + Spaces(11) + "   ") + j;
    assert PadRight("", 11) == Spaces(11);
    assert total + "   " + PadRight(name, 20) + "   " + PadRight("", 11) + "   " + j == "" + y + "";
    assert y[0] == '(' && y[|y| - 1] == j[|j| - 1];
    WordNotSpace(j[|j| - 1]);
    StripSurrounded("", y, "");
  }

  /** The stripped text of a task line with a deadline and no tags. */
  lemma DatedText(total: string, name: string, f: string)
    requires TotalToken(total) && DateToken(f)
    ensures Strip(total + "   " + PadRight(name, 20) + "   " + PadRight(f, 11) + "   " + "")
            == total + "   " + name + (NamePad(name) + "   ") + f
  {
    var y := total + "   " + name + (NamePad(name) + "   ") + f;
    assert PadRight(f, 11) == f;
    assert total + "   " + PadRight(name, 20) + "   " + PadRight(f, 11) + "   " + "" == "" + y + "   ";
    assert y[0] == '(' && y[|y| - 1] == f[10];
    StripSurrounded("", y, "   ");
  }

  /** The stripped text of a task line with a name only. */
  lemma BareText(total: string, name: string)
    requires TotalToken(total) && TaskName(name)
    ensures Strip(total + "   " + PadRight(name, 20) + "   " + PadRight("", 11) + "   " + "")
            == total + "   " + name
  {
    var w := NamePad(name) + "   " + Spaces(11) + "   ";
    BareRaw(total, name);
    SepSpaces();
    AllSpacesAppend(NamePad(name), "   ");
    AllSpacesAppend(NamePad(name) + "   ", Spaces(11));
    AllSpacesAppend(NamePad(name) + "   " + Spaces(11), "   ");
    StripTo(total + "   " + PadRight(name, 20) + "   " + PadRight("", 11) + "   " + "", total + "   " + name, w);
  }

  lemma BareRaw(total: string, name: string)
    ensures total + "   " + PadRight(name, 20) + "   " + PadRight("", 11) + "   " + ""
            == total + "   " + name + (NamePad(name) + "   " + Spaces(11) + "   ")
  {
    assert PadRight("", 11) == Spaces(11);
  }

  /** Stripping a text followed by spaces gives the text. */
  lemma StripTo(raw: string, y: string, w: string)
    requires raw == y + w && AllSpaces(w) && |y| > 0 && y[0] == '(' && IsWord(y[|y| - 1])
    ensures Strip(raw) == y
  {
    assert raw == "" + y + w;
    WordNotSpace(y[|y| - 1]);
    StripSurrounded("", y, w);
  }

  /** A rendered task line is located field by field; `x` is its deadline
      field, which parses back as the deadline. */
  lemma TaskLineScanned(t: Task, time: seq<Entry>, now: Stamp, nl: string) returns (x: string)
    requires ReadableTask(t, time, now) && LineBreak(nl)
    ensures TaskScanned(TaskLine(t, time, now) + nl, t, x)
    ensures t.deadline.Some? ==> ParseTime(x) == Ok(t.deadline.value)
  {
    var m := TaskTime(t.name, time, now);
    var total := FmtDelta(m);
    FmtDeltaToken(m);
    var j := Join(t.tags, ", ");
    var w1 := NamePad(t.name) + "   ";
    SepSpaces();
    AllSpacesAppend(NamePad(t.name), "   ");
    match t.deadline
    case Some(d) =>
      var f := FmtTime(d);
      FmtTimeToken(d);
      x := w1 + f;
      ParseSpacedTime(w1, d);
      if |t.tags| > 0 {
        JoinedTagsText(t.tags);
        DatedTaggedText(total, t.name, f, j);
        DatedTaggedLine(total, t, w1, f, j, nl);
      } else {
        DatedText(total, t.name, f);
        DatedLine(total, t, w1, f, nl);
      }
    case None =>
      x := [];
      if |t.tags| > 0 {
        JoinedTagsText(t.tags);
        var w := NamePad(t.name) + "   " + Spaces(11) + "   ";
        AllSpacesAppend(NamePad(t.name) + "   ", Spaces(11));
        AllSpacesAppend(NamePad(t.name) + "   " + Spaces(11), "   ");
        TaggedText(total, t.name, j);
        TaggedLine(total, t, w, j, nl);
      } else {
        BareText(total, t.name);
        BareLine(total, t, nl);
      }
  }

  /** Rendering a task and reading its line back gives the task back. */
  lemma TaskRoundTrip(t: Task, time: seq<Entry>, now: Stamp, nl: string)
    requires ReadableTask(t, time, now) && LineBreak(nl)
    ensures TaskFromString(TaskLine(t, time, now) + nl) == Ok(t)
  {
    var x := TaskLineScanned(t, time, now, nl);
    ReadTask(TaskLine(t, time, now) + nl, t, x);
  }

  /** A task line whose name is not ASCII: `\w` takes in the `é`. */
  const CafeTaskLine := "(00:00)   café  work"

  lemma CafeTaskHead()
    ensures SkipSpaces(CafeTaskLine, TotalEnd(CafeTaskLine)) == 10 && NameEnd(CafeTaskLine, 10) == 14
    ensures CafeTaskLine[10..14] == "café"
  {
    var s := CafeTaskLine;
    assert s[0] == '(' && s[1] == '0' && s[2] == '0' && s[3] == ':' && s[4] == '0' && s[5] == '0' && s[6] == ')';
    assert TotalEnd(s) == 7;
    assert s[7] == ' ' && s[8] == ' ' && s[9] == ' ' && s[10] == 'c';
    assert SkipSpaces(s, 10) == 10;
    assert SkipSpaces(s, 9) == 10;
    assert SkipSpaces(s, 8) == 10;
    CafeTaskName();
  }

  lemma CafeTaskName()
    ensures NameEnd(CafeTaskLine, 10) == 14
  {
    var s := CafeTaskLine;
    assert s[14] == ' ' && s[15] == ' ';
    assert WordEnd(s, 14) == 14;
    assert WordEnd(s, 13) == 14;
    assert WordEnd(s, 12) == 14;
    assert WordEnd(s, 11) == 14;
  }

  lemma CafeTaskTail()
    ensures DeadlineEnd(CafeTaskLine, 14).None? && TagsEnd(CafeTaskLine, 14) == Some(20)
  {
    var s := CafeTaskLine;
    assert SkipSpaces(s, 16) == 16;
    assert SkipSpaces(s, 15) == 16;
    DateEndNeedsDash(s, 16);
    assert TagRunEnd(s, 20) == 20;
    assert TagRunEnd(s, 19) == 20;
    assert TagRunEnd(s, 18) == 20;
    assert TagRunEnd(s, 17) == 20;
    assert LastWord(s, 17, 20) == Some(19);
  }

  lemma CafeTaskTags()
    ensures Split(Strip(CafeTaskLine[14..20]), ", ") == ["work"]
  {
    assert CafeTaskLine[14..20] == "  " + "work" + "";
    StripSurrounded("  ", "work", "");
    assert Find("work", ", ", 3) == None;
    assert Find("work", ", ", 2) == None;
    assert Find("work", ", ", 1) == None;
  }

  /** `café` is read whole as the name, and `work` as its one tag. */
  lemma CafeTask()
    ensures TaskFromString(CafeTaskLine) == Ok(Task("café", ["work"], None))
  {
    CafeTaskHead();
    CafeTaskTail();
    CafeTaskTags();
    TaskFields(CafeTaskLine, 14, 14, Some(20), "café", ["work"], None);
  }
}
