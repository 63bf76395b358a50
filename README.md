# tyme, modelled in Dafny

tyme is a command-line time sheet. A `TymeSheet` keeps three collections:

- `todo`: an ordered dictionary from task names to tasks;
- `time`: a log of clock entries, each naming its task, with a start and an optional end;
- `done`: an ordered dictionary of completed tasks.

The sheet lives in a plain-text file with three sections: Todo, Time and Done. Each section has a centred title, a rule of dashes, one line per record and a blank line.

This project models the core of `tyme/tyme.py`:

- the sheet's operations: `current_entry`, `add_task`, `clock_in`, `clock_out`, `complete_task`, `tag_filter` and `_validate`;
- the two record types, their line format and their line readers;
- the timestamp helpers `parse_time`, `fmt_time` and `fmt_delta`;
- the document codec: `__str__` and `from_file`.

The modules follow the program's structure.

- `Wrappers`: `Option`, `Result`, `Outcome` and the exceptions the code raises (`TymeError`, `ParseError`, `ValueError`, `StopIteration`, `RuntimeError`), as values.
- `Text`: the character classes of Python's `re` (`\w` over the listed code-point ranges, `\d` over ASCII, `\s` over all of Unicode's whitespace), plus `str.strip`, `split`, `join`, left and centred padding, two-digit formatting and the splitting of a file into lines.
- `Times`: a timestamp is a month, day, hour and minute in the year 2000, a leap year. It has a count of minutes since the start of the year. This module holds `fmt_time`, `parse_time` (for the `%m-%d %H:%M` form) and `fmt_delta` over whole minutes.
- `Records`:
  - `Task` and `Entry`, and `Entry.__init__`'s rule that an entry may not end before it starts;
  - `Task.entries`, `Task.time` and `Entry.time`;
  - the two renderers;
  - the two line readers. Each is an explicit field scanner for the source's regular expression, not a regular-expression engine. `\w` is modelled on ASCII and on the code-point ranges `Text.IsWord` lists, so a name such as `café` reads whole. The ranges are:
    - the Latin-1 letters, superscript digits and fractions;
    - U+00F8–U+02AF: Latin Extended-A and -B and the IPA letters;
    - the Greek letters in U+0386–U+03CE;
    - Cyrillic U+0400–U+0481;
    - the Hebrew letters U+05D0–U+05EA;
    - the Arabic letters U+0620–U+064A and the Arabic-Indic digits U+0660–U+0669;
    - the Devanagari letters U+0905–U+0939 and digits U+0966–U+096F;
    - Hiragana U+3041–U+3096 and Katakana U+30A1–U+30FA;
    - the CJK ideographs U+4E00–U+9FEF and the Hangul syllables U+AC00–U+D7A3.

    Every character in these ranges is one Python's `\w` matches. `\d` is ASCII only. Both limits are listed under "Left out".
- `RecordLines`, `RecordProofs`, `EntryProofs`: predicates locating the fields of a rendered line, and the proofs that every record with readable names and tags and a total under 100 hours reads back as itself.
- `Ledgers`:
  - an `OrderedDict` as a sequence of pairs with distinct keys;
  - the sheet's operations as functions from one `Ledger` value to the next, with their specifications.
- `Codec`:
  - `__str__`, as the list of lines it joins;
  - the lines `from_file` keeps;
  - the `parse` generator as a recursive function (`Section`) and as a loop (`ReadSection`);
  - `from_file` itself.
- `Sheets`:
  - the class `TymeSheet`, whose methods update its three fields in place and are proved against the `Ledgers` functions;
  - `from_file` as a method that builds a new sheet.
- `CodecProofs`: writing a sheet and reading the text back gives the same sheet.

Three things come in as parameters:

- The current time (`now()`) is a `Stamp` parameter wherever a duration of an open entry is needed.
- The times passed to `clock_in`, `clock_out` and `complete_task` are explicit.
- The file is a sequence of lines: the lines `open(file)` yields, each with its `'\n'`. For written text, `FileLines` splits a string into such lines.

Durations are whole minutes.

Places where the code, not the described behaviour, was followed:

- `add_task` looks for the name in `todo` only. A completed task's name can be added again (`Ledgers.AddedIgnoresDone`).
- The Done section's break pattern is compiled from `None`. `from_file` therefore stops the Done section at a header line reading `None`, or runs it to the end of the input (`Codec.SheetSections`).
- `clock_out` sets the end of the open entry without checking that it is not earlier than the start. Only `Entry.__init__` checks that.
- A `next()` inside the `parse` generator that finds the input exhausted surfaces as a `RuntimeError` ("generator raised StopIteration"). The two `next()` calls outside the generator surface as `StopIteration`.

## Model

| member | source | states |
|---|---|---|
| Times.EarlierIffFewerMinutes | tyme/tyme.py:262-264 | comparing two timestamps is comparing their minute counts, and equal counts mean equal timestamps |
| Times.FmtTimeToken | tyme/tyme.py:314-315 | `fmt_time` writes the 11-character `MM-DD HH:MM` token |
| Times.ParseTimeIn | tyme/tyme.py:296-303 | a parsed time is a real calendar date (in a leap or a common year); every failure is a ValueError |
| Times.ParseStrippedTime | tyme/tyme.py:296-299 | any text that strips to a formatted time parses as that time |
| Times.ParseFmtTime | tyme/tyme.py:296-299 | parsing a formatted time gives the time back, for every day of the year 2000 |
| Times.ParseFmtTimeAsWritten | tyme/tyme.py:299 | as written, the round trip fails exactly on February 29, with a ValueError |
| Times.FmtDeltaChars | tyme/tyme.py:308-312 | below 100 hours a duration renders as `(HH:MM)`, and the two fields read back give the minute count |
| Times.SixtyFiveMinutes | tyme/tyme.py:308-312 | 65 minutes render as `(01:05)` |
| Times.NegativeDelta | tyme/tyme.py:308-312 | a negative duration (an open entry started after `now`) falls outside the `(HH:MM)` shape |
| Records.NewEntry | tyme/tyme.py:262-267 | construction fails with TymeError exactly when the end is earlier than the start; otherwise the fields are stored unchanged |
| Records.EntryTimeNonNegative | tyme/tyme.py:269-273 | an entry that does not end before it starts, taken no earlier than its start, lasts no negative time |
| Records.Entries | tyme/tyme.py:225-227 | the entries of a task are exactly the log's entries naming it |
| Records.TaskTimeAppend | tyme/tyme.py:229-230 | a new log entry adds its time to its own task's total and to no other |
| Records.TaskFromString | tyme/tyme.py:207-216 | failures are `ParseError('Bad Task: ' + line)` or the ValueError of a bad deadline |
| Records.EntryFromString | tyme/tyme.py:284-293 | an entry read from a line does not end before it starts; failures are the three errors the code raises |
| Records.TaskReadName | tyme/tyme.py:207-216 | a task read from a line has a name the task pattern `(?:\w+[ ]?)+\w` matches in full |
| Records.EntryReadName | tyme/tyme.py:284-293 | an entry read from a line names a task the task pattern matches in full |
| RecordProofs.CafeTask | tyme/tyme.py:190-216 | the line `(00:00)   café  work` reads as the task `café` with the one tag `work`: a non-ASCII letter is a word character |
| EntryProofs.CafeEntry | tyme/tyme.py:251-293 | the line `(00:00)   café  01-01 10:00  --` reads as an open entry of `café` starting at 01-01 10:00 |
| Ledgers.AddedRejectsSameTask | tyme/tyme.py:60-61 | `add_task` refuses a task exactly when `todo` holds one equal to it under `Task.__eq__` (same name) |
| RecordProofs.TaskRoundTrip | tyme/tyme.py:207-223 | `from_string(to_string(t))` gives `t` back, with or without the line's newline, when the name and tags are readable and the total is under 100 hours |
| EntryProofs.EntryRoundTrip | tyme/tyme.py:275-293 | `from_string(str(e))` gives `e` back, whatever follows the line, when the name is readable and the duration is under 100 hours |
| Text.SplitJoin | tyme/tyme.py:214 | splitting the comma-joined tags gives the tags back when none holds a comma |
| Text.FileLinesOfJoin | tyme/tyme.py:164 | reading newline-free lines back from their newline-joined text gives each line with its newline |
| Ledgers.PutLookup | tyme/tyme.py:63 | after `d[k] = v`, key `k` finds `v` and every other key finds what it found before |
| Ledgers.PutShape | tyme/tyme.py:63 | a new key is appended as the last item; an existing key leaves the number of items unchanged; keys stay distinct |
| Ledgers.RemoveLookup | tyme/tyme.py:81 | after `pop(k)`, `k` is gone, every other key finds what it found before, and keys stay distinct |
| Ledgers.FromPairsDistinct | tyme/tyme.py:43-45 | an `OrderedDict` built from pairs with distinct keys holds those pairs in order |
| Ledgers.CurrentIsOpenEntry | tyme/tyme.py:52-57 | in a valid log, `current_entry` is the open entry, and it is None exactly when every entry is closed |
| Ledgers.AddedSpec | tyme/tyme.py:59-63 | `add_task` raises TymeError exactly when the name is a key of `todo`; otherwise `todo` gains one last item `(name, Task(name, tags, deadline))` and `time` and `done` are unchanged; validity is kept |
| Ledgers.AddedIgnoresDone | tyme/tyme.py:60 | a name already in `done` can be added to `todo` |
| Ledgers.ClockedOutSpec | tyme/tyme.py:72-77 | fails with "Not clocked in." exactly when no entry is open; otherwise only the last entry's end is set, its task is returned, `todo` and `done` are unchanged, and no entry stays open |
| Ledgers.ClockedInSpec | tyme/tyme.py:65-70 | an open entry is closed at the time the new one starts; the new open entry is last and the only open one; `todo` and `done` are unchanged |
| Ledgers.CompletedSpec | tyme/tyme.py:79-89 | fails with "No such task." exactly when the name is not in `todo`; otherwise the task leaves `todo` and the other items keep their order; it is filed in `done` with the completion time as its deadline, in the place its name already holds there or else last; other keys are untouched; the open entry is closed only when it belongs to that task |
| Ledgers.CompletedValid | tyme/tyme.py:79-89 | completing a task keeps the sheet valid |
| Ledgers.KeepMembers | tyme/tyme.py:96-99 | the filtered dictionary holds exactly the items whose tag set contains the filter set |
| Ledgers.KeepEntriesMembers | tyme/tyme.py:100-101 | the filtered log holds exactly the entries whose task is in the filtered `todo` or `done` |
| Ledgers.FilteredMembers | tyme/tyme.py:91-102 | a tag filter keeps the tasks carrying every filter tag, and the entries of the tasks it keeps |
| Ledgers.FilteredIdempotent | tyme/tyme.py:91-102 | filtering twice by the same tags equals filtering once |
| Ledgers.FilteredValid | tyme/tyme.py:91-102 | a filtered sheet of a valid sheet is valid |
| Sheets.TymeSheet.constructor | tyme/tyme.py:39-45 | the fields are the dictionaries built from the pairs and the log as given |
| Sheets.TymeSheet.CurrentEntry | tyme/tyme.py:52-57 | a returned entry is open and in the log; in a valid sheet None means every entry is closed |
| Sheets.TymeSheet.AddTask | tyme/tyme.py:59-63 | the new state is the `Ledgers.Added` ledger, or unchanged with the error; validity is kept |
| Sheets.TymeSheet.ClockOut | tyme/tyme.py:72-77 | the new state and the result are those of `Ledgers.ClockedOut`; validity is kept |
| Sheets.TymeSheet.ClockIn | tyme/tyme.py:65-70 | the new state is `Ledgers.ClockedIn`; validity is kept |
| Sheets.TymeSheet.CompleteTask | tyme/tyme.py:79-89 | the new state is the `Ledgers.Completed` ledger, or unchanged with the error; validity is kept |
| Sheets.TymeSheet.TagFilter | tyme/tyme.py:91-102 | no tags gives the same object; otherwise a fresh sheet holding `Ledgers.Filtered` |
| Sheets.TymeSheet.Validate | tyme/tyme.py:180-186 | raises "Unfinished nonfinal entry" exactly when an entry other than the last is open |
| Sheets.FromLines | tyme/tyme.py:122-155 | builds a fresh sheet holding `Codec.ParseSheet`'s ledger, or fails with its error |
| Codec.Kept | tyme/tyme.py:126-127 | every line `from_file` keeps is longer than two characters |
| Codec.Section | tyme/tyme.py:137-147 | a section that reads resumes at a line no earlier than where it started; what it gives is stated by Codec.SectionRuns and Codec.SectionStops |
| Codec.SheetSections | tyme/tyme.py:134-151 | sections are read only after a Todo header and a rule |
| Codec.TaskDict | tyme/tyme.py:149-153 | the tasks read are filed under their own names |
| Codec.SectionRuns | tyme/tyme.py:137-147 | with no header, the Done section runs to the end of the input; any other section is "Missing section" |
| Codec.SectionStops | tyme/tyme.py:137-147 | lines that read, then the header and its rule: the section gives their values and resumes after the rule |
| Codec.ReadSection | tyme/tyme.py:137-147 | the loop over the lines gives what `Section` gives, errors included |
| Codec.ParsedValid | tyme/tyme.py:153-155 | a sheet read from a file is valid |
| Codec.ParsedHeader | tyme/tyme.py:134-135 | a sheet is read only when the first kept lines are the Todo header and a rule |
| Codec.MissingTime | tyme/tyme.py:145-147 | readable task lines with no Time header after them give "Missing section: Time" |
| Codec.SectionsMissingDone | tyme/tyme.py:145-151 | a Time section that no Done header ends gives "Missing section: Done", whatever the readers |
| Codec.MissingDone | tyme/tyme.py:145-151 | readable entry lines with no Done header after them give "Missing section: Done" |
| CodecProofs.TitleHeader | tyme/tyme.py:159 | a title centred in 70 columns matches the header pattern of that title |
| CodecProofs.RuleShape | tyme/tyme.py:160 | the rule of 70 dashes matches the `-{10,}` pattern |
| CodecProofs.ParenNotHeader | tyme/tyme.py:138-140 | a record line, starting with `(`, never stops a section |
| CodecProofs.TaskLineShape | tyme/tyme.py:218-223 | a readable task's line starts with `(`, is at least 7 characters long and holds no newline |
| CodecProofs.EntryLineShape | tyme/tyme.py:275-282 | a readable entry's line starts with `(`, is at least 7 characters long and holds no newline |
| CodecProofs.KeptSection | tyme/tyme.py:158-162 | reading a written section drops its closing blank line and keeps every other line with its newline |
| CodecProofs.TaskDictOfTasks | tyme/tyme.py:149-153 | filing the written tasks by name gives the dictionary back |
| CodecProofs.TaskLinesRead | tyme/tyme.py:165 | every written task line reads back as its task |
| CodecProofs.EntryLinesRead | tyme/tyme.py:166 | every written entry line reads back as its entry |
| CodecProofs.KeptSheet | tyme/tyme.py:157-168 | the lines kept from a written sheet are each section's title, rule and record lines, with their newlines |
| CodecProofs.WrittenSections | tyme/tyme.py:137-151 | the three written sections read one after the other as their records, with any readers |
| CodecProofs.LayoutRead | tyme/tyme.py:134-151 | the written layout reads as the three sections' records |
| CodecProofs.SheetLayout | tyme/tyme.py:133-168 | the sections read from a written sheet are its todo tasks, its log and its done tasks |
| CodecProofs.ParsedAs | tyme/tyme.py:149-155 | sections reading as a valid sheet's collections give back that sheet |
| CodecProofs.SheetRoundTrip | tyme/tyme.py:122-168 | `from_file` of the text `__str__` writes gives back the same valid sheet, when every record is readable |

## Left out

- File and process I/O: opening the file in `from_file`, `to_file`, `save` with its backup copy, `edit` with its editor subprocess, and the file creation in `TymeSheet.__init__`. `from_file` is modelled over the lines of the file.
- `find_task`: it wraps the external `fuzzyfinder` library, which is not part of this model.
- `now()` and the `time or now()` defaults: callers pass the time explicitly, and the current time is a parameter wherever an open entry's duration is needed.
- Times.ParseTimeIn: the bare `HH:MM` retry of `parse_time`, which takes today's month and day from `now()`, is not modelled as a success; the model gives ValueError there instead. Within `tyme/tyme.py`, `parse_time` receives only fields the line grammar captured as `M-D HH:MM`, and `%H:%M` refuses every such field, so for the line readers the model agrees with the source. The command-line `-at` options (`tyme/commands.py`, which is not part of this model) pass the user's own text to `parse_time`. There a bare `HH:MM` parses under `now()`, where the model gives ValueError.
- Seconds: timestamps and durations are whole minutes, as the text format writes them. `fmt_delta` over a duration with leftover seconds is not modelled.
- RecordProofs.TaskRoundTrip and EntryProofs.EntryRoundTrip: proved only for totals under 100 hours and names and tags the line grammar can read. Longer totals render in more than two hour digits, which the `(\d\d:\d\d)` prefix does not match.
- Aliasing: Python's `tag_filter` builds its new sheet from the same `Task` and `Entry` objects. Later mutation through one sheet (a `clock_out` on the filtered sheet) would show in the other. Records are values here, so that sharing is not modelled. The same holds for the task object `complete_task` mutates and moves.
- `Task.__hash__`: it only serves Python's dictionaries, which are modelled by name keys.
- Records.TaskFromString, Records.EntryFromString: `\w` covers ASCII and only the code-point ranges `Text.IsWord` lists, not whole scripts. Some letters that Python's `\w` matches (`str.isalnum()`) are not word characters here, and a name or tag holding one ends the word there, so such a line reads differently or not at all. Examples are the Ukrainian `ґ` (U+0491), the Persian `پ` (U+067E), the Vietnamese `ế` (U+1EBF) and every letter of a script with no range, such as Thai.
- Records.TaskFromString, Records.EntryFromString: `\d` is ASCII only. Python's `\d` also matches the decimal digits of other scripts, so a total or date written in them is refused here.
- Records.TaskFromString, Records.EntryFromString, CodecProofs.SheetRoundTrip: they use the corrected `Times.ParseTime`, which reads `02-29` as February 29 of the year 2000. `parse_time` as written raises ValueError for such a field, so a deadline or entry on `02-29` reads Ok here and fails in the source. `Times.ParseFmtTimeAsWritten` states the source's behaviour; see "Findings".
- Times.FmtDeltaChars, Times.NegativeDelta: a total of 100 hours or more, or a negative one (an open entry started after `now`), renders outside the `(HH:MM)` shape. Its `(` is no word character and the total pattern needs two digits on each side, so the source's own `from_file` refuses such a line with ParseError. The round trip is proved only below 100 hours.
- Generator laziness: in `from_file`, each section is read completely before the next one starts, which is the order the `TymeSheet` constructor consumes them in.

## Findings

| source | as written | input that shows it | evidently intended | confidence | as-written member | corrected member |
|---|---|---|---|---|---|---|
| tyme/tyme.py:299 | `strptime` parses `%m-%d %H:%M` in its default year 1900, which has no February 29. It does so before `replace(year=2000)` moves the date into the leap year. | a sheet holding a deadline or entry on `02-29 10:00`: `fmt_time` writes it, then `parse_time` raises ValueError when the sheet is read back | every date of the year 2000 that `fmt_time` can write parses back | not executed | Times.ParseFmtTimeAsWritten | Times.ParseFmtTime |
