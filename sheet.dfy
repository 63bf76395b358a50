/** `TymeSheet`: the ledger as an object whose methods update its three
    collections in place, and `from_file`, which builds one from the lines
    of a sheet file. */
module Sheets {
  import opened Wrappers
  import opened Times
  import opened Records
  import opened Ledgers
  import opened Codec

  class TymeSheet {
    var todo: Dict
    var time: seq<Entry>
    var done: Dict

    /** The three collections as a ledger value. */
    function Value(): Ledger
      reads this
    {
      Ledger(todo, time, done)
    }

    /** `TymeSheet(todo, time, done)`: the tasks come as (name, task) pairs
        and are filed as an `OrderedDict` files them. */
    constructor (todo0: seq<(string, Task)>, time0: seq<Entry>, done0: seq<(string, Task)>)
      ensures Value() == Ledger(FromPairs(todo0), time0, FromPairs(done0))
    {
      todo := FromPairs(todo0);
      time := time0;
      done := FromPairs(done0);
    }

    /** `current_entry`: an open entry of the log, and in a valid sheet the
        only one. */
    function CurrentEntry(): (r: Option<Entry>)
      reads this
      ensures r.Some? ==> r.value in time && r.value.end.None?
      ensures OnlyLastOpen(time) ==> (r.None? <==> forall i :: 0 <= i < |time| ==> time[i].end.Some?)
    {
      Current(time)
    }

    /** `add_task` */
    method AddTask(name: string, tags: seq<string>, deadline: Option<Stamp>) returns (o: Outcome)
      modifies this
      ensures var a := Added(old(Value()), name, tags, deadline);
              if a.Err? then o == Fail(a.error) && Value() == old(Value())
              else o == Pass && Value() == a.value
      ensures old(Valid(Value())) ==> Valid(Value())
    {
      if HasKey(todo, name) {
        return Fail(TymeError("That task already exists."));
      }
      AddedSpec(Value(), name, tags, deadline);
      PutShape(todo, name, Task(name, tags, deadline));
      todo := Put(todo, name, Task(name, tags, deadline));
      return Pass;
    }

    /** `clock_out`: sets the end of the open entry and returns its task. */
    method ClockOut(t: Stamp) returns (r: Result<string>)
      modifies this
      ensures var c := ClockedOut(old(Value()), t);
              if c.Err? then r == Err(c.error) && Value() == old(Value())
              else r == Ok(c.value.1) && Value() == c.value.0
      ensures old(Valid(Value())) ==> Valid(Value())
    {
      if CurrentEntry().None? {
        return Err(TymeError("Not clocked in."));
      }
      ClockedOutSpec(Value(), t);
      var n := |time|;
      var task := time[n - 1].task;
      assert CloseLast(time, t) == time[n - 1 := time[n - 1].(end := Some(t))];
      time := time[n - 1 := time[n - 1].(end := Some(t))];
      return Ok(task);
    }

    /** `clock_in`: clocks out of the open entry, if any, and opens a new
        entry for `task`, both at `t`. */
    method ClockIn(task: string, t: Stamp)
      modifies this
      ensures Value() == ClockedIn(old(Value()), task, t)
      ensures old(Valid(Value())) ==> Valid(Value())
    {
      ClockedInSpec(Value(), task, t);
      if CurrentEntry().Some? {
        var closed := ClockOut(t);
      }
      time := time + [Entry(task, t, None)];
    }

    /** `complete_task` */
    method CompleteTask(name: string, t: Stamp) returns (o: Outcome)
      modifies this
      ensures var c := Completed(old(Value()), name, t);
              if c.Err? then o == Fail(c.error) && Value() == old(Value())
              else o == Pass && Value() == c.value
      ensures old(Valid(Value())) ==> Valid(Value())
    {
      var found := Lookup(todo, name);
      if found.None? {
        return Fail(TymeError("No such task."));
      }
      ghost var before := Value();
      if Valid(before) {
        CompletedValid(before, name, t);
      }
      var task := found.value.(deadline := Some(t));
      RemoveLookup(todo, name, name);
      PutShape(done, name, task);
      todo := Remove(todo, name);
      done := Put(done, name, task);
      if CurrentEntry().Some? && CurrentEntry().value.task == name {
        var closed := ClockOut(t);
      }
      return Pass;
    }

    /** `tag_filter`: the sheet itself when no tags are given, otherwise a
        new sheet of the matching tasks and their entries. */
    method TagFilter(tags: seq<string>) returns (r: TymeSheet)
      ensures |tags| == 0 ==> r == this
      ensures |tags| > 0 ==> fresh(r) && r.Value() == Filtered(Value(), tags)
    {
      if |tags| == 0 {
        return this;
      }
      var l := Filtered(Value(), tags);
      FromPairsDistinct(l.todo);
      FromPairsDistinct(l.done);
      r := new TymeSheet(l.todo, l.time, l.done);
    }

    /** `_validate`: every entry but the last must be finished. */
    method Validate() returns (o: Outcome)
      ensures o == if OnlyLastOpen(time) then Pass else Fail(ParseError("Unfinished nonfinal entry"))
    {
      var i := 0;
      while i + 1 < |time|
        invariant 0 <= i <= |time|
        invariant forall k :: 0 <= k < i ==> time[k].end.Some?
      {
        if time[i].end.None? {
          return Fail(ParseError("Unfinished nonfinal entry"));
        }
        i := i + 1;
      }
      return Pass;
    }
  }

  /** `TymeSheet.from_file` over the lines of the file: the Todo header and
      its rule, the three sections read one after the other from the same
      lines, the sheet built from them, then `_validate`. */
  method FromLines(lines: seq<string>) returns (r: Result<TymeSheet>)
    ensures ParseSheet(lines).Err? ==> r.Err? && r.error == ParseSheet(lines).error
    ensures ParseSheet(lines).Ok? ==> r.Ok? && fresh(r.value) && r.value.Value() == ParseSheet(lines).value
  {
    var ls := Kept(lines);
    if |ls| == 0 {
      return Err(StopIteration);
    }
    if !HeaderLine(ls[0], "Todo") {
      return Err(ParseError("No Todo: " + ls[0]));
    }
    if |ls| == 1 {
      return Err(StopIteration);
    }
    if !RuleLine(ls[1]) {
      return Err(ParseError("No Todo line: " + ls[1]));
    }
    var todo := ReadSection(ls, 2, "Time", false, TaskFromString);
    if todo.Err? {
      return Err(todo.error);
    }
    var time := ReadSection(ls, todo.value.1, "Done", false, EntryFromString);
    if time.Err? {
      return Err(time.error);
    }
    var done := ReadSection(ls, time.value.1, "None", true, TaskFromString);
    if done.Err? {
      return Err(done.error);
    }
    var sheet := new TymeSheet(Named(todo.value.0), time.value.0, Named(done.value.0));
    var o := sheet.Validate();
    if o.Fail? {
      return Err(o.error);
    }
    return Ok(sheet);
  }
}
