/** The ledger a time sheet keeps: the open tasks, the time log and the
    completed tasks. The sheet's operations appear here as functions from
    one ledger to the next; the `TymeSheet` class performs them in place. */
module Ledgers {
  import opened Wrappers
  import opened Times
  import opened Records

  predicate DistinctKeys(d: seq<(string, Task)>)
  {
    forall i, j :: 0 <= i < j < |d| ==> d[i].0 != d[j].0
  }

  /** An `OrderedDict` from names to tasks: its items in insertion order,
      no key twice. */
  type Dict = d: seq<(string, Task)> | DistinctKeys(d) witness []

  /** Position of key `k` (the first, should the items repeat a key). */
  function IndexOf(d: seq<(string, Task)>, k: string): (r: Option<nat>)
    ensures r.Some? ==> r.value < |d| && d[r.value].0 == k
    ensures r.Some? ==> forall i :: 0 <= i < r.value ==> d[i].0 != k
    ensures r.None? ==> forall i :: 0 <= i < |d| ==> d[i].0 != k
  {
    if |d| == 0 then None
    else if d[0].0 == k then Some(0)
    else match IndexOf(d[1..], k)
      case None => None
      case Some(i) => Some(i + 1)
  }

  /** `k in d` */
  predicate HasKey(d: seq<(string, Task)>, k: string)
  {
    IndexOf(d, k).Some?
  }

  /** `d[k]`, None when the key is missing. */
  function Lookup(d: seq<(string, Task)>, k: string): Option<Task>
  {
    match IndexOf(d, k)
    case None => None
    case Some(i) => Some(d[i].1)
  }

  /** `d[k] = v`: a key already present keeps its place, a new key goes last. */
  function Put(d: seq<(string, Task)>, k: string, v: Task): seq<(string, Task)>
  {
    match IndexOf(d, k)
    case Some(i) => d[i := (k, v)]
    case None => d + [(k, v)]
  }

  /** `d.pop(k)` (the caller has checked that the key is there). */
  function Remove(d: seq<(string, Task)>, k: string): seq<(string, Task)>
  {
    match IndexOf(d, k)
    case Some(i) => d[..i] + d[i + 1..]
    case None => d
  }

  /** `OrderedDict(pairs)`: the pairs put in one after the other, so that a
      repeated key keeps its first place and its last value. */
  function FromPairs(ps: seq<(string, Task)>): Dict
  {
    if |ps| == 0 then []
    else
      var d := FromPairs(ps[..|ps| - 1]);
      PutShape(d, ps[|ps| - 1].0, ps[|ps| - 1].1);
      Put(d, ps[|ps| - 1].0, ps[|ps| - 1].1)
  }

  /** `((t.name, t) for t in tasks)` */
  function Named(ts: seq<Task>): (r: seq<(string, Task)>)
    ensures |r| == |ts| && forall i :: 0 <= i < |ts| ==> r[i] == (ts[i].name, ts[i])
  {
    if |ts| == 0 then [] else [(ts[0].name, ts[0])] + Named(ts[1..])
  }

  /** Every task is filed under its own name. */
  predicate KeysNamed(d: seq<(string, Task)>)
  {
    forall i :: 0 <= i < |d| ==> d[i].0 == d[i].1.name
  }

  /** After `d[k] = v`, key `k` finds `v` and every other key what it found before. */
  lemma PutLookup(d: seq<(string, Task)>, k: string, v: Task, k2: string)
    ensures Lookup(Put(d, k, v), k2) == if k2 == k then Some(v) else Lookup(d, k2)
  {
    var r := Put(d, k, v);
    if IndexOf(d, k).Some? {
      var i := IndexOf(d, k).value;
      assert r[i].0 == k;
      assert forall j :: 0 <= j < |d| ==> d[j].0 == r[j].0;
      if k2 == k {
        assert IndexOf(r, k2).Some?;
        assert IndexOf(r, k2).value == i;
      } else if IndexOf(r, k2).Some? {
        assert IndexOf(d, k2).Some?;
      }
    } else {
      assert r[|d|].0 == k;
      if k2 != k && IndexOf(d, k2).Some? {
        var m := IndexOf(d, k2).value;
        assert r[m] == d[m];
      }
    }
  }

  /** `d[k] = v` keeps the keys distinct, and files `v` under `k`; a key not
      yet present goes last. */
  lemma PutShape(d: Dict, k: string, v: Task)
    ensures DistinctKeys(Put(d, k, v))
    ensures HasKey(d, k) ==> |Put(d, k, v)| == |d|
    ensures !HasKey(d, k) ==> Put(d, k, v) == d + [(k, v)]
    ensures KeysNamed(d) && v.name == k ==> KeysNamed(Put(d, k, v))
  {
  }

  /** Once the key is there, `d.pop(k)` removes exactly that key and keeps the
      others, in order. */
  lemma RemoveLookup(d: Dict, k: string, k2: string)
    ensures DistinctKeys(Remove(d, k))
    ensures KeysNamed(d) ==> KeysNamed(Remove(d, k))
    ensures Lookup(Remove(d, k), k2) == if k2 == k then None else Lookup(d, k2)
  {
    var r := Remove(d, k);
    match IndexOf(d, k)
    case None =>
    case Some(i) =>
      assert forall j :: 0 <= j < i ==> r[j] == d[j];
      assert forall j :: i <= j < |r| ==> r[j] == d[j + 1];
      if k2 == k {
        assert forall j :: 0 <= j < |r| ==> r[j].0 != k;
        assert IndexOf(r, k2).None?;
      } else {
        match IndexOf(d, k2)
        case None =>
          assert IndexOf(r, k2).None?;
        case Some(m) =>
          if m < i {
            assert IndexOf(r, k2) == Some(m);
          } else {
            assert r[m - 1].0 == k2;
            assert forall j :: 0 <= j < m - 1 ==> r[j].0 != k2;
            assert IndexOf(r, k2) == Some(m - 1);
          }
      }
  }

  /** Building an `OrderedDict` from pairs with distinct keys keeps them as
      they are. */
  lemma {:induction false} FromPairsDistinct(ps: seq<(string, Task)>)
    requires DistinctKeys(ps)
    ensures FromPairs(ps) == ps
  {
    if |ps| > 0 {
      var init := ps[..|ps| - 1];
      assert DistinctKeys(init);
      FromPairsDistinct(init);
      assert IndexOf(init, ps[|ps| - 1].0).None?;
      assert init + [ps[|ps| - 1]] == ps;
    }
  }

  /** Building an `OrderedDict` from pairs files each task under its name
      when the pairs do. */
  lemma {:induction false} FromPairsNamed(ps: seq<(string, Task)>)
    requires KeysNamed(ps)
    ensures KeysNamed(FromPairs(ps))
  {
    if |ps| > 0 {
      var init := ps[..|ps| - 1];
      FromPairsNamed(init);
      PutShape(FromPairs(init), ps[|ps| - 1].0, ps[|ps| - 1].1);
    }
  }

  /** The three collections of a `TymeSheet`. */
  datatype Ledger = Ledger(todo: Dict, time: seq<Entry>, done: Dict)

  /** Only the last entry of the time log may still be open. */
  predicate OnlyLastOpen(time: seq<Entry>)
  {
    forall i :: 0 <= i < |time| - 1 ==> time[i].end.Some?
  }

  /** What every sheet read from a file satisfies and every operation keeps. */
  predicate Valid(l: Ledger)
  {
    KeysNamed(l.todo) && KeysNamed(l.done) && OnlyLastOpen(l.time)
  }

  /** `current_entry`: the last entry of the log while it is open. */
  function Current(time: seq<Entry>): Option<Entry>
  {
    if |time| > 0 && time[|time| - 1].end.None? then Some(time[|time| - 1]) else None
  }

  /** In a log where only the last entry may be open, `current_entry` is the
      open entry, and there is none exactly when it gives None. */
  lemma CurrentIsOpenEntry(time: seq<Entry>, e: Entry)
    requires OnlyLastOpen(time)
    ensures Current(time) == Some(e) <==> e in time && e.end.None?
    ensures Current(time).None? <==> forall i :: 0 <= i < |time| ==> time[i].end.Some?
  {
  }

  /** Sets the end of the last entry of the log. */
  function CloseLast(time: seq<Entry>, t: Stamp): (r: seq<Entry>)
    requires |time| > 0
  {
    time[..|time| - 1] + [time[|time| - 1].(end := Some(t))]
  }

  /** `add_task`: only `todo` is searched for the name. */
  function Added(l: Ledger, name: string, tags: seq<string>, deadline: Option<Stamp>): Result<Ledger>
  {
    if HasKey(l.todo, name) then Err(TymeError("That task already exists."))
    else
      PutShape(l.todo, name, Task(name, tags, deadline));
      Ok(l.(todo := Put(l.todo, name, Task(name, tags, deadline))))
  }

  /** `clock_out`: the ledger with the open entry closed at `t`, and the
      name of its task. */
  function ClockedOut(l: Ledger, t: Stamp): Result<(Ledger, string)>
  {
    match Current(l.time)
    case None => Err(TymeError("Not clocked in."))
    case Some(e) => Ok((l.(time := CloseLast(l.time, t)), e.task))
  }

  /** `clock_in`: closes the open entry, if any, and opens one for `task`,
      both at `t`. */
  function ClockedIn(l: Ledger, task: string, t: Stamp): Ledger
  {
    var closed := match ClockedOut(l, t) case Ok((l1, _)) => l1 case Err(_) => l;
    closed.(time := closed.time + [Entry(task, t, None)])
  }

  /** `complete_task`: moves the task to `done` with `t` as its deadline and
      clocks out when the open entry is for that task. */
  function Completed(l: Ledger, name: string, t: Stamp): Result<Ledger>
  {
    match Lookup(l.todo, name)
    case None => Err(TymeError("No such task."))
    case Some(task) =>
      RemoveLookup(l.todo, name, name);
      PutShape(l.done, name, task.(deadline := Some(t)));
      var moved := l.(todo := Remove(l.todo, name), done := Put(l.done, name, task.(deadline := Some(t))));
      if Current(l.time).Some? && Current(l.time).value.task == name
      then Ok(moved.(time := CloseLast(l.time, t)))
      else Ok(moved)
  }

  /** `set(t.tags)` */
  function TagSet(t: Task): set<string>
  {
    set x | x in t.tags
  }

  /** The items whose task carries every tag in `tags`, in their order. */
  function Keep(d: seq<(string, Task)>, tags: set<string>): seq<(string, Task)>
  {
    if |d| == 0 then []
    else (if tags <= TagSet(d[0].1) then [d[0]] else []) + Keep(d[1..], tags)
  }

  /** The entries whose task is a key of `todo` or of `done`, in their order. */
  function KeepEntries(time: seq<Entry>, todo: seq<(string, Task)>, done: seq<(string, Task)>): seq<Entry>
  {
    if |time| == 0 then []
    else (if HasKey(todo, time[0].task) || HasKey(done, time[0].task) then [time[0]] else [])
         + KeepEntries(time[1..], todo, done)
  }

  /** `tag_filter`: with no tags the same ledger; otherwise the tasks that
      carry all the tags and the entries of those tasks. */
  function Filtered(l: Ledger, tags: seq<string>): Ledger
  {
    if |tags| == 0 then l
    else
      var fs := set x | x in tags;
      KeepDict(l.todo, fs);
      KeepDict(l.done, fs);
      var todo := Keep(l.todo, fs);
      var done := Keep(l.done, fs);
      Ledger(todo, KeepEntries(l.time, todo, done), done)
  }

  /** An item survives the filter exactly when its task carries every tag. */
  lemma {:induction false} KeepMembers(d: seq<(string, Task)>, tags: set<string>)
    ensures forall p :: p in Keep(d, tags) <==> p in d && tags <= TagSet(p.1)
  {
    if |d| > 0 {
      KeepMembers(d[1..], tags);
      assert d == [d[0]] + d[1..];
    }
  }

  /** The filter keeps the order of the items: filtering a concatenation is
      concatenating the filtered parts. */
  lemma {:induction false} KeepAppend(a: seq<(string, Task)>, b: seq<(string, Task)>, tags: set<string>)
    ensures Keep(a + b, tags) == Keep(a, tags) + Keep(b, tags)
  {
    if |a| > 0 {
      assert (a + b)[1..] == a[1..] + b;
      KeepAppend(a[1..], b, tags);
    } else {
      assert a + b == b;
    }
  }

  /** Filtering a dictionary leaves a dictionary whose tasks stay under their
      own names. */
  lemma {:induction false} KeepDict(d: seq<(string, Task)>, tags: set<string>)
    requires DistinctKeys(d)
    ensures DistinctKeys(Keep(d, tags))
    ensures KeysNamed(d) ==> KeysNamed(Keep(d, tags))
  {
    if |d| > 0 {
      KeepDict(d[1..], tags);
      KeepMembers(d[1..], tags);
      var r := Keep(d[1..], tags);
      forall j | 0 <= j < |r|
        ensures r[j].0 != d[0].0
      {
        assert r[j] in d[1..];
      }
    }
  }

  /** Filtering twice with the same tags filters once. */
  lemma {:induction false} KeepTwice(d: seq<(string, Task)>, tags: set<string>)
    ensures Keep(Keep(d, tags), tags) == Keep(d, tags)
  {
    if |d| > 0 {
      KeepTwice(d[1..], tags);
      var head := if tags <= TagSet(d[0].1) then [d[0]] else [];
      KeepAppend(head, Keep(d[1..], tags), tags);
    }
  }

  /** An entry survives exactly when its task is a key of `todo` or `done`. */
  lemma {:induction false} KeepEntriesMembers(time: seq<Entry>, todo: seq<(string, Task)>, done: seq<(string, Task)>)
    ensures forall e :: e in KeepEntries(time, todo, done)
                        <==> e in time && (HasKey(todo, e.task) || HasKey(done, e.task))
  {
    if |time| > 0 {
      KeepEntriesMembers(time[1..], todo, done);
      assert time == [time[0]] + time[1..];
    }
  }

  /** The entry filter keeps the order of the log. */
  lemma {:induction false} KeepEntriesAppend(a: seq<Entry>, b: seq<Entry>, todo: seq<(string, Task)>, done: seq<(string, Task)>)
    ensures KeepEntries(a + b, todo, done) == KeepEntries(a, todo, done) + KeepEntries(b, todo, done)
  {
    if |a| > 0 {
      assert (a + b)[1..] == a[1..] + b;
      KeepEntriesAppend(a[1..], b, todo, done);
    } else {
      assert a + b == b;
    }
  }

  lemma {:induction false} KeepEntriesTwice(time: seq<Entry>, todo: seq<(string, Task)>, done: seq<(string, Task)>)
    ensures KeepEntries(KeepEntries(time, todo, done), todo, done) == KeepEntries(time, todo, done)
  {
    if |time| > 0 {
      KeepEntriesTwice(time[1..], todo, done);
      var head := if HasKey(todo, time[0].task) || HasKey(done, time[0].task) then [time[0]] else [];
      KeepEntriesAppend(head, KeepEntries(time[1..], todo, done), todo, done);
    }
  }

  /** Dropping entries from a log where only the last may be open leaves a
      log where only the last may be open. */
  lemma {:induction false} KeepEntriesOpen(time: seq<Entry>, todo: seq<(string, Task)>, done: seq<(string, Task)>)
    requires OnlyLastOpen(time)
    ensures OnlyLastOpen(KeepEntries(time, todo, done))
  {
    if |time| > 0 {
      KeepEntriesOpen(time[1..], todo, done);
      if |time| == 1 {
        assert KeepEntries(time[1..], todo, done) == [];
      }
    }
  }

  /** `tag_filter` with tags: the tasks of `todo` and `done` that carry every
      tag, and the entries whose task is one of them. */
  lemma FilteredMembers(l: Ledger, tags: seq<string>)
    requires |tags| > 0
    ensures var r := Filtered(l, tags);
            && (forall p :: p in r.todo <==> p in l.todo && (forall x :: x in tags ==> x in p.1.tags))
            && (forall p :: p in r.done <==> p in l.done && (forall x :: x in tags ==> x in p.1.tags))
            && (forall e :: e in r.time <==> e in l.time && (HasKey(r.todo, e.task) || HasKey(r.done, e.task)))
  {
    var fs := set x | x in tags;
    forall p: (string, Task)
      ensures fs <= TagSet(p.1) <==> forall x :: x in tags ==> x in p.1.tags
    {
      if forall x :: x in tags ==> x in p.1.tags {
        assert forall x :: x in fs ==> x in TagSet(p.1);
      }
      if fs <= TagSet(p.1) {
        forall x | x in tags
          ensures x in p.1.tags
        {
          assert x in fs;
        }
      }
    }
    KeepMembers(l.todo, fs);
    KeepMembers(l.done, fs);
    var r := Filtered(l, tags);
    KeepEntriesMembers(l.time, r.todo, r.done);
  }

  /** Filtering with the same tags twice is filtering once. */
  lemma FilteredIdempotent(l: Ledger, tags: seq<string>)
    ensures Filtered(Filtered(l, tags), tags) == Filtered(l, tags)
  {
    if |tags| > 0 {
      var fs := set x | x in tags;
      KeepTwice(l.todo, fs);
      KeepTwice(l.done, fs);
      KeepEntriesTwice(l.time, Keep(l.todo, fs), Keep(l.done, fs));
    }
  }

  /** Filtering keeps a valid ledger valid. */
  lemma FilteredValid(l: Ledger, tags: seq<string>)
    requires Valid(l)
    ensures Valid(Filtered(l, tags))
  {
    if |tags| > 0 {
      var fs := set x | x in tags;
      KeepDict(l.todo, fs);
      KeepDict(l.done, fs);
      KeepEntriesOpen(l.time, Keep(l.todo, fs), Keep(l.done, fs));
    }
  }

  /** `add_task` fails exactly when `todo` already has the name; otherwise the
      new task, with no total and the given tags and deadline, goes last in
      `todo` and nothing else changes. */
  lemma AddedSpec(l: Ledger, name: string, tags: seq<string>, deadline: Option<Stamp>)
    ensures Added(l, name, tags, deadline).Err? <==> HasKey(l.todo, name)
    ensures Added(l, name, tags, deadline).Err? ==> Added(l, name, tags, deadline).error == TymeError("That task already exists.")
    ensures Added(l, name, tags, deadline).Ok? ==>
              Added(l, name, tags, deadline).value == Ledger(l.todo + [(name, Task(name, tags, deadline))], l.time, l.done)
    ensures Valid(l) && Added(l, name, tags, deadline).Ok? ==> Valid(Added(l, name, tags, deadline).value)
  {
    PutShape(l.todo, name, Task(name, tags, deadline));
  }

  /** In a dictionary that files every task under its own name, `add_task`
      refuses a task exactly when `todo` holds one equal to it under
      `Task.__eq__`, which compares names only. */
  lemma AddedRejectsSameTask(l: Ledger, name: string, tags: seq<string>, deadline: Option<Stamp>)
    requires KeysNamed(l.todo)
    ensures Added(l, name, tags, deadline).Err?
            <==> exists i :: 0 <= i < |l.todo| && SameTask(l.todo[i].1, Task(name, tags, deadline))
  {
    if HasKey(l.todo, name) {
      var i := IndexOf(l.todo, name).value;
      assert SameTask(l.todo[i].1, Task(name, tags, deadline));
    }
  }

  /** `add_task` does not look at `done`: a completed task's name can be added
      again, and the ledger then holds it in both `todo` and `done`. */
  lemma AddedIgnoresDone(l: Ledger, name: string, tags: seq<string>)
    requires HasKey(l.done, name) && !HasKey(l.todo, name)
    ensures Added(l, name, tags, None).Ok?
    ensures HasKey(Added(l, name, tags, None).value.todo, name) && HasKey(Added(l, name, tags, None).value.done, name)
  {
    PutShape(l.todo, name, Task(name, tags, None));
    PutLookup(l.todo, name, Task(name, tags, None), name);
  }

  /** `clock_out` fails, changing nothing, exactly when no entry is open;
      otherwise it sets the end of the last entry alone and returns its task,
      and afterwards no entry is open. */
  lemma ClockedOutSpec(l: Ledger, t: Stamp)
    ensures ClockedOut(l, t).Err? <==> Current(l.time).None?
    ensures ClockedOut(l, t).Err? ==> ClockedOut(l, t).error == TymeError("Not clocked in.")
    ensures ClockedOut(l, t).Ok? ==>
              var (r, task) := ClockedOut(l, t).value;
              var n := |l.time|;
              && r.todo == l.todo && r.done == l.done
              && |r.time| == n && r.time[..n - 1] == l.time[..n - 1]
              && r.time[n - 1] == l.time[n - 1].(end := Some(t))
              && task == l.time[n - 1].task
              && Current(r.time).None?
    ensures Valid(l) && ClockedOut(l, t).Ok? ==>
              Valid(ClockedOut(l, t).value.0)
              && forall i :: 0 <= i < |l.time| ==> ClockedOut(l, t).value.0.time[i].end.Some?
  {
  }

  /** `clock_in`: an open entry is closed at the time the new one starts, so
      that the two meet; the new open entry goes last and, in a valid ledger,
      is then the only open one. */
  lemma ClockedInSpec(l: Ledger, task: string, t: Stamp)
    ensures var r := ClockedIn(l, task, t);
            var n := |l.time|;
            && r.todo == l.todo && r.done == l.done
            && |r.time| == n + 1 && r.time[n] == Entry(task, t, None)
            && Current(r.time) == Some(Entry(task, t, None))
            && (Current(l.time).None? ==> r.time == l.time + [Entry(task, t, None)])
            && (Current(l.time).Some? ==>
                  && r.time[..n - 1] == l.time[..n - 1]
                  && r.time[n - 1] == l.time[n - 1].(end := Some(t))
                  && r.time[n - 1].end == Some(r.time[n].start))
    ensures Valid(l) ==> Valid(ClockedIn(l, task, t))
    ensures Valid(l) ==> forall i :: 0 <= i < |l.time| ==> ClockedIn(l, task, t).time[i].end.Some?
  {
    ClockedOutSpec(l, t);
    var r := ClockedIn(l, task, t);
    var n := |l.time|;
    if Current(l.time).Some? {
      assert r.time[..n - 1] == l.time[..n - 1];
    }
  }

  /** `complete_task` fails, changing nothing, exactly when `todo` lacks the
      name; otherwise the task leaves `todo`, the other items keeping their
      order, and is filed in `done` with `t` as its deadline, in the place
      its name already holds there or else last; the open entry is closed
      at `t` only when it is for that task. */
  lemma CompletedSpec(l: Ledger, name: string, t: Stamp)
    ensures Completed(l, name, t).Err? <==> !HasKey(l.todo, name)
    ensures Completed(l, name, t).Err? ==> Completed(l, name, t).error == TymeError("No such task.")
    ensures Completed(l, name, t).Ok? ==>
              var r := Completed(l, name, t).value;
              var task := Lookup(l.todo, name).value;
              && !HasKey(r.todo, name)
              && (forall k :: k != name ==> Lookup(r.todo, k) == Lookup(l.todo, k))
              && Lookup(r.done, name) == Some(task.(deadline := Some(t)))
              && (forall k :: k != name ==> Lookup(r.done, k) == Lookup(l.done, k))
              && (!HasKey(l.done, name) ==> r.done == l.done + [(name, task.(deadline := Some(t)))])
              && (HasKey(l.done, name) ==>
                    r.done == l.done[IndexOf(l.done, name).value := (name, task.(deadline := Some(t)))])
              && r.todo == l.todo[..IndexOf(l.todo, name).value] + l.todo[IndexOf(l.todo, name).value + 1..]
              && r.time == if Current(l.time).Some? && Current(l.time).value.task == name
                           then CloseLast(l.time, t) else l.time
  {
    if HasKey(l.todo, name) {
      var moved := Lookup(l.todo, name).value.(deadline := Some(t));
      var r := Completed(l, name, t).value;
      assert r.todo == Remove(l.todo, name) && r.done == Put(l.done, name, moved);
      PutShape(l.done, name, moved);
      RemoveLookup(l.todo, name, name);
      PutLookup(l.done, name, moved, name);
      forall k | k != name
        ensures Lookup(r.todo, k) == Lookup(l.todo, k)
        ensures Lookup(r.done, k) == Lookup(l.done, k)
      {
        RemoveLookup(l.todo, name, k);
        PutLookup(l.done, name, moved, k);
      }
    }
  }

  /** `complete_task` keeps a valid ledger valid. */
  lemma CompletedValid(l: Ledger, name: string, t: Stamp)
    requires Valid(l) && Completed(l, name, t).Ok?
    ensures Valid(Completed(l, name, t).value)
  {
    var i := IndexOf(l.todo, name).value;
    assert l.todo[i].0 == l.todo[i].1.name;
    var moved := l.todo[i].1.(deadline := Some(t));
    PutShape(l.done, name, moved);
    RemoveLookup(l.todo, name, name);
  }
}
