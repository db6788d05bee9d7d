/** `StorageController`: the persistent dictionary, its debounced save, and the save's file steps. */
module Storage {
  import opened Wrappers

  // A value is addressed by its key and, for nested dictionaries, by a subkey, which in this program
  // is always the decimal text of an id (injective, see Decimal.StrInjective).
  datatype Name = Nodes | GroupKeys | NodeKeysets | GroupNodes | OtherName(text: string)
  datatype Cell = Cell(key: Name, subkey: Option<nat>)
  // `Ids` is the sorted list of a set of ids, which the set determines and `set(...)` restores.
  datatype Value = KeyRecord(keyset: nat, key: string) | Ids(ids: set<nat>) | Json(text: string)
  type Data = map<Cell, Value>

  /* ---- Files ---- */

  // `Partial` is a file that cannot be decoded.
  datatype File = Absent | Partial | Whole(data: Data)
  datatype Files = Files(main: File, backup: File)

  // What `_load` returns: the first of main and backup that decodes, else an empty dictionary.
  function Recover(files: Files): Data {
    if files.main.Whole? then files.main.data
    else if files.backup.Whole? then files.backup.data
    else map[]
  }

  /* ---- The save machine: one event loop, any number of save tasks behind one lock ---- */

  // Where the save holding the lock has got to; `Dumped` holds what was written to the temporary file.
  datatype Phase = Started | Unlinked | Copying | Copied | Dumped(snapshot: Data)

  // `handle` is whether `_timer_handle` is set, `armed` whether its callback is still to come:
  // firing does not reset the handle. `queued` counts save tasks that wait for the lock.
  datatype Machine = Machine(data: Data, handle: bool, armed: bool, queued: nat, saving: Option<Phase>, files: Files)

  function AfterSave(m: Machine, immediate: bool): Machine {
    if immediate then m.(handle := false, armed := m.armed && !m.handle, queued := m.queued + 1)
    else m.(handle := true, armed := true)
  }

  predicate SameAlready(data: Data, cell: Cell, value: Value) {
    cell in data && data[cell] == value
  }

  function AfterSet(m: Machine, cell: Cell, value: Value, force: bool): Machine {
    if !force && SameAlready(m.data, cell, value) then m
    else AfterSave(m.(data := m.data[cell := value]), force)
  }

  function AfterRemove(m: Machine, cell: Cell): Machine {
    AfterSave(m.(data := m.data - {cell}), true)
  }

  // One step of `do_save` for the task that holds the lock.
  function Progress(m: Machine): Machine {
    match m.saving
    case None => m
    case Some(Started) => m.(saving := Some(Unlinked), files := m.files.(backup := Absent))
    case Some(Unlinked) =>
      if m.files.main.Absent? then m.(saving := Some(Copied))
      else m.(saving := Some(Copying), files := m.files.(backup := Partial))
    case Some(Copying) => m.(saving := Some(Copied), files := m.files.(backup := m.files.main))
    case Some(Copied) => m.(saving := Some(Dumped(m.data)))
    case Some(Dumped(snapshot)) => m.(saving := None, files := m.files.(main := Whole(snapshot)))
  }

  datatype Event =
    | DoSet(cell: Cell, value: Value, force: bool)
    | DoRemove(cell: Cell)
    | Fire      // the timer's callback runs
    | Acquire   // a waiting save task gets the lock
    | DoProgress

  function Step(m: Machine, e: Event): Machine {
    match e
    case DoSet(cell, value, force) => AfterSet(m, cell, value, force)
    case DoRemove(cell) => AfterRemove(m, cell)
    case Fire => if m.armed then m.(armed := false, queued := m.queued + 1) else m
    case Acquire => if m.saving.None? && m.queued > 0 then m.(queued := m.queued - 1, saving := Some(Started)) else m
    case DoProgress => Progress(m)
  }

  function Run(m: Machine, events: seq<Event>): Machine {
    if events == [] then m else Step(Run(m, events[..|events| - 1]), events[|events| - 1])
  }

  /* ---- No lost save ---- */

  // A save that has not yet read the dictionary is certain to come.
  predicate SaveToCome(m: Machine) {
    m.armed || m.queued > 0 || (m.saving.Some? && !m.saving.value.Dumped?)
  }

  predicate Outstanding(m: Machine) {
    m.armed || m.queued > 0 || m.saving.Some?
  }

  predicate Covered(m: Machine) {
    && (m.armed ==> m.handle)
    && (SaveToCome(m)
        || (m.saving.None? && Recover(m.files) == m.data)
        || m.saving == Some(Dumped(m.data)))
  }

  predicate Loaded(m: Machine) {
    m.data == Recover(m.files) && m.saving.None? && !m.handle && !m.armed && m.queued == 0
  }

  /** Over every interleaving of writes, timer, task starts and file steps after a load, whenever the
      memory differs from what a restart would read, a timer is armed or a save is outstanding. */
  lemma {:induction false} NoLostSave(m: Machine, events: seq<Event>)
    requires Loaded(m)
    ensures Covered(Run(m, events))
    ensures Run(m, events).data != Recover(Run(m, events).files) ==> Outstanding(Run(m, events))
    decreases events
  {
    if events != [] {
      NoLostSave(m, events[..|events| - 1]);
    }
  }

  /** Writes that are not forced wait for the timer, however many there are: no save task is started before it
      fires, and it is set exactly if one of them changed something. */
  lemma {:induction false} WritesWait(m: Machine, events: seq<Event>)
    requires Loaded(m) && forall e :: e in events ==> e.DoSet? && !e.force
    ensures var s := Run(m, events);
      && s.queued == 0 && s.saving.None? && s.files == m.files
      && (s.armed <==> s.handle) && (s.armed <==> exists i :: 0 <= i < |events| && Changes(m, events, i))
      && (!s.armed ==> s.data == m.data)
    decreases events
  {
    if events != [] {
      var k := |events| - 1;
      assert forall e :: e in events[..k] ==> e in events;
      assert events[k] in events;
      WritesWait(m, events[..k]);
      forall i | 0 <= i < k ensures Changes(m, events[..k], i) <==> Changes(m, events, i) {
        assert events[..k][..i] == events[..i];
      }
      var s := Run(m, events[..k]);
      assert Step(s, events[k]).armed <==> s.armed || Changes(m, events, k);
      if s.armed {
        var i :| 0 <= i < k && Changes(m, events[..k], i);
        assert Changes(m, events, i);
      }
    }
  }

  // The i-th event sets another value than the one that is there by then.
  predicate Changes(m: Machine, events: seq<Event>, i: nat)
    requires i < |events|
  {
    var e, data := events[i], Run(m, events[..i]).data;
    e.DoSet? && !(e.cell in data && data[e.cell] == e.value)
  }

  /** `stop` skips its final save when no handle is set. That loses nothing if no save task is left
      behind either; a forced write clears the handle and leaves only its task. */
  lemma StopMaySkip(m: Machine, events: seq<Event>)
    requires Loaded(m)
    ensures var s := Run(m, events); !s.handle && s.queued == 0 && s.saving.None? ==> Recover(s.files) == s.data
  {
    NoLostSave(m, events);
  }

  lemma StopAfterForcedWriteLosesIt(m: Machine, cell: Cell, value: Value)
    requires Loaded(m) && !SameAlready(m.data, cell, value)
    ensures var s := Run(m, [DoSet(cell, value, true)]);
      !s.handle && s.queued == 1 && Recover(s.files) != s.data
  {
    var s := Run(m, [DoSet(cell, value, true)]);
    assert [DoSet(cell, value, true)][..0] == [];
    assert s.data[cell] == value;
  }

  // A stored value that is a live object changes in the dictionary without any call on the controller.
  function MutateInPlace(m: Machine, cell: Cell, value: Value): Machine
    requires cell in m.data
  {
    m.(data := m.data[cell := value])
  }

  // Memory differs from what the files hold or are about to hold, and no save is to come.
  predicate Lost(m: Machine) {
    && !SaveToCome(m)
    && (if m.saving.Some? then m.saving.value.snapshot != m.data else Recover(m.files) != m.data)
  }

  /** `_write_node_state` stores the live node, so after it changed in place `set` compares it with itself
      and schedules nothing. The change is still written if and only if a save that has not read the
      dictionary yet was to come anyway; a save already past its dump does not help. */
  lemma LiveObjectIff(m: Machine, cell: Cell, value: Value)
    requires Covered(m) && cell in m.data && m.data[cell] != value
    ensures var s := AfterSet(MutateInPlace(m, cell, value), cell, value, false);
      && (Covered(s) <==> SaveToCome(m))
      && (Lost(s) <==> !SaveToCome(m))
  {
    var s := AfterSet(MutateInPlace(m, cell, value), cell, value, false);
    assert s.data[cell] == value && s.data != m.data;
  }

  /** A lost change stays lost, whatever timers and save tasks do, until the next write. */
  lemma {:induction false} LostStaysLost(m: Machine, events: seq<Event>)
    requires Lost(m) && forall e :: e in events ==> e.Fire? || e.Acquire? || e.DoProgress?
    ensures Lost(Run(m, events))
    decreases events
  {
    if events != [] {
      LostStaysLost(m, events[..|events| - 1]);
      assert events[|events| - 1] in events;
    }
  }

  /** So from a freshly loaded state: in memory, not on disk, and nothing will write it. */
  lemma LiveObjectIsNotSaved(m: Machine, cell: Cell, value: Value, events: seq<Event>)
    requires Loaded(m) && cell in m.data && m.data[cell] != value
    requires forall e :: e in events ==> e.Fire? || e.Acquire? || e.DoProgress?
    ensures var s := Run(AfterSet(MutateInPlace(m, cell, value), cell, value, false), events);
      Recover(s.files) != s.data && cell in s.data && s.data[cell] == value
  {
    var s := AfterSet(MutateInPlace(m, cell, value), cell, value, false);
    LiveObjectIff(m, cell, value);
    QuietIdle(s, events);
  }

  // Without a timer or a task nothing happens.
  lemma {:induction false} QuietIdle(m: Machine, events: seq<Event>)
    requires !Outstanding(m) && forall e :: e in events ==> e.Fire? || e.Acquire? || e.DoProgress?
    ensures Run(m, events) == m
    decreases events
  {
    if events != [] {
      QuietIdle(m, events[..|events| - 1]);
      assert events[|events| - 1] in events;
    }
  }

  /* ---- Crash safety ---- */

  // A complete main file, or nothing to load.
  predicate Sound(files: Files) {
    files.main.Whole? || (files.main.Absent? && !files.backup.Whole?)
  }

  // What stopping now and loading gives: unchanged by every step but the final replace.
  lemma StepDurable(m: Machine, e: Event)
    requires Sound(m.files)
    ensures Sound(Step(m, e).files)
    ensures Recover(Step(m, e).files) == Recover(m.files)
      || (m.saving.Some? && m.saving.value.Dumped? && Recover(Step(m, e).files) == m.saving.value.snapshot)
  {
  }

  // `d` is the dictionary the run started from on disk, or one that was in memory at some point of it.
  ghost predicate Seen(m: Machine, events: seq<Event>, d: Data) {
    d == Recover(m.files) || exists i :: 0 <= i <= |events| && Run(m, events[..i]).data == d
  }

  lemma SeenLater(m: Machine, events: seq<Event>, d: Data)
    requires events != [] && Seen(m, events[..|events| - 1], d)
    ensures Seen(m, events, d)
  {
    if d != Recover(m.files) {
      var before := events[..|events| - 1];
      var i :| 0 <= i <= |before| && Run(m, before[..i]).data == d;
      assert before[..i] == events[..i];
    }
  }

  // The dictionary that the last completed replacement wrote, or else the one first on disk.
  function LastReplaced(m: Machine, events: seq<Event>): Data {
    if events == [] then Recover(m.files)
    else
      var before, e := Run(m, events[..|events| - 1]), events[|events| - 1];
      if e.DoProgress? && before.saving.Some? && before.saving.value.Dumped? then before.saving.value.snapshot
      else LastReplaced(m, events[..|events| - 1])
  }

  /** Stopping after any step of any run, in the middle of a copy included, and loading again yields the
      dictionary of the last save that got to its replacement. */
  lemma {:induction false} RecoversLastSave(m: Machine, events: seq<Event>)
    requires Sound(m.files)
    ensures Sound(Run(m, events).files)
    ensures Recover(Run(m, events).files) == LastReplaced(m, events)
    decreases events
  {
    hide Step, Recover, Sound;
    if events != [] {
      RecoversLastSave(m, events[..|events| - 1]);
      StepReplaces(Run(m, events[..|events| - 1]), events[|events| - 1]);
    }
  }

  lemma StepReplaces(m: Machine, e: Event)
    requires Sound(m.files)
    ensures Sound(Step(m, e).files)
    ensures Recover(Step(m, e).files) ==
      if e.DoProgress? && m.saving.Some? && m.saving.value.Dumped? then m.saving.value.snapshot else Recover(m.files)
  {
  }

  /** That is a whole dictionary, the one first on disk or one that was in memory at some point of the run. */
  lemma {:induction false} CrashRecovery(m: Machine, events: seq<Event>)
    requires Sound(m.files) && m.saving.None?
    ensures Sound(Run(m, events).files)
    ensures Seen(m, events, Recover(Run(m, events).files))
    ensures var s := Run(m, events).saving; s.Some? && s.value.Dumped? ==> Seen(m, events, s.value.snapshot)
    decreases events
  {
    if events != [] {
      var before := events[..|events| - 1];
      var e := events[|events| - 1];
      CrashRecovery(m, before);
      var b := Run(m, before);
      StepDurable(b, e);
      SeenLater(m, events, Recover(b.files));
      if b.saving.Some? && b.saving.value.Dumped? { SeenLater(m, events, b.saving.value.snapshot); }
      assert events[..|before|] == before;
    }
  }

  // The files after the first `steps` steps of one undisturbed save of `data`.
  function FilesAfter(files: Files, data: Data, steps: nat): Files {
    if steps == 0 then files
    else if steps == 1 then files.(backup := Absent)
    else if steps == 2 then Files(files.main, if files.main.Absent? then Absent else Partial)
    else if steps == 3 then Files(files.main, files.main)
    else Files(Whole(data), files.main)
  }

  /** One save survives a crash after each of its steps exactly when the main file is whole, or the
      backup holds nothing a load would return, or the new data is empty anyway: a good backup beside
      a missing or broken main file is deleted before it has been replaced. */
  lemma CrashSafeIff(files: Files, data: Data)
    ensures (forall steps :: 0 <= steps <= 4 ==> Recover(FilesAfter(files, data, steps)) in {Recover(files), data})
      <==> files.main.Whole? || !files.backup.Whole? || files.backup.data == map[] || data == map[]
  {
    if !(files.main.Whole? || !files.backup.Whole? || files.backup.data == map[] || data == map[]) {
      assert Recover(FilesAfter(files, data, 1)) == map[];
    }
  }

  /* ---- The controller object ---- */

  class StorageController {
    var data: Data
    var handle: bool
    var armed: bool
    var queued: nat
    var saving: Option<Phase>
    var files: Files

    function View(): Machine
      reads this
    {
      Machine(data, handle, armed, queued, saving, files)
    }

    // `start`: load what the files hold.
    constructor (files: Files)
      ensures View() == Machine(Recover(files), false, false, 0, None, files)
      ensures Loaded(View())
    {
      this.files, handle, armed, queued, saving := files, false, false, 0, None;
      new;
      data := LoadFirst();
    }

    // The loop of `_load` over the main file and its backup.
    method LoadFirst() returns (loaded: Data)
      ensures loaded == Recover(files)
    {
      var candidates := [files.main, files.backup];
      for i := 0 to |candidates|
        invariant forall j :: 0 <= j < i ==> !candidates[j].Whole?
      {
        if candidates[i].Whole? {
          assert i > 0 ==> !candidates[0].Whole?;
          return candidates[i].data;
        }
      }
      assert !candidates[0].Whole? && !candidates[1].Whole?;
      return map[];
    }

    method Get(cell: Cell) returns (value: Option<Value>)
      ensures value == if cell in data then Some(data[cell]) else None
    {
      value := if cell in data then Some(data[cell]) else None;
    }

    method Set(cell: Cell, value: Value, force: bool)
      modifies this
      ensures View() == AfterSet(old(View()), cell, value, force)
      ensures data == old(data)[cell := value] && files == old(files) && saving == old(saving)
      ensures force ==> queued == old(queued) + 1 && !handle
      ensures !force && old(cell in data && data[cell] == value) ==> View() == old(View())
      ensures !force && !old(cell in data && data[cell] == value) ==> queued == old(queued) && handle && armed
    {
      var current := Get(cell);
      if !force && current == Some(value) {
        return;
      }
      data := data[cell := value];
      Save(force);
    }

    method Remove(cell: Cell)
      modifies this
      ensures View() == AfterRemove(old(View()), cell)
      ensures data == old(data) - {cell} && queued == old(queued) + 1 && !handle
    {
      data := data - {cell};
      Save(true);
    }

    method Save(immediate: bool)
      modifies this
      ensures View() == AfterSave(old(View()), immediate)
      ensures data == old(data) && queued == old(queued) + (if immediate then 1 else 0) && handle == !immediate
    {
      if handle {
        armed := false;  // cancel; harmless when the callback already ran
        handle := false;
      }
      if immediate {
        queued := queued + 1;
      } else {
        armed := true;
        handle := true;
      }
    }

    // `do_save` from start to end, with nothing in between.
    method DoSave()
      modifies this`files
      ensures files == FilesAfter(old(files), data, 4)
    {
      files := files.(backup := Absent);
      if !files.main.Absent? {
        files := files.(backup := Partial);
        files := files.(backup := files.main);
      }
      files := files.(main := Whole(data));
    }
  }

  function Iterate(m: Machine, n: nat): Machine {
    if n == 0 then m else Progress(Iterate(m, n - 1))
  }

  lemma IterateMore(m: Machine, n: nat)
    ensures Iterate(m, n + 1) == Progress(Iterate(m, n))
  {
  }

  lemma LastFiles(files: Files, data: Data)
    ensures FilesAfter(files, data, 4) == Files(Whole(data), files.main)
  {
  }

  /** The file steps of the machine, run without interruption, are the whole save of the controller. */
  lemma ProgressIsDoSave(m: Machine)
    requires m.saving == Some(Started)
    ensures Iterate(m, if m.files.main.Absent? then 4 else 5)
      == m.(saving := None, files := FilesAfter(m.files, m.data, 4))
  {
    hide Iterate, FilesAfter, Progress;
    IterateTwo(m, 0);
    LastFiles(m.files, m.data);
    SaveBegins(m);
    var m2 := Iterate(m, 2);
    if m.files.main.Absent? {
      IterateTwo(m, 2);
      SaveEnds(m2);
    } else {
      IterateMore(m, 2);
      CopyEnds(m2);
      IterateTwo(m, 3);
      SaveEnds(Iterate(m, 3));
    }
  }

  lemma SaveBegins(m: Machine)
    requires m.saving == Some(Started)
    ensures Progress(Progress(m)) ==
      if m.files.main.Absent? then m.(saving := Some(Copied), files := Files(m.files.main, Absent))
      else m.(saving := Some(Copying), files := Files(m.files.main, Partial))
  {
  }

  lemma CopyEnds(m: Machine)
    requires m.saving == Some(Copying)
    ensures Progress(m) == m.(saving := Some(Copied), files := Files(m.files.main, m.files.main))
  {
  }

  lemma SaveEnds(m: Machine)
    requires m.saving == Some(Copied)
    ensures Progress(Progress(m)) == m.(saving := None, files := Files(Whole(m.data), m.files.backup))
  {
  }

  lemma IterateTwo(m: Machine, n: nat)
    ensures Iterate(m, 0) == m && Iterate(m, n + 2) == Progress(Progress(Iterate(m, n)))
  {
    hide Progress;
    assert Iterate(m, n + 2) == Progress(Iterate(m, n + 1));
  }
}
