/** The temp / backup / rename protocol that replaces the saved coordinator document
    (crates/yunxi-multi-agent/src/store.rs, load_document and replace_file).
    The file system is a map from names to contents; a rename is atomic, every call may
    fail, and the process may die between any two calls. */
module SavedFile {
  import opened Wrappers

  datatype Name = Primary | Backup | Temp(stamp: nat)

  /** A file is either a whole encoded document or what a write left behind when it stopped. */
  datatype Content<+D> = Complete(document: D) | Partial

  datatype Loaded<+D> = Missing | Found(document: D) | Unreadable

  function LoadAt<D>(files: map<Name, Content<D>>, name: Name): Loaded<D> {
    if name !in files then Missing
    else if files[name].Complete? then Found(files[name].document)
    else Unreadable
  }

  /** `load_document`; `readFault` says that reading a present primary fails. */
  function LoadDocument<D>(files: map<Name, Content<D>>, readFault: bool): Loaded<D> {
    var primary := if readFault && Primary in files then Unreadable else LoadAt(files, Primary);
    match primary
    case Found(document) => primary
    case Missing => LoadAt(files, Backup)
    case Unreadable =>
      match LoadAt(files, Backup)
      case Found(document) => Found(document)
      case _ => Unreadable
  }

  /** Which of the file-system calls of one save report an error. */
  datatype Faults = Faults(create: bool, write: bool, removeOld: bool, renameOld: bool,
                           renameNew: bool, restore: bool, dropTemp: bool, dropOld: bool)

  datatype SaveOutcome = Saved | Failed | Crashed

  /** The phases of a save: whether one breaks off with an error, and how many file-system calls it makes. */
  predicate WriteBreaks<D>(files: map<Name, Content<D>>, stamp: nat, faults: Faults) {
    faults.create || Temp(stamp) in files || faults.write
  }

  function WriteCalls<D>(files: map<Name, Content<D>>, stamp: nat, faults: Faults): nat {
    if faults.create || Temp(stamp) in files then 1 else if faults.write then 3 else 2
  }

  predicate RetireBreaks<D>(files: map<Name, Content<D>>, faults: Faults) {
    Primary in files && ((Backup in files && faults.removeOld) || faults.renameOld)
  }

  function RetireCalls<D>(files: map<Name, Content<D>>, faults: Faults): nat {
    if Primary !in files then 0 else if Backup in files && !faults.removeOld then 2 else 1
  }

  function PromoteCalls(hasBackup: bool, faults: Faults): nat {
    (if faults.renameNew then 2 else 1) + (if hasBackup then 1 else 0)
  }

  predicate SaveBreaks<D>(files: map<Name, Content<D>>, stamp: nat, faults: Faults) {
    WriteBreaks(files, stamp, faults) || RetireBreaks(files, faults) || faults.renameNew
  }

  function SaveCalls<D>(files: map<Name, Content<D>>, stamp: nat, faults: Faults): nat {
    WriteCalls(files, stamp, faults)
    + (if WriteBreaks(files, stamp, faults) then 0
       else RetireCalls(files, faults)
            + (if RetireBreaks(files, faults) then 0
               else PromoteCalls(Primary in files || Backup in files, faults)))
  }

  /** The inductive facts: the files under the two loadable names are whole, and what a
      loader finds is the last document that was committed. */
  ghost predicate Recoverable<D(!new)>(files: map<Name, Content<D>>, committed: Option<D>) {
    && (Primary in files ==> files[Primary].Complete?)
    && (Backup in files ==> files[Backup].Complete?)
    && LoadDocument(files, false) == (if committed.Some? then Found(committed.value) else Missing)
  }

  class Directory<D(!new)> {
    var files: map<Name, Content<D>>
    /** The last document moved to the primary name. */
    ghost var committed: Option<D>

    constructor ()
      ensures Recoverable(files, committed) && files == map[] && committed == None
    {
      files, committed := map[], None;
    }

    /** Writes the whole document under a temporary name; `left` counts the calls to come. */
    method WriteTemp(document: D, stamp: nat, faults: Faults, calls: nat) returns (stop: Option<SaveOutcome>, left: nat)
      requires Recoverable(files, committed)
      modifies this`files
      ensures Recoverable(files, committed)
      ensures forall name :: name != Temp(stamp) ==> LoadAt(files, name) == LoadAt(old(files), name)
      ensures stop.None? ==> LoadAt(files, Temp(stamp)) == Found(document) && left + 2 == calls
      ensures stop.Some? ==> stop.value != Saved
      ensures stop == if calls < WriteCalls(old(files), stamp, faults) then Some(Crashed)
                      else if WriteBreaks(old(files), stamp, faults) then Some(Failed) else None
    {
      left := calls;
      if left == 0 { return Some(Crashed), left; }
      left := left - 1;
      if faults.create || Temp(stamp) in files { return Some(Failed), left; }
      files := files[Temp(stamp) := Partial];

      if left == 0 { return Some(Crashed), left; }
      left := left - 1;
      if faults.write {
        if left == 0 { return Some(Crashed), left; }
        if !faults.dropTemp { files := files - {Temp(stamp)}; }
        return Some(Failed), left;
      }
      files := files[Temp(stamp) := Complete(document)];
      return None, left;
    }

    /** Makes a present primary the only backup. */
    method RetirePrimary(faults: Faults, calls: nat) returns (stop: Option<SaveOutcome>, left: nat)
      requires Recoverable(files, committed)
      modifies this`files
      ensures Recoverable(files, committed)
      ensures forall stamp :: LoadAt(files, Temp(stamp)) == LoadAt(old(files), Temp(stamp))
      ensures stop.Some? && Primary in old(files) ==> LoadAt(files, Primary) == LoadAt(old(files), Primary)
      ensures stop.None? ==> Primary !in files && left + RetireCalls(old(files), faults) == calls
      ensures stop.None? ==>
                LoadAt(files, Backup) == LoadAt(old(files), if Primary in old(files) then Primary else Backup)
      ensures stop.Some? ==> stop.value != Saved
      ensures stop == if calls < RetireCalls(old(files), faults) then Some(Crashed)
                      else if RetireBreaks(old(files), faults) then Some(Failed) else None
    {
      left := calls;
      if Primary !in files { return None, left; }
      if Backup in files {
        if left == 0 { return Some(Crashed), left; }
        left := left - 1;
        if faults.removeOld { return Some(Failed), left; }
        files := files - {Backup};
      }
      if left == 0 { return Some(Crashed), left; }
      left := left - 1;
      if faults.renameOld { return Some(Failed), left; }
      files := files[Backup := files[Primary]] - {Primary};
      return None, left;
    }

    /** Moves the temporary file to the primary name, or puts the backup back. */
    method Promote(document: D, stamp: nat, faults: Faults, calls: nat) returns (outcome: SaveOutcome)
      requires Recoverable(files, committed) && Primary !in files && LoadAt(files, Temp(stamp)) == Found(document)
      modifies this
      ensures Recoverable(files, committed)
      ensures committed == old(committed) || committed == Some(document)
      ensures outcome == Saved ==> committed == Some(document) && LoadAt(files, Primary) == Found(document)
      ensures outcome == Saved ==>
                LoadAt(files, Backup) == if faults.dropOld then LoadAt(old(files), Backup) else Missing
      ensures outcome == Failed ==> committed == old(committed)
      ensures outcome == Failed && Backup in old(files) && !faults.restore ==>
                Backup !in files && LoadAt(files, Primary) == LoadAt(old(files), Backup)
      ensures outcome == Failed && faults.restore ==>
                Primary !in files && LoadAt(files, Backup) == LoadAt(old(files), Backup)
      ensures outcome == Saved || (outcome == Failed && !faults.dropTemp) ==> Temp(stamp) !in files
      ensures forall other :: other != stamp ==> LoadAt(files, Temp(other)) == LoadAt(old(files), Temp(other))
      ensures outcome == if calls < PromoteCalls(Backup in old(files), faults) then Crashed
                         else if faults.renameNew then Failed else Saved
    {
      var left := calls;
      if left == 0 { return Crashed; }
      left := left - 1;
      if faults.renameNew {
        if Backup in files {
          if left == 0 { return Crashed; }
          left := left - 1;
          if !faults.restore { files := files[Primary := files[Backup]] - {Backup}; }
        }
        if left == 0 { return Crashed; }
        if !faults.dropTemp { files := files - {Temp(stamp)}; }
        return Failed;
      }
      files := files[Primary := files[Temp(stamp)]] - {Temp(stamp)};
      committed := Some(document);

      if Backup in files {
        if left == 0 { return Crashed; }
        if !faults.dropOld { files := files - {Backup}; }
      }
      return Saved;
    }

    /** One save. `calls` is the number of file-system calls that run before the process
        dies; the call it dies in has no effect, except that a write may stop half way. */
    method ReplaceFile(document: D, stamp: nat, faults: Faults, calls: nat) returns (outcome: SaveOutcome)
      requires Recoverable(files, committed)
      modifies this
      ensures Recoverable(files, committed)
      ensures committed == old(committed) || committed == Some(document)
      ensures outcome == Saved ==> committed == Some(document)
      ensures outcome == Failed ==> committed == old(committed)
      ensures outcome == Failed && !faults.restore && Primary in old(files) ==>
                LoadAt(files, Primary) == LoadAt(old(files), Primary)
      ensures outcome == Saved ==> Temp(stamp) !in files
      ensures outcome == Saved && !faults.dropOld ==> Backup !in files && LoadAt(files, Primary) == Found(document)
      ensures outcome == Saved && faults.dropOld ==>
                LoadAt(files, Backup) == LoadAt(old(files), if Primary in old(files) then Primary else Backup)
      ensures forall other :: other != stamp ==> LoadAt(files, Temp(other)) == LoadAt(old(files), Temp(other))
      ensures outcome == if calls < SaveCalls(old(files), stamp, faults) then Crashed
                         else if SaveBreaks(old(files), stamp, faults) then Failed else Saved
    {
      var stop, left := WriteTemp(document, stamp, faults, calls);
      if stop.Some? { return stop.value; }
      assert LoadAt(files, Primary) == LoadAt(old(files), Primary)
          && LoadAt(files, Backup) == LoadAt(old(files), Backup);
      assert Primary in files <==> Primary in old(files);
      assert Backup in files <==> Backup in old(files);
      stop, left := RetirePrimary(faults, left);
      if stop.Some? { return stop.value; }
      outcome := Promote(document, stamp, faults, left);
    }

    method Load() returns (loaded: Loaded<D>)
      requires Recoverable(files, committed)
      ensures loaded == (if committed.Some? then Found(committed.value) else Missing)
    {
      loaded := LoadDocument(files, false);
    }
  }

  datatype Attempt<+D> = Attempt(document: D, stamp: nat, faults: Faults, calls: nat)

  /** Any number of saves, each free to fail or to die anywhere: a loader always finds a
      whole document, namely the initial one or one of those handed to a save, and never
      one older than the last save that reported success. */
  method RunAttempts<D(!new)>(directory: Directory<D>, attempts: seq<Attempt<D>>)
    returns (outcomes: seq<SaveOutcome>, loaded: Loaded<D>)
    requires Recoverable(directory.files, directory.committed)
    modifies directory
    ensures Recoverable(directory.files, directory.committed)
    ensures |outcomes| == |attempts|
    ensures loaded == (if directory.committed.Some? then Found(directory.committed.value) else Missing)
    ensures (directory.committed == old(directory.committed)
             && forall j :: 0 <= j < |attempts| ==> outcomes[j] != Saved)
            || exists k :: 0 <= k < |attempts| && outcomes[k] != Failed
                           && directory.committed == Some(attempts[k].document)
                           && forall j :: k < j < |attempts| ==> outcomes[j] != Saved
  {
    outcomes := [];
    ghost var last := -1;
    for i := 0 to |attempts|
      invariant Recoverable(directory.files, directory.committed)
      invariant |outcomes| == i && -1 <= last < i
      invariant last == -1 ==> directory.committed == old(directory.committed)
      invariant last >= 0 ==> outcomes[last] != Failed && directory.committed == Some(attempts[last].document)
      invariant forall j :: last < j < i ==> outcomes[j] != Saved
    {
      ghost var before := directory.committed;
      var a := attempts[i];
      var outcome := directory.ReplaceFile(a.document, a.stamp, a.faults, a.calls);
      outcomes := outcomes + [outcome];
      if outcome == Saved || directory.committed != before {
        last := i;
      }
    }
    loaded := directory.Load();
  }

  /** The loader falls back to the backup when the primary cannot be read, not only when it
      is absent. With such a read fault it finds a document that is not the committed one
      exactly when both files are present and differ, that is, when the clean-up of an
      earlier save left a stale backup behind. */
  lemma ReadFaultFindsStaleBackup<D(!new)>(files: map<Name, Content<D>>, committed: Option<D>)
    requires Recoverable(files, committed)
    ensures var found := LoadDocument(files, true);
            && (found.Found? && Some(found.document) != committed <==>
                Primary in files && Backup in files && files[Backup] != files[Primary])
            && (Backup !in files ==> found == if Primary in files then Unreadable else Missing)
  {
    if Primary in files && Backup in files {
      assert LoadDocument(files, false) == Found(files[Primary].document);
    }
  }

  /** Such a state is reached: a second save whose last call fails still reports success. */
  method StaleBackupIsReachable<D(!new)>(first: D, second: D) returns (found: Loaded<D>)
    requires first != second
    ensures found == Found(first)
  {
    var directory := new Directory<D>();
    var none := Faults(false, false, false, false, false, false, false, false);
    var outcome := directory.ReplaceFile(first, 0, none, 9);
    assert LoadAt(directory.files, Temp(1)) == Missing;
    outcome := directory.ReplaceFile(second, 1, none.(dropOld := true), 9);
    found := LoadDocument(directory.files, true);
  }
}
