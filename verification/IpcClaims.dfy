/** Files handed over through a directory: claimed by a rename, handled, removed.
    The process may stop between any two steps and start again later, and other
    processes drop new files at any time. */
module IpcClaims {
  import opened Common

  /** Why a file was set aside. */
  datatype ErrorKind = LeftOver | Failed

  /** `prefix-time-name` in the error directory. */
  datatype ErrorName = ErrorName(kind: ErrorKind, time: int, name: string)

  /** Where a file is; `Overwritten` is one whose place another has taken. */
  datatype Place = Inbox(name: string) | Processing(name: string) | Errors(errorName: ErrorName) | Deleted | Overwritten

  /** A file set aside, and the name it got. */
  datatype Move = Move(file: nat, errorName: ErrorName)

  /** The directories, by name, and what is known of every file ever dropped,
      files being numbered in that order: where it is, the order in which handlers
      did their work, and the order in which files were set aside. */
  datatype Disk = Disk(
    inbox: map<string, nat>, processing: map<string, nat>, errors: map<ErrorName, nat>,
    place: seq<Place>, handled: seq<nat>, moves: seq<Move>)
  {
    predicate Holds(f: nat)
      requires f < |place|
    {
      match place[f]
      case Inbox(n) => n in inbox && inbox[n] == f
      case Processing(n) => n in processing && processing[n] == f
      case Errors(n) => n in errors && errors[n] == f
      case _ => true
    }

    /** The directories and `place` say the same: each file is in exactly one place. */
    ghost predicate InOnePlace() {
      && (forall n :: n in inbox ==> inbox[n] < |place| && place[inbox[n]] == Inbox(n))
      && (forall n :: n in processing ==> processing[n] < |place| && place[processing[n]] == Processing(n))
      && (forall n :: n in errors ==> errors[n] < |place| && place[errors[n]] == Errors(n))
      && (forall f :: 0 <= f < |place| ==> Holds(f))
    }

    /** None handled twice or before it is claimed, none deleted unhandled. */
    ghost predicate HandledOnce() {
      && (forall i, j :: 0 <= i < j < |handled| ==> handled[i] != handled[j])
      && (forall f :: f in handled ==> f < |place| && !place[f].Inbox?)
      && (forall f :: 0 <= f < |place| && place[f].Deleted? ==> f in handled)
    }

    /** A later file was set aside under the same name. */
    ghost predicate Overtaken(i: nat)
      requires i < |moves|
    {
      exists j :: i < j < |moves| && moves[j].errorName == moves[i].errorName
    }

    /** No file is set aside twice; one that was is in the error directory, or lost
        if it was overtaken; no other file is either. */
    ghost predicate Logged() {
      && (forall i, j :: 0 <= i < j < |moves| ==> moves[i].file != moves[j].file)
      && (forall i :: 0 <= i < |moves| ==>
            && moves[i].file < |place|
            && place[moves[i].file] == if Overtaken(i) then Overwritten else Errors(moves[i].errorName))
      && (forall f :: 0 <= f < |place| && (place[f].Errors? || place[f].Overwritten?) ==>
            exists i :: 0 <= i < |moves| && moves[i].file == f)
    }

    ghost predicate Consistent() { InOnePlace() && HandledOnce() && Logged() }

    // ----- what renames and removals do -----

    function Drop(name: string): Disk {
      this.(inbox := inbox[name := |place|], place := place + [Inbox(name)])
    }

    function Claim(name: string): Disk
      requires name in inbox && inbox[name] < |place|
    {
      var f := inbox[name];
      this.(inbox := inbox - {name}, processing := processing[name := f], place := place[f := Processing(name)])
    }

    /** A rename takes the place of a file of that name. */
    function MoveToError(name: string, kind: ErrorKind, now: int): Disk
      requires name in processing && processing[name] < |place|
      requires forall k :: k in errors ==> errors[k] < |place|
    {
      var f, key := processing[name], ErrorName(kind, now, name);
      var before := if key in errors then place[errors[key] := Overwritten] else place;
      this.(processing := processing - {name}, errors := errors[key := f], place := before[f := Errors(key)],
            moves := moves + [Move(f, key)])
    }

    function Unlink(name: string): Disk
      requires name in processing && processing[name] < |place|
    {
      this.(processing := processing - {name}, place := place[processing[name] := Deleted])
    }

    function Handle(f: nat): Disk { this.(handled := handled + [f]) }
  }

  const Empty := Disk(map[], map[], map[], [], [], [])

  /** A file is never back in the inbox, and only set-aside files get overwritten. */
  predicate Forward(before: Place, after: Place) {
    match before
    case Inbox(_) => after.Inbox? ==> after == before
    case Processing(_) => !after.Inbox? && (after.Processing? ==> after == before)
    case Errors(_) => after == before || after == Overwritten
    case _ => after == before
  }

  ghost predicate Onward(d: Disk, d': Disk) {
    && |d.place| <= |d'.place|
    && d.handled <= d'.handled && d.moves <= d'.moves
    && (forall f :: 0 <= f < |d.place| ==> Forward(d.place[f], d'.place[f]))
  }

  lemma OnwardTransitive(a: Disk, b: Disk, c: Disk)
    requires Onward(a, b) && Onward(b, c)
    ensures Onward(a, c)
  {
    forall f | 0 <= f < |a.place|
      ensures Forward(a.place[f], c.place[f])
    {
      assert Forward(a.place[f], b.place[f]) && Forward(b.place[f], c.place[f]);
    }
  }

  /** Nothing is set aside, and no file that was is moved. */
  lemma StaysLogged(d: Disk, d': Disk)
    requires d.Logged() && d'.moves == d.moves && |d.place| <= |d'.place|
    requires forall f :: 0 <= f < |d.place| && (d.place[f].Errors? || d.place[f].Overwritten?) ==>
               d'.place[f] == d.place[f]
    requires forall f :: 0 <= f < |d'.place| && (d'.place[f].Errors? || d'.place[f].Overwritten?) ==>
               f < |d.place| && d.place[f] == d'.place[f]
    ensures d'.Logged()
  {
    forall i | 0 <= i < |d.moves|
      ensures d'.Overtaken(i) <==> d.Overtaken(i)
    {
    }
  }

  lemma DropKeeps(d: Disk, name: string)
    requires d.Consistent() && name !in d.inbox
    ensures d.Drop(name).Consistent() && Onward(d, d.Drop(name))
  {
    DroppedInOnePlace(d, name);
    StaysLogged(d, d.Drop(name));
    hide Disk.Logged, Disk.InOnePlace;
  }

  lemma DroppedInOnePlace(d: Disk, name: string)
    requires d.InOnePlace() && name !in d.inbox
    ensures d.Drop(name).InOnePlace()
  {
    forall f | 0 <= f < |d.Drop(name).place|
      ensures d.Drop(name).Holds(f)
    {
      if f < |d.place| { assert d.Holds(f); }
    }
  }

  /** Claiming onto a name still being processed would overwrite that file. */
  lemma ClaimKeeps(d: Disk, name: string)
    requires d.Consistent() && name in d.inbox && name !in d.processing
    ensures d.Claim(name).Consistent() && Onward(d, d.Claim(name))
    ensures d.inbox[name] !in d.handled
  {
    assert d.place[d.inbox[name]] == Inbox(name);
    ClaimedInOnePlace(d, name);
    StaysLogged(d, d.Claim(name));
    hide Disk.Logged, Disk.InOnePlace;
  }

  lemma ClaimedInOnePlace(d: Disk, name: string)
    requires d.InOnePlace() && name in d.inbox && name !in d.processing
    ensures d.Claim(name).InOnePlace()
  {
    assert d.place[d.inbox[name]] == Inbox(name);
    forall f | 0 <= f < |d.place|
      ensures d.Claim(name).Holds(f)
    {
      assert d.Holds(f);
    }
  }

  lemma MoveToErrorKeeps(d: Disk, name: string, kind: ErrorKind, now: int)
    requires d.Consistent() && name in d.processing
    ensures d.MoveToError(name, kind, now).Consistent() && Onward(d, d.MoveToError(name, kind, now))
  {
    hide Disk.Logged;
    assert d.place[d.processing[name]] == Processing(name);
    MovedInOnePlace(d, name, kind, now);
    MovedPlaces(d, name, kind, now);
    MovedLogged(d, name, kind, now);
    hide Disk.InOnePlace;
  }

  lemma ErrorPlace(d: Disk, key: ErrorName, f: nat)
    requires d.InOnePlace() && f < |d.place|
    ensures d.place[f] == Errors(key) <==> key in d.errors && d.errors[key] == f
  {
    assert d.Holds(f);
  }

  lemma Entry(d: Disk, i: nat)
    requires d.Logged() && i < |d.moves|
    ensures d.moves[i].file < |d.place|
    ensures d.place[d.moves[i].file] == if d.Overtaken(i) then Overwritten else Errors(d.moves[i].errorName)
  {
  }

  lemma OvertakenNow(d: Disk, m: Move, i: nat)
    requires i < |d.moves|
    ensures d.(moves := d.moves + [m]).Overtaken(i) <==> d.Overtaken(i) || d.moves[i].errorName == m.errorName
  {
    var d' := d.(moves := d.moves + [m]);
    if d.Overtaken(i) {
      var j :| i < j < |d.moves| && d.moves[j].errorName == d.moves[i].errorName;
      assert d'.moves[j] == d.moves[j];
    }
    assert d'.moves[|d.moves|] == m;
  }

  lemma MovedEntry(d: Disk, name: string, kind: ErrorKind, now: int, i: nat)
    requires d.InOnePlace() && d.Logged() && name in d.processing && i < |d.moves|
    ensures var d' := d.MoveToError(name, kind, now);
            && d.moves[i].file < |d.place| && d.moves[i].file != d.processing[name]
            && d'.place[d.moves[i].file] == if d'.Overtaken(i) then Overwritten else Errors(d.moves[i].errorName)
  {
    var key := ErrorName(kind, now, name);
    assert d.place[d.processing[name]] == Processing(name);
    Entry(d, i);
    ErrorPlace(d, key, d.moves[i].file);
    if key in d.errors { ErrorPlace(d, key, d.errors[key]); }
    hide Disk.InOnePlace, Disk.Logged, Disk.Overtaken;
    var logged := d.(moves := d.moves + [Move(d.processing[name], key)]);
    OvertakenNow(d, Move(d.processing[name], key), i);
    SameOvertaken(d.MoveToError(name, kind, now), logged, i);
  }

  lemma SameOvertaken(d: Disk, e: Disk, i: nat)
    requires d.moves == e.moves && i < |d.moves|
    ensures d.Overtaken(i) <==> e.Overtaken(i)
  {
  }

  lemma MovedLogged(d: Disk, name: string, kind: ErrorKind, now: int)
    requires d.InOnePlace() && d.Logged() && name in d.processing
    ensures d.MoveToError(name, kind, now).Logged()
  {
    var d', moved := d.MoveToError(name, kind, now), Move(d.processing[name], ErrorName(kind, now, name));
    assert d'.moves == d.moves + [moved];
    assert moved.file < |d'.place| && d'.place[moved.file] == Errors(moved.errorName);
    hide *;
    NotMovedBefore(d, name, moved);
    MovedFiles(d, name, kind, now);
    MovedEntries(d, name, kind, now);
    LoggedBy(d');
  }

  /** The last entry is not overtaken; the rest is what `Logged` says. */
  lemma LoggedBy(d: Disk)
    requires d.moves != []
    requires forall i, j :: 0 <= i < j < |d.moves| ==> d.moves[i].file != d.moves[j].file
    requires forall i :: 0 <= i < |d.moves| - 1 ==>
               && d.moves[i].file < |d.place|
               && d.place[d.moves[i].file] == if d.Overtaken(i) then Overwritten else Errors(d.moves[i].errorName)
    requires var last := d.moves[|d.moves| - 1];
             last.file < |d.place| && d.place[last.file] == Errors(last.errorName)
    requires forall f :: 0 <= f < |d.place| && (d.place[f].Errors? || d.place[f].Overwritten?) ==>
               exists i :: 0 <= i < |d.moves| && d.moves[i].file == f
    ensures d.Logged()
  {
    assert !d.Overtaken(|d.moves| - 1);
    hide Disk.Overtaken;
  }

  lemma NotMovedBefore(d: Disk, name: string, m: Move)
    requires d.InOnePlace() && d.Logged() && name in d.processing && m.file == d.processing[name]
    ensures forall i, j :: 0 <= i < j < |d.moves + [m]| ==> (d.moves + [m])[i].file != (d.moves + [m])[j].file
  {
    assert d.place[d.processing[name]] == Processing(name);
    hide Disk.InOnePlace, Disk.Overtaken;
  }

  lemma MovedEntries(d: Disk, name: string, kind: ErrorKind, now: int)
    requires d.InOnePlace() && d.Logged() && name in d.processing
    ensures var d' := d.MoveToError(name, kind, now);
            |d'.moves| == |d.moves| + 1 && forall i :: 0 <= i < |d.moves| ==>
              && d'.moves[i] == d.moves[i] && d.moves[i].file < |d'.place|
              && d'.place[d.moves[i].file] == if d'.Overtaken(i) then Overwritten else Errors(d.moves[i].errorName)
  {
    var d' := d.MoveToError(name, kind, now);
    assert d'.moves[..|d.moves|] == d.moves && |d'.place| == |d.place|;
    hide Disk.InOnePlace, Disk.Logged, Disk.MoveToError, Disk.Overtaken;
    forall i | 0 <= i < |d.moves|
      ensures d'.moves[i] == d.moves[i] && d.moves[i].file < |d'.place|
      ensures d'.place[d.moves[i].file] == if d'.Overtaken(i) then Overwritten else Errors(d.moves[i].errorName)
    {
      assert d'.moves[i] == d'.moves[..|d.moves|][i];
      MovedEntry(d, name, kind, now, i);
    }
  }

  lemma MovedFiles(d: Disk, name: string, kind: ErrorKind, now: int)
    requires d.InOnePlace() && d.Logged() && name in d.processing
    ensures var d' := d.MoveToError(name, kind, now);
            forall f :: 0 <= f < |d'.place| && (d'.place[f].Errors? || d'.place[f].Overwritten?) ==>
              exists i :: 0 <= i < |d'.moves| && d'.moves[i].file == f
  {
    var d', file := d.MoveToError(name, kind, now), d.processing[name];
    assert d'.moves[|d.moves|].file == file;
    MovedPlaces(d, name, kind, now);
    hide Disk.InOnePlace;
    forall f | 0 <= f < |d'.place| && (d'.place[f].Errors? || d'.place[f].Overwritten?)
      ensures exists i :: 0 <= i < |d'.moves| && d'.moves[i].file == f
    {
      if f != file {
        var i :| 0 <= i < |d.moves| && d.moves[i].file == f;
        assert d'.moves[i].file == f;
      }
    }
  }

  lemma MovedInOnePlace(d: Disk, name: string, kind: ErrorKind, now: int)
    requires d.InOnePlace() && name in d.processing
    ensures d.MoveToError(name, kind, now).InOnePlace()
  {
    var d' := d.MoveToError(name, kind, now);
    assert d.place[d.processing[name]] == Processing(name);
    forall f | 0 <= f < |d.place|
      ensures d'.Holds(f)
    {
      MovedHolds(d, name, kind, now, f);
    }
  }

  lemma MovedHolds(d: Disk, name: string, kind: ErrorKind, now: int, f: nat)
    requires d.InOnePlace() && name in d.processing && f < |d.place|
    ensures d.MoveToError(name, kind, now).Holds(f)
  {
    assert d.place[d.processing[name]] == Processing(name);
    assert d.Holds(f);
  }

  lemma MovedPlaces(d: Disk, name: string, kind: ErrorKind, now: int)
    requires d.InOnePlace() && name in d.processing
    ensures var d' := d.MoveToError(name, kind, now);
            && |d'.place| == |d.place|
            && forall f :: 0 <= f < |d.place| ==>
                 || d'.place[f] == d.place[f]
                 || (f == d.processing[name] && d'.place[f] == Errors(ErrorName(kind, now, name)))
                 || (d.place[f].Errors? && d'.place[f] == Overwritten)
  {
  }

  /** Setting a file aside loses another one exactly when the name, the reason and
      the millisecond are the same. */
  lemma OverwritesExactly(d: Disk, name: string, kind: ErrorKind, now: int, f: nat)
    requires d.Consistent() && name in d.processing && f < |d.place| && d.place[f] != Overwritten
    ensures d.MoveToError(name, kind, now).place[f] == Overwritten <==> d.place[f] == Errors(ErrorName(kind, now, name))
  {
    assert d.Holds(f);
    assert d.place[d.processing[name]] == Processing(name);
  }

  /** A file is lost if and only if, after it was set aside, another was for the
      same reason, under the same name, with the clock at the same millisecond. */
  lemma LostExactly(d: Disk, f: nat)
    requires d.Consistent() && f < |d.place|
    ensures d.place[f] == Overwritten <==>
            exists i, j :: 0 <= i < j < |d.moves| &&
              d.moves[i].file == f && d.moves[j].errorName == d.moves[i].errorName
  {
    hide Disk.InOnePlace, Disk.HandledOnce;
    if d.place[f] == Overwritten {
      var i :| 0 <= i < |d.moves| && d.moves[i].file == f;
      assert d.Overtaken(i);
    }
    if i, j :| 0 <= i < j < |d.moves| && d.moves[i].file == f && d.moves[j].errorName == d.moves[i].errorName {
      assert d.Overtaken(i);
    }
  }

  lemma UnlinkKeeps(d: Disk, name: string)
    requires d.Consistent() && name in d.processing && d.processing[name] in d.handled
    ensures d.Unlink(name).Consistent() && Onward(d, d.Unlink(name))
  {
    assert d.place[d.processing[name]] == Processing(name);
    UnlinkedInOnePlace(d, name);
    StaysLogged(d, d.Unlink(name));
    hide Disk.Logged, Disk.InOnePlace;
  }

  lemma UnlinkedInOnePlace(d: Disk, name: string)
    requires d.InOnePlace() && name in d.processing
    ensures d.Unlink(name).InOnePlace()
  {
    assert d.place[d.processing[name]] == Processing(name);
    forall f | 0 <= f < |d.place|
      ensures d.Unlink(name).Holds(f)
    {
      assert d.Holds(f);
    }
  }

  lemma HandleKeeps(d: Disk, name: string)
    requires d.Consistent() && name in d.processing && d.processing[name] !in d.handled
    ensures d.Handle(d.processing[name]).Consistent() && Onward(d, d.Handle(d.processing[name]))
  {
    var d' := d.Handle(d.processing[name]);
    assert d.place[d.processing[name]] == Processing(name);
    HandledInOnePlace(d, name);
    StaysLogged(d, d');
    hide Disk.Logged, Disk.InOnePlace;
  }

  lemma HandledInOnePlace(d: Disk, name: string)
    requires d.InOnePlace() && name in d.processing
    ensures d.Handle(d.processing[name]).InOnePlace()
  {
    var d' := d.Handle(d.processing[name]);
    forall f | 0 <= f < |d.place|
      ensures d'.Holds(f)
    {
      assert d.Holds(f);
    }
  }

  lemma EmptyIsConsistent()
    ensures Empty.Consistent()
  {
  }

  /** It does happen: two files of one name fail at the same reading of the clock. */
  lemma OneIsLost(name: string, now: int) returns (d: Disk)
    ensures d == Empty.Drop(name).Claim(name).MoveToError(name, Failed, now)
                 .Drop(name).Claim(name).MoveToError(name, Failed, now)
    ensures d.Consistent() && d.place == [Overwritten, Errors(ErrorName(Failed, now, name))] && d.handled == []
  {
    hide Disk.Consistent, Onward;
    EmptyIsConsistent();
    DropKeeps(Empty, name);
    var first := Empty.Drop(name);
    ClaimKeeps(first, name);
    MoveToErrorKeeps(first.Claim(name), name, Failed, now);
    var failed := first.Claim(name).MoveToError(name, Failed, now);
    DropKeeps(failed, name);
    var second := failed.Drop(name);
    ClaimKeeps(second, name);
    MoveToErrorKeeps(second.Claim(name), name, Failed, now);
    d := second.Claim(name).MoveToError(name, Failed, now);
  }

  /** A handler does its work, throws before it (or finds no valid content), or
      throws after it. */
  datatype Handling = Handles | ThrowsBefore | ThrowsAfter

  /** Where the process stops, if it does, while a file is claimed. */
  datatype Stop = Never | BeforeWork | AfterWork

  /** What happens to a file once its turn comes: how the handler ends, whether the
      file can then be deleted, and whether the process gets that far. */
  datatype Course = Course(handling: Handling, unlinks: bool, stop: Stop)
  {
    predicate Works() { !handling.ThrowsBefore? }
    predicate Deletes() { handling.Handles? && unlinks }
  }

  /** The file has had its turn: handled if and only if the handler did not throw
      before its work, deleted if and only if the handler returned and the file could
      be, else set aside as failed. */
  predicate Done(d: Disk, f: nat, c: Course) {
    && f < |d.place| && (f in d.handled <==> c.Works())
    && match d.place[f]
       case Deleted => c.Deletes()
       case Errors(e) => !c.Deletes() && e.kind == Failed
       case Overwritten => !c.Deletes()
       case _ => false
  }

  /** Left over, and set aside as that. */
  predicate LaidAside(d: Disk, f: nat) {
    f < |d.place| && match d.place[f]
                     case Errors(e) => e.kind == LeftOver
                     case Overwritten => true
                     case _ => false
  }

  /** The four ends of a turn the process survives. */
  lemma DoneMeans(d: Disk, f: nat, unlinks: bool)
    requires f < |d.place|
    ensures Done(d, f, Course(Handles, true, Never)) <==> f in d.handled && d.place[f] == Deleted
    ensures d.place[f].Errors? ==>
              && (Done(d, f, Course(Handles, false, Never)) <==> f in d.handled && d.place[f].errorName.kind == Failed)
              && (Done(d, f, Course(ThrowsAfter, unlinks, Never)) <==>
                  f in d.handled && d.place[f].errorName.kind == Failed)
              && (Done(d, f, Course(ThrowsBefore, unlinks, Never)) <==>
                  f !in d.handled && d.place[f].errorName.kind == Failed)
    ensures d.place[f].Inbox? || d.place[f].Processing? ==> forall c :: !Done(d, f, c)
    ensures d.place[f].Deleted? ==> forall c :: Done(d, f, c) ==> c.handling == Handles && c.unlinks
  {
  }

  lemma DoneStays(d: Disk, d': Disk, f: nat, c: Course)
    requires Onward(d, d') && Done(d, f, c) && (f in d'.handled ==> f in d.handled)
    ensures Done(d', f, c)
  {
    assert Forward(d.place[f], d'.place[f]);
  }

  lemma LaidAsideStays(d: Disk, d': Disk, f: nat)
    requires Onward(d, d') && LaidAside(d, f)
    ensures LaidAside(d', f)
  {
    assert Forward(d.place[f], d'.place[f]);
  }

  /** The files in the inbox before are there still, but for `f`. */
  ghost predicate InboxKept(d: Disk, d': Disk, f: nat) {
    |d.place| <= |d'.place|
    && forall g :: 0 <= g < |d.place| && g != f && d.place[g].Inbox? ==> d'.place[g] == d.place[g]
  }

  /** The poll over one directory. Not `alive` is a stop on the way, after
      which a new poller finds the disk as it was left. */
  class Poller {
    var disk: Disk

    constructor (disk: Disk)
      ensures this.disk == disk
    {
      this.disk := disk;
    }

    /** Other processes drop files, under names not in use in the inbox. */
    method Meanwhile()
      requires disk.Consistent()
      modifies this
      ensures disk.Consistent() && Onward(old(disk), disk)
      ensures disk.processing == old(disk).processing && disk.handled == old(disk).handled
      ensures old(disk).place <= disk.place
    {
      hide Disk.Consistent, Onward;
      var more: nat := *;
      StaysPut(disk);
      while more > 0
        invariant disk.Consistent() && Onward(old(disk), disk)
        invariant disk.processing == old(disk).processing && disk.handled == old(disk).handled
        invariant old(disk).place <= disk.place
      {
        var name: string := *;
        if name !in disk.inbox {
          DropKeeps(disk, name);
          OnwardTransitive(old(disk), disk, disk.Drop(name));
          disk := disk.Drop(name);
        }
        more := more - 1;
      }
    }

    /** What an earlier process left claimed is set aside, unhandled or not. */
    method QuarantineClaimed(course: nat -> Course) returns (alive: bool)
      requires disk.Consistent()
      modifies this
      ensures disk.Consistent() && Onward(old(disk), disk)
      ensures disk.inbox == old(disk).inbox && disk.handled == old(disk).handled
      ensures alive <==> forall n :: n in old(disk).processing ==> course(old(disk).processing[n]).stop.Never?
      ensures alive ==> disk.processing == map[]
      ensures alive ==> forall n :: n in old(disk).processing ==> LaidAside(disk, old(disk).processing[n])
    {
      hide Onward, LaidAside, InboxKept, Disk.Consistent, Disk.MoveToError;
      StaysPut(disk);
      while disk.processing != map[]
        invariant disk.Consistent() && Onward(old(disk), disk)
        invariant disk.inbox == old(disk).inbox && disk.handled == old(disk).handled
        invariant forall n :: n in disk.processing ==>
                    n in old(disk).processing && disk.processing[n] == old(disk).processing[n]
        invariant forall n :: n in old(disk).processing && n !in disk.processing ==>
                    course(old(disk).processing[n]).stop.Never? && LaidAside(disk, old(disk).processing[n])
        decreases |disk.processing|
      {
        var name :| name in disk.processing;
        if !course(disk.processing[name]).stop.Never? { return false; }
        var now: int := *;
        ghost var before := disk;
        disk := RenameToError(disk, name, LeftOver, now);
        OnwardTransitive(old(disk), before, disk);
        forall n | n in old(disk).processing && n !in before.processing
          ensures LaidAside(disk, old(disk).processing[n])
        {
          LaidAsideStays(before, disk, old(disk).processing[n]);
        }
      }
      return true;
    }

    /** One name of the listing, its file still there. */
    method ProcessFile(name: string, course: nat -> Course) returns (alive: bool)
      requires disk.Consistent() && disk.processing == map[] && name in disk.inbox
      modifies this
      ensures disk.Consistent() && Onward(old(disk), disk)
      ensures alive <==> course(old(disk).inbox[name]).stop.Never?
      ensures alive ==> disk.processing == map[] && Done(disk, old(disk).inbox[name], course(old(disk).inbox[name]))
      ensures disk.handled == old(disk).handled + Work(old(disk).inbox[name], course(old(disk).inbox[name]))
      ensures InboxKept(old(disk), disk, old(disk).inbox[name])
    {
      hide Done;
      var file := disk.inbox[name];
      ClaimKeeps(disk, name);
      disk := disk.Claim(name);
      label claimed:
      alive := WorkOn(name, course(file));
      OnwardTransitive(old(disk), old@claimed(disk), disk);
    }

    /** Handle the claimed file, then remove it; on any exception set it aside. */
    method WorkOn(name: string, c: Course) returns (alive: bool)
      requires disk.Consistent() && disk.processing.Keys == {name} && disk.processing[name] !in disk.handled
      modifies this
      ensures disk.Consistent() && Onward(old(disk), disk)
      ensures alive <==> c.stop.Never?
      ensures alive ==> disk.processing == map[] && Done(disk, old(disk).processing[name], c)
      ensures !alive ==> disk.processing == old(disk).processing
      ensures disk.handled == old(disk).handled + Work(old(disk).processing[name], c)
      ensures InboxKept(old(disk), disk, old(disk).processing[name])
    {
      hide Onward, Disk.InOnePlace, Disk.HandledOnce, Disk.Logged;
      var file := disk.processing[name];
      StaysPut(disk);
      if c.stop.BeforeWork? { return false; }
      if c.Works() {
        HandleKeeps(disk, name);
        disk := disk.Handle(file);
      }
      label handled:
      Meanwhile();
      OnwardTransitive(old(disk), old@handled(disk), disk);
      if c.stop.AfterWork? { return false; }
      label awake:
      Settle(name, c);
      OnwardTransitive(old(disk), old@awake(disk), disk);
      return true;
    }

    method Settle(name: string, c: Course)
      requires disk.Consistent() && disk.processing.Keys == {name}
      requires disk.processing[name] in disk.handled <==> c.Works()
      modifies this
      ensures disk.Consistent() && Onward(old(disk), disk) && disk.processing == map[]
      ensures disk.handled == old(disk).handled && Done(disk, old(disk).processing[name], c)
      ensures InboxKept(old(disk), disk, old(disk).processing[name])
    {
      var file := disk.processing[name];
      assert file < |disk.place|;
      hide Onward, InboxKept, Disk.InOnePlace, Disk.HandledOnce, Disk.Logged;
      if c.handling.Handles? && c.unlinks {
        disk := Remove(disk, name);
      } else {
        var now: int := *;
        disk := RenameToError(disk, name, Failed, now);
      }
    }

    /** The loop over the listing. */
    method ProcessListing(course: nat -> Course) returns (alive: bool)
      requires disk.Consistent() && disk.processing == map[]
      modifies this
      ensures disk.Consistent() && Onward(old(disk), disk)
      ensures alive <==> forall n :: n in old(disk).inbox ==> course(old(disk).inbox[n]).stop.Never?
      ensures alive ==> disk.processing == map[]
      ensures alive ==> forall n :: n in old(disk).inbox ==> Done(disk, old(disk).inbox[n], course(old(disk).inbox[n]))
      ensures forall f :: f in disk.handled && f !in old(disk).handled ==>
                exists n :: n in old(disk).inbox && old(disk).inbox[n] == f
    {
      hide Disk.Consistent, Onward, Done, InboxKept, Listed, Turned, OnlyListed;
      var listing := disk.inbox.Keys;
      ghost var listed := disk;
      StaysPut(disk);
      ListingStarts(disk, course);
      while listing != {}
        invariant disk.Consistent() && disk.processing == map[] && Onward(listed, disk)
        invariant Listed(listed, disk, listing) && Turned(listed, disk, listing, course) && OnlyListed(listed, disk)
      {
        var name :| name in listing;
        ghost var before := disk;
        IsListed(listed, disk, listing, name);
        alive := ProcessListed(listed, name, course);
        OnwardTransitive(listed, before, disk);
        OnlyOneMore(listed, before, disk, name, course(listed.inbox[name]));
        if !alive {
          OnlyListedMeans(listed, disk);
          return;
        }
        OneTurned(listed, before, disk, listing, name, course);
        OneListedLess(listed, before, disk, listing, name);
        listing := listing - {name};
      }
      AllTurned(listed, disk, course);
      OnlyListedMeans(listed, disk);
      return true;
    }

    /** One round, from whatever state the last process left. */
    method Poll(course: nat -> Course) returns (alive: bool)
      requires disk.Consistent()
      modifies this
      ensures disk.Consistent() && Onward(old(disk), disk)
      ensures alive <==> && (forall n :: n in old(disk).processing ==> course(old(disk).processing[n]).stop.Never?)
                         && (forall n :: n in old(disk).inbox ==> course(old(disk).inbox[n]).stop.Never?)
      ensures alive ==> disk.processing == map[]
      ensures alive ==> forall n :: n in old(disk).processing ==> LaidAside(disk, old(disk).processing[n])
      ensures alive ==> forall n :: n in old(disk).inbox ==> Done(disk, old(disk).inbox[n], course(old(disk).inbox[n]))
      ensures forall f :: f in disk.handled && f !in old(disk).handled ==>
                exists n :: n in old(disk).inbox && old(disk).inbox[n] == f
    {
      hide Disk.Consistent, Onward, Done, LaidAside;
      alive := QuarantineClaimed(course);
      if !alive { return; }
      ghost var listed := disk;
      alive := ProcessListing(course);
      OnwardTransitive(old(disk), listed, disk);
      forall n | alive && n in old(disk).processing
        ensures LaidAside(disk, old(disk).processing[n])
      {
        LaidAsideStays(listed, disk, old(disk).processing[n]);
      }
    }

    method ProcessListed(ghost listed: Disk, name: string, course: nat -> Course) returns (alive: bool)
      requires disk.Consistent() && disk.processing == map[] && name in listed.inbox
      requires listed.inbox[name] < |disk.place| && disk.place[listed.inbox[name]] == Inbox(name)
      modifies this
      ensures disk.Consistent() && Onward(old(disk), disk)
      ensures alive <==> course(listed.inbox[name]).stop.Never?
      ensures alive ==> disk.processing == map[] && Done(disk, listed.inbox[name], course(listed.inbox[name]))
      ensures disk.handled == old(disk).handled + Work(listed.inbox[name], course(listed.inbox[name]))
      ensures InboxKept(old(disk), disk, listed.inbox[name])
    {
      hide Onward, Done;
      Meanwhile();
      label awake:
      StillThere(disk, name, listed.inbox[name]);
      alive := ProcessFile(name, course);
      OnwardTransitive(old(disk), old@awake(disk), disk);
    }
  }

  /** What a turn adds to the files handled. */
  function Work(f: nat, c: Course): seq<nat> {
    if c.stop.BeforeWork? || c.handling.ThrowsBefore? then [] else [f]
  }

  /** A rename into the error directory. */
  method RenameToError(disk: Disk, name: string, kind: ErrorKind, now: int) returns (d: Disk)
    requires disk.Consistent() && name in disk.processing
    ensures d == disk.MoveToError(name, kind, now) && d.Consistent() && Onward(disk, d)
    ensures d.inbox == disk.inbox && d.processing == disk.processing - {name} && d.handled == disk.handled
    ensures d.place[disk.processing[name]] == Errors(ErrorName(kind, now, name))
    ensures InboxKept(disk, d, disk.processing[name])
    ensures kind == LeftOver ==> LaidAside(d, disk.processing[name])
  {
    MoveToErrorKeeps(disk, name, kind, now);
    MovedPlaces(disk, name, kind, now);
    hide Onward, Disk.Logged, Disk.HandledOnce;
    d := disk.MoveToError(name, kind, now);
  }

  /** A removal. */
  method Remove(disk: Disk, name: string) returns (d: Disk)
    requires disk.Consistent() && name in disk.processing && disk.processing[name] in disk.handled
    ensures d == disk.Unlink(name) && d.Consistent() && Onward(disk, d)
    ensures d.place[disk.processing[name]] == Deleted && InboxKept(disk, d, disk.processing[name])
  {
    UnlinkKeeps(disk, name);
    d := disk.Unlink(name);
  }

  lemma ListedThere(d: Disk)
    requires d.Consistent()
    ensures forall n :: n in d.inbox ==> d.inbox[n] < |d.place| && d.place[d.inbox[n]] == Inbox(n)
  {
  }

  lemma StillThere(d: Disk, name: string, f: nat)
    requires d.Consistent() && f < |d.place| && d.place[f] == Inbox(name)
    ensures name in d.inbox && d.inbox[name] == f
  {
    assert d.Holds(f);
  }

  lemma StaysListed(d: Disk, d': Disk, f: nat, g: nat, name: string)
    requires InboxKept(d, d', f) && g < |d.place| && g != f && d.place[g] == Inbox(name)
    ensures g < |d'.place| && d'.place[g] == Inbox(name)
  {
  }

  lemma NamesDiffer(d: Disk, a: string, b: string)
    requires d.Consistent() && a in d.inbox && b in d.inbox && a != b
    ensures d.inbox[a] != d.inbox[b]
  {
    assert d.place[d.inbox[a]] == Inbox(a) && d.place[d.inbox[b]] == Inbox(b);
  }

  // ----- the listing as the loop goes over it -----

  /** The files still to come are where they were. */
  ghost predicate Listed(listed: Disk, d: Disk, listing: set<string>) {
    && listing <= listed.inbox.Keys
    && forall n :: n in listing ==> listed.inbox[n] < |d.place| && d.place[listed.inbox[n]] == Inbox(n)
  }

  /** The others have had their turn. */
  ghost predicate Turned(listed: Disk, d: Disk, listing: set<string>, course: nat -> Course) {
    forall n :: n in listed.inbox && n !in listing ==>
      course(listed.inbox[n]).stop.Never? && Done(d, listed.inbox[n], course(listed.inbox[n]))
  }

  ghost predicate OnlyListed(listed: Disk, d: Disk) {
    forall f :: f in d.handled && f !in listed.handled ==> exists n :: n in listed.inbox && listed.inbox[n] == f
  }

  lemma ListingStarts(d: Disk, course: nat -> Course)
    requires d.Consistent()
    ensures Listed(d, d, d.inbox.Keys) && Turned(d, d, d.inbox.Keys, course) && OnlyListed(d, d)
  {
    ListedThere(d);
  }

  lemma IsListed(listed: Disk, d: Disk, listing: set<string>, name: string)
    requires Listed(listed, d, listing) && name in listing
    ensures name in listed.inbox && listed.inbox[name] < |d.place| && d.place[listed.inbox[name]] == Inbox(name)
  {
  }

  lemma OnlyListedMeans(listed: Disk, d: Disk)
    requires OnlyListed(listed, d)
    ensures forall f :: f in d.handled && f !in listed.handled ==> exists n :: n in listed.inbox && listed.inbox[n] == f
  {
  }

  lemma OnlyOneMore(listed: Disk, d: Disk, d': Disk, name: string, c: Course)
    requires OnlyListed(listed, d) && name in listed.inbox && d'.handled == d.handled + Work(listed.inbox[name], c)
    ensures OnlyListed(listed, d')
  {
  }

  lemma OneTurned(listed: Disk, d: Disk, d': Disk, listing: set<string>, name: string, course: nat -> Course)
    requires listed.Consistent() && Turned(listed, d, listing, course) && Onward(d, d')
    requires name in listing && name in listed.inbox && course(listed.inbox[name]).stop.Never?
    requires d'.handled == d.handled + Work(listed.inbox[name], course(listed.inbox[name]))
    requires Done(d', listed.inbox[name], course(listed.inbox[name]))
    ensures Turned(listed, d', listing - {name}, course)
  {
    hide Disk.Consistent, Onward, Done;
    forall n | n in listed.inbox && n !in listing
      ensures Done(d', listed.inbox[n], course(listed.inbox[n]))
    {
      NamesDiffer(listed, n, name);
      DoneStays(d, d', listed.inbox[n], course(listed.inbox[n]));
    }
  }

  lemma OneListedLess(listed: Disk, d: Disk, d': Disk, listing: set<string>, name: string)
    requires listed.Consistent() && Listed(listed, d, listing) && name in listing && name in listed.inbox
    requires InboxKept(d, d', listed.inbox[name])
    ensures Listed(listed, d', listing - {name})
  {
    hide Disk.Consistent, InboxKept;
    forall n | n in listing && n != name
      ensures listed.inbox[n] < |d'.place| && d'.place[listed.inbox[n]] == Inbox(n)
    {
      NamesDiffer(listed, n, name);
      StaysListed(d, d', listed.inbox[name], listed.inbox[n], n);
    }
  }

  lemma AllTurned(listed: Disk, d: Disk, course: nat -> Course)
    requires Turned(listed, d, {}, course)
    ensures forall n :: n in listed.inbox ==>
              course(listed.inbox[n]).stop.Never? && Done(d, listed.inbox[n], course(listed.inbox[n]))
  {
  }

  lemma StaysPut(d: Disk)
    ensures Onward(d, d)
  {
  }

  /** Any number of rounds by any number of processes, each taking up what the
      last one left. */
  method PollRepeatedly(rounds: nat, courses: nat -> nat -> Course) returns (disk: Disk)
    ensures disk.Consistent()
  {
    disk := Empty;
    for i := 0 to rounds
      invariant disk.Consistent()
    {
      var poller := new Poller(disk);
      poller.Meanwhile();
      var _ := poller.Poll(courses(i));
      disk := poller.disk;
    }
  }
}
