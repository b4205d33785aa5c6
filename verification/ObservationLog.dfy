/** The crash-safe append of the observation log.

  A disk keeps what the processes see and, for each directory entry, every value it may have after a
  crash: the value at the last synchronisation of its directory and every value since.  Bytes of the
  log written since its last fsync may survive in any number and with any content.  Every file
  operation may fail or lose power, before or after taking effect; a script decides.
 */
module ObservationLog {
  import opened Basics
  import opened LogReader

  datatype Fault = Works | FailsBefore | FailsAfter | LosesPowerBefore | LosesPowerAfter | ShortWrite(written: nat)

  datatype Status = Done | IoError | PowerLost

  /** What a restart finds.  Without its directory nothing is left of the repository. */
  datatype Image = Image(directory: bool, marker: bool, log: Option<Bytes>)

  class Disk {
    var script: seq<Fault>
    var directory: bool
    var directoryValues: set<bool>
    var marker: bool
    var markerValues: set<bool>
    var logExists: bool
    var logExistsValues: set<bool>
    var log: Bytes
    var durableLog: Bytes

    /** The log content as processes see it; an absent file reads as empty. */
    ghost predicate Valid()
      reads this
    {
      && directory in directoryValues && marker in markerValues && logExists in logExistsValues
      && durableLog <= log
      && (!logExists ==> log == []) && (!directory ==> directoryValues == {false})
    }

    /** Every image a power loss at this moment may leave. */
    ghost predicate MayLeave(image: Image)
      reads this
    {
      && image.directory in directoryValues
      && (!image.directory ==> !image.marker && image.log.None?)
      && (image.directory ==>
            && image.marker in markerValues
            && image.log.Some? in logExistsValues
            && (image.log.Some? ==> durableLog <= image.log.value && |image.log.value| <= |log|))
    }

    /** What the script holds for the next operation; when it runs out everything works. */
    function Upcoming(): Fault
      reads this`script
    {
      if script == [] then Works else script[0]
    }

    function Rest(): seq<Fault>
      reads this`script
    {
      if script == [] then [] else script[1..]
    }

    method NextFault() returns (f: Fault)
      modifies this`script
      ensures f == old(Upcoming()) && script == old(Rest())
    {
      if script == [] {
        f := Works;
      } else {
        f := script[0];
        script := script[1..];
      }
    }

    constructor (script: seq<Fault>, image: Image)
      requires !image.directory ==> !image.marker && image.log.None?
      ensures this.script == script
      ensures Valid() && marker == image.marker && directory == image.directory && logExists == image.log.Some?
      ensures directoryValues == {directory} && markerValues == {marker} && logExistsValues == {logExists}
      ensures log == durableLog == (if image.log.Some? then image.log.value else [])
    {
      this.script := script;
      directory, directoryValues := image.directory, {image.directory};
      marker, markerValues := image.marker, {image.marker};
      logExists, logExistsValues := image.log.Some?, {image.log.Some?};
      log, durableLog := if image.log.Some? then image.log.value else [], if image.log.Some? then image.log.value else [];
    }

    function Outcome(f: Fault): Status {
      match f
      case Works => Done
      case FailsBefore => IoError
      case FailsAfter => IoError
      case LosesPowerBefore => PowerLost
      case LosesPowerAfter => PowerLost
      case ShortWrite(_) => IoError
    }

    predicate TakesEffect(f: Fault) {
      f.Works? || f.FailsAfter? || f.LosesPowerAfter?
    }

    /** Create the repository directory when it is absent. */
    method MakeDirectory() returns (s: Status, created: bool)
      requires Valid()
      modifies this`script, this`directory, this`directoryValues
      ensures Valid()
      ensures directoryValues == old(directoryValues) || directoryValues == old(directoryValues) + {true}
      ensures s == Done ==> directory && created == !old(directory)
      ensures s == Done && created ==> directoryValues == old(directoryValues) + {true}
      ensures old(directory) ==> directory && directoryValues == old(directoryValues)
      ensures s == Outcome(old(Upcoming())) && script == old(Rest())
    {
      var f := NextFault();
      s, created := Outcome(f), false;
      if TakesEffect(f) && !directory {
        directory, directoryValues := true, directoryValues + {true};
        created := true;
      }
    }

    /** Synchronise the parent of the repository directory. */
    method SyncOwnEntry() returns (s: Status)
      requires Valid()
      modifies this`script, this`directoryValues
      ensures Valid()
      ensures directoryValues == old(directoryValues) || directoryValues == {directory}
      ensures s == Done ==> directoryValues == {directory}
      ensures s == Outcome(old(Upcoming())) && script == old(Rest())
    {
      var f := NextFault();
      s := Outcome(f);
      if TakesEffect(f) {
        directoryValues := {directory};
      }
    }

    method WriteMarker() returns (s: Status)
      requires Valid()
      modifies this`script, this`marker, this`markerValues
      ensures Valid()
      ensures (marker == old(marker) && markerValues == old(markerValues)) || (marker && markerValues == old(markerValues) + {true})
      ensures s == Done ==> marker
      ensures s == Outcome(old(Upcoming())) && script == old(Rest())
    {
      var f := NextFault();
      s := Outcome(f);
      if TakesEffect(f) {
        marker, markerValues := true, markerValues + {true};
      }
    }

    method RemoveMarker() returns (s: Status)
      requires Valid()
      modifies this`script, this`marker, this`markerValues
      ensures Valid()
      ensures (marker == old(marker) && markerValues == old(markerValues)) || (!marker && markerValues == old(markerValues) + {false})
      ensures s == Done ==> !marker
      ensures s == Outcome(old(Upcoming())) && script == old(Rest())
    {
      var f := NextFault();
      s := Outcome(f);
      if TakesEffect(f) {
        marker, markerValues := false, markerValues + {false};
      }
    }

    /** Synchronise the directory: its entries are from now on what they are. */
    method SyncDirectory() returns (s: Status)
      requires Valid()
      modifies this`script, this`markerValues, this`logExistsValues
      ensures Valid()
      ensures (markerValues == old(markerValues) && logExistsValues == old(logExistsValues))
        || (markerValues == {marker} && logExistsValues == {logExists})
      ensures s == Done ==> markerValues == {marker} && logExistsValues == {logExists}
      ensures s == Outcome(old(Upcoming())) && script == old(Rest())
    {
      var f := NextFault();
      s := Outcome(f);
      if TakesEffect(f) {
        markerValues, logExistsValues := {marker}, {logExists};
      }
    }

    /** Open for appending, which creates the file, and write; a short write keeps a prefix. */
    method AppendBytes(encoded: Bytes) returns (s: Status)
      requires Valid()
      modifies this`script, this`log, this`logExists, this`logExistsValues
      ensures Valid()
      ensures old(log) <= log <= old(log) + encoded
      ensures logExistsValues == old(logExistsValues) || logExistsValues == old(logExistsValues) + {true}
      ensures old(logExists) ==> logExists && logExistsValues == old(logExistsValues)
      ensures s == Done ==> log == old(log) + encoded && logExists
      ensures s == Outcome(old(Upcoming())) && script == old(Rest())
    {
      var f := NextFault();
      s := Outcome(f);
      if !f.FailsBefore? && !f.LosesPowerBefore? {
        if !logExists {
          logExists, logExistsValues := true, logExistsValues + {true};
        }
        var n := if f.ShortWrite? && f.written < |encoded| then f.written else |encoded|;
        log := log + encoded[..n];
      }
    }

    method SyncLog() returns (s: Status)
      requires Valid()
      modifies this`script, this`durableLog
      ensures Valid()
      ensures durableLog == old(durableLog) || durableLog == log
      ensures s == Done ==> durableLog == log
      ensures s == Outcome(old(Upcoming())) && script == old(Rest())
    {
      var f := NextFault();
      s := Outcome(f);
      if TakesEffect(f) {
        durableLog := log;
      }
    }

    /** Open and take the publication lock. */
    method Lock() returns (s: Status)
      modifies this`script
      ensures s == Outcome(old(Upcoming())) && script == old(Rest())
    {
      var f := NextFault();
      s := Outcome(f);
    }

    /** Where a restart may find no marker, the log is synchronised: this is what makes a log without
        a marker trustworthy. */
    ghost predicate SafeWithoutMarker()
      reads this
    {
      false in markerValues ==> durableLog == log && logExistsValues == {logExists}
    }

    /** The log content of an image; an absent file has none. */
    static function ContentOf(image: Image): Bytes {
      if image.log.Some? then image.log.value else []
    }

    /** A log found without its marker is exactly the log the processes saw. */
    lemma UnmarkedImageIsTheLog(image: Image)
      requires Valid() && SafeWithoutMarker() && MayLeave(image) && image.directory && !image.marker
      ensures ContentOf(image) == log
    {
      if image.log.Some? { assert image.log.value == log; }
    }
  }

  datatype AppendResult = Appended | WriteError | Interrupted

  class JsonlObservationRepository {
    const disk: Disk

    constructor (disk: Disk)
      ensures this.disk == disk
    {
      this.disk := disk;
    }

    static function Failure(s: Status): AppendResult {
      if s == PowerLost then Interrupted else WriteError
    }

    /** Append one encoded cycle.  Interrupted means the power went: nothing runs after it. */
    method AppendCycle(encoded: Bytes) returns (r: AppendResult)
      requires disk.Valid() && disk.SafeWithoutMarker()
      modifies disk
      ensures disk.Valid() && disk.SafeWithoutMarker()
      ensures old(disk.log) <= disk.log <= old(disk.log) + encoded
      ensures old(disk.durableLog) <= disk.durableLog
      ensures false in disk.markerValues ==> disk.log == old(disk.log) || disk.log == old(disk.log) + encoded
      ensures r.Appended? ==> disk.log == disk.durableLog == old(disk.log) + encoded && disk.markerValues == {false} && disk.logExistsValues == {true}
      ensures old(disk.logExistsValues) == {true} ==> disk.logExistsValues == {true}
      ensures old(disk.marker) ==> !r.Appended? && disk.log == old(disk.log) && disk.markerValues == old(disk.markerValues)
      ensures r.Appended? ==> disk.directory
      // The directory entry is synchronised by the call that creates the directory, and by no other.
      ensures r.Appended? ==> disk.directoryValues == if old(disk.directory) then old(disk.directoryValues) else {true}
      ensures old(disk.directory) ==> disk.directory && disk.directoryValues == old(disk.directoryValues)
      ensures old(disk.script) == [] && !old(disk.marker) ==> r.Appended?
    {
      var s, created := disk.MakeDirectory();
      if s != Done { return Failure(s); }
      s := disk.Lock();
      if s != Done { return Failure(s); }
      if disk.marker { return WriteError; }
      s := WriteInvalidMarker();
      if s != Done { return Failure(s); }
      if created {
        s := disk.SyncOwnEntry();
        if s != Done { return Failure(s); }
      }
      r := AppendMarked(encoded);
    }

    /** The part of an append that runs under a synchronised marker. */
    method AppendMarked(encoded: Bytes) returns (r: AppendResult)
      requires disk.Valid() && disk.marker && disk.markerValues == {true} && disk.logExistsValues == {disk.logExists}
      modifies disk`script, disk`marker, disk`markerValues, disk`log, disk`durableLog, disk`logExists, disk`logExistsValues
      ensures disk.Valid() && disk.SafeWithoutMarker()
      ensures old(disk.log) <= disk.log <= old(disk.log) + encoded
      ensures old(disk.durableLog) <= disk.durableLog
      ensures false in disk.markerValues ==> disk.log == old(disk.log) + encoded
      ensures r.Appended? ==> disk.log == disk.durableLog == old(disk.log) + encoded && disk.markerValues == {false} && disk.logExistsValues == {true}
      ensures old(disk.logExistsValues) == {true} ==> disk.logExistsValues == {true}
      ensures old(disk.script) == [] ==> r.Appended?
    {
      var logExisted := disk.logExists;
      var s := disk.AppendBytes(encoded);
      if s != Done { return Failure(s); }
      s := disk.SyncLog();
      if s != Done { return Failure(s); }
      if !logExisted {
        s := disk.SyncDirectory();
        if s != Done { return Failure(s); }
      }
      r := Unmark();
    }

    /** Remove the marker of a synchronised log; put it back when the removal cannot be synchronised. */
    method Unmark() returns (r: AppendResult)
      requires disk.Valid() && disk.durableLog == disk.log && disk.logExistsValues == {true}
      modifies disk`script, disk`marker, disk`markerValues, disk`logExistsValues
      ensures disk.Valid() && disk.logExistsValues == {true}
      ensures r.Appended? ==> disk.markerValues == {false}
      ensures old(disk.script) == [] ==> r.Appended?
    {
      var s := disk.RemoveMarker();
      if s != Done { return Failure(s); }
      s := disk.SyncDirectory();
      if s == Done { return Appended; }
      if s == IoError {
        var again := WriteInvalidMarker();
        if again == PowerLost { return Interrupted; }
      }
      r := Failure(s);
    }

    method WriteInvalidMarker() returns (s: Status)
      requires disk.Valid()
      modifies disk`script, disk`marker, disk`markerValues, disk`logExistsValues
      ensures disk.Valid()
      ensures disk.markerValues <= old(disk.markerValues) + {true}
      ensures old(disk.script) == [] ==> s == Done && disk.script == []
      ensures disk.logExistsValues == old(disk.logExistsValues) || disk.logExistsValues == {disk.logExists}
      ensures s == Done ==> disk.marker && disk.markerValues == {true} && disk.logExistsValues == {disk.logExists}
    {
      s := disk.WriteMarker();
      if s == Done {
        s := disk.SyncDirectory();
      }
    }

    /** A reader refuses a marked log; otherwise it returns whole cycles of the log it sees. */
    method ReadBatch<C>(from: Cursor, limit: nat, decode: Bytes -> Option<C>) returns (r: Result<(seq<C>, Cursor), CorruptionError>)
      requires disk.Valid()
      ensures r.Ok? ==> !disk.marker && CursorWellFormed(from)
      ensures r.Ok? && disk.logExists ==> AnchorHolds(disk.log, from) && IsPage(disk.log, from, limit, decode, r.value.0, r.value.1)
      ensures r.Ok? && !disk.logExists ==> r.value == ([], from)
    {
      if disk.marker { return Err(CorruptionError); }
      r := LogReader.ReadBatch(if disk.logExists then Some(disk.log) else None, from, limit, decode);
    }
  }

  // ---- whole lifetimes ----

  /** The directory's own entry: there is no directory, its entry is synchronised, or it was created by
      a call that did not come to synchronise it. */
  datatype Entry = Absent | Synced | Stray

  function EntryOf(disk: Disk): Entry
    reads disk
  {
    if !disk.directory then Absent else if false in disk.directoryValues then Stray else Synced
  }

  /** How a power loss turns out: each part of the image, where the disk leaves it open. */
  datatype Loss = Loss(keepDirectory: bool, keepMarker: bool, keepLog: bool, tail: Bytes, script: seq<Fault>)

  datatype Event = Append(encoded: Bytes) | PowerLoss(loss: Loss)

  const NOTHING := Image(false, false, None)

  /** Restart from an image the disk may leave; every such image has a loss that produces it. */
  method Restart(disk: Disk, loss: Loss) returns (next: Disk, ghost image: Image)
    requires disk.Valid()
    ensures disk.MayLeave(image) && fresh(next)
    ensures next.Valid() && next.SafeWithoutMarker() && next.directoryValues == {image.directory} && next.directory == image.directory
    ensures next.logExistsValues == {image.log.Some?}
    ensures next.log == next.durableLog == Disk.ContentOf(image) && next.marker == image.marker && next.markerValues == {next.marker}
  {
    var directory := if loss.keepDirectory in disk.directoryValues then loss.keepDirectory else disk.directory;
    if !directory {
      image := NOTHING;
      next := new Disk(loss.script, NOTHING);
      return;
    }
    var marker := if loss.keepMarker in disk.markerValues then loss.keepMarker else disk.marker;
    var present := if loss.keepLog in disk.logExistsValues then loss.keepLog else disk.logExists;
    var room := |disk.log| - |disk.durableLog|;
    var tail := if |loss.tail| <= room then loss.tail else loss.tail[..room];
    image := Image(true, marker, if present then Some(disk.durableLog + tail) else None);
    next := new Disk(loss.script, Image(true, marker, if present then Some(disk.durableLog + tail) else None));
  }

  lemma EveryImageIsAnOutcome(disk: Disk, image: Image) returns (loss: Loss)
    requires disk.Valid() && disk.MayLeave(image)
    ensures loss.keepDirectory == image.directory
    ensures image.directory ==> loss.keepMarker == image.marker && loss.keepLog == image.log.Some?
    ensures image.log.Some? ==> image.log.value == disk.durableLog + loss.tail && |loss.tail| <= |disk.log| - |disk.durableLog|
  {
    loss := Loss(image.directory, image.marker, image.log.Some?, if image.log.Some? then image.log.value[|disk.durableLog|..] else [], []);
  }

  /** What an append that was reported as successful left behind: the log up to its own record. */
  predicate IsFloor(event: Event, floor: Bytes) {
    event.Append? && |event.encoded| <= |floor| && floor[|floor| - |event.encoded|..] == event.encoded
  }

  lemma EndsWithRecord(before: Bytes, event: Event)
    requires event.Append?
    ensures IsFloor(event, before + event.encoded)
  {
  }

  /** It is durable wherever the directory is. */
  predicate Stored(durable: Bytes, logExists: set<bool>, floor: Bytes) {
    floor <= durable && logExists == {true}
  }

  ghost predicate Trustworthy<C>(disk: Disk, decode: Bytes -> Option<C>)
    reads disk
  {
    disk.Valid() && disk.SafeWithoutMarker() && (false in disk.markerValues ==> Cycles(disk.log, decode).Some?)
  }

  lemma ImageOfTrustworthy<C>(disk: Disk, image: Image, decode: Bytes -> Option<C>)
    requires Trustworthy(disk, decode) && disk.MayLeave(image)
    ensures EntryOf(disk).Synced? ==> image.directory
    ensures image.directory && disk.logExistsValues == {true} ==> image.log.Some? && disk.durableLog <= Disk.ContentOf(image)
    ensures !image.marker ==> Cycles(Disk.ContentOf(image), decode).Some?
  {
    if image.directory && !image.marker { disk.UnmarkedImageIsTheLog(image); }
  }

  /** What one event may do to the directory's entry.  Only the call that creates the directory
      synchronises it, and only a power loss takes it away. */
  predicate EntryStep(before: Entry, event: Event, result: AppendResult, after: Entry) {
    match event
    case Append(_) =>
      if before.Absent? then result.Appended? ==> after.Synced? else after == before
    case PowerLoss(_) => if before.Stray? then !after.Stray? else after == before
  }

  method LivePowerLoss<C>(disk: Disk, event: Event, decode: Bytes -> Option<C>) returns (next: Disk)
    requires Trustworthy(disk, decode) && event.PowerLoss?
    ensures fresh(next) && Trustworthy(next, decode) && EntryStep(EntryOf(disk), event, WriteError, EntryOf(next))
    ensures !EntryOf(next).Absent? && disk.logExistsValues == {true} ==> next.logExistsValues == {true} && disk.durableLog <= next.durableLog
  {
    hide Cycles;
    ghost var image;
    next, image := Restart(disk, event.loss);
    ImageOfTrustworthy(disk, image, decode);
  }

  /** Either nothing was written, or a whole readable record. */
  lemma StaysReadable<C>(before: Bytes, after: Bytes, encoded: Bytes, decode: Bytes -> Option<C>)
    requires Cycles(before, decode).Some? && IsRecord(encoded) && decode(encoded).Some? && (after == before || after == before + encoded)
    ensures Cycles(after, decode).Some?
  {
    CyclesOfOne(encoded, decode);
    CyclesConcat(before, encoded, decode);
  }

  method LiveAppend<C>(disk: Disk, event: Event, decode: Bytes -> Option<C>) returns (result: AppendResult)
    requires Trustworthy(disk, decode) && event.Append? && IsRecord(event.encoded) && decode(event.encoded).Some?
    modifies disk
    ensures Trustworthy(disk, decode) && EntryStep(old(EntryOf(disk)), event, result, EntryOf(disk))
    ensures result.Appended? ==> IsFloor(event, disk.log) && Stored(disk.durableLog, disk.logExistsValues, disk.log) && !EntryOf(disk).Absent?
    ensures old(disk.logExistsValues) == {true} ==> disk.logExistsValues == {true} && old(disk.durableLog) <= disk.durableLog
  {
    hide Cycles, IsRecord, IsFloor;
    ghost var before := disk.log;
    var repository := new JsonlObservationRepository(disk);
    result := repository.AppendCycle(event.encoded);
    EndsWithRecord(before, event);
    if Cycles(before, decode).Some? && (disk.log == before || disk.log == before + event.encoded) {
      StaysReadable(before, disk.log, event.encoded, decode);
    }
  }

  /** One event of a lifetime; nothing runs on a machine that is down until it restarts. */
  method LiveStep<C>(disk: Disk, event: Event, down: bool, decode: Bytes -> Option<C>)
    returns (next: Disk, result: AppendResult, ghost floor: Bytes, nextDown: bool)
    requires Trustworthy(disk, decode)
    requires event.Append? ==> IsRecord(event.encoded) && decode(event.encoded).Some?
    modifies disk
    ensures next == disk || fresh(next)
    ensures Trustworthy(next, decode) && EntryStep(old(EntryOf(disk)), event, result, EntryOf(next))
    ensures result.Appended? ==> IsFloor(event, floor) && Stored(next.durableLog, next.logExistsValues, floor) && !EntryOf(next).Absent?
    ensures !EntryOf(next).Absent? && old(disk.logExistsValues) == {true} ==>
      next.logExistsValues == {true} && old(disk.durableLog) <= next.durableLog
  {
    next, result, floor, nextDown := disk, Interrupted, [], down;
    if event.PowerLoss? {
      next := LivePowerLoss(disk, event, decode);
      result, nextDown := WriteError, false;
    } else if !down {
      result := LiveAppend(disk, event, decode);
      nextDown, floor := result.Interrupted?, disk.log;
    }
  }

  /** The directory was never lost between two moments. */
  predicate Unbroken(entries: seq<Entry>, i: nat, j: nat) {
    forall k :: i <= k <= j && k < |entries| ==> !entries[k].Absent?
  }

  /** The events moved the directory's entry from one moment to the next. */
  predicate EntriesFollow(entries: seq<Entry>, events: seq<Event>, results: seq<AppendResult>) {
    && |entries| == |events| + 1 && |results| == |events|
    && forall i :: 0 <= i < |events| ==>
         EntryStep(entries[i], events[i], results[i], entries[i + 1]) && (results[i].Appended? ==> !entries[i + 1].Absent?)
  }

  /** What a restart finds, after any lifetime: only whole cycles without the marker; every acknowledged
      append since the directory was last lost; and the directory itself once its entry is synchronised. */
  ghost predicate SoundImage<C>(image: Image, entries: seq<Entry>, results: seq<AppendResult>, floors: seq<Bytes>, decode: Bytes -> Option<C>)
    requires |results| == |floors| && |entries| == |floors| + 1
  {
    && (entries[|floors|].Synced? ==> image.directory)
    && (image.directory ==>
          forall i :: 0 <= i < |floors| && results[i].Appended? && Unbroken(entries, i + 1, |floors|) ==> floors[i] <= Disk.ContentOf(image))
    && (!image.marker ==> Cycles(Disk.ContentOf(image), decode).Some?)
  }

  /** Every acknowledged append since the directory was last lost is durable. */
  predicate AllStored(durable: Bytes, logExists: set<bool>, events: seq<Event>, entries: seq<Entry>, results: seq<AppendResult>, floors: seq<Bytes>)
    requires |results| == |floors| <= |events| && |entries| == |floors| + 1
  {
    forall i :: 0 <= i < |floors| && results[i].Appended? ==>
      IsFloor(events[i], floors[i]) && (Unbroken(entries, i + 1, |floors|) ==> Stored(durable, logExists, floors[i]))
  }

  lemma StoredOneMore(durable: Bytes, logExists: set<bool>, nextDurable: Bytes, nextExists: set<bool>, events: seq<Event>,
                      entries: seq<Entry>, results: seq<AppendResult>, floors: seq<Bytes>, last: Entry, r: AppendResult, floor: Bytes)
    requires |results| == |floors| < |events| && |entries| == |floors| + 1
    requires AllStored(durable, logExists, events, entries, results, floors)
    requires r.Appended? ==> IsFloor(events[|floors|], floor) && Stored(nextDurable, nextExists, floor)
    requires !last.Absent? && logExists == {true} ==> nextExists == {true} && durable <= nextDurable
    ensures AllStored(nextDurable, nextExists, events, entries + [last], results + [r], floors + [floor])
  {
    var n := |floors|;
    forall i | 0 <= i < n && results[i].Appended? && Unbroken(entries + [last], i + 1, n + 1)
      ensures Stored(nextDurable, nextExists, floors[i])
    {
      UnbrokenBefore(entries, last, i + 1, n);
    }
  }

  /** Any sequence of appends, failures at any operation, power losses and restarts, from any disk a
      restart may find, a bare one included: every image that the next power loss may leave is sound;
      and nothing may be left exactly while the directory's entry is not synchronised. */
  method Live<C>(first: Disk, events: seq<Event>, decode: Bytes -> Option<C>)
    returns (disk: Disk, results: seq<AppendResult>, ghost floors: seq<Bytes>, ghost entries: seq<Entry>)
    requires Trustworthy(first, decode)
    requires forall e :: e in events && e.Append? ==> IsRecord(e.encoded) && decode(e.encoded).Some?
    modifies first
    ensures |floors| == |events| && EntriesFollow(entries, events, results) && entries[0] == old(EntryOf(first))
    ensures forall i :: 0 <= i < |events| && results[i].Appended? ==> IsFloor(events[i], floors[i])
    ensures Trustworthy(disk, decode) && entries[|events|] == EntryOf(disk)
    ensures forall image :: disk.MayLeave(image) ==> SoundImage(image, entries, results, floors, decode)
    ensures disk.MayLeave(NOTHING) <==> !entries[|events|].Synced?
  {
    disk, results, floors, entries := first, [], [], [EntryOf(first)];
    var down := false;
    assert AllStored(first.durableLog, first.logExistsValues, events, entries, results, floors);
    hide Cycles, IsRecord, IsFloor, Unbroken, AllStored, EntriesFollow, SoundImage, EntryStep;
    EntriesStart(entries[0]);
    for n := 0 to |events|
      invariant disk == first || fresh(disk)
      invariant |results| == |floors| == n && |entries| == n + 1 && entries[0] == old(EntryOf(first))
      invariant EntriesFollow(entries, events[..n], results) && entries[n] == EntryOf(disk)
      invariant Trustworthy(disk, decode) && AllStored(disk.durableLog, disk.logExistsValues, events, entries, results, floors)
    {
      ghost var durable, logExists := disk.durableLog, disk.logExistsValues;
      var next, r, floor, d := LiveStep(disk, events[n], down, decode);
      StoredOneMore(durable, logExists, next.durableLog, next.logExistsValues, events, entries, results, floors, EntryOf(next), r, floor);
      EntriesOneMore(entries, events[..n], results, EntryOf(next), events[n], r);
      assert events[..n + 1] == events[..n] + [events[n]];
      disk, down, results, floors, entries := next, d, results + [r], floors + [floor], entries + [EntryOf(next)];
    }
    assert events[..|events|] == events;
    StoredAreFloors(disk.durableLog, disk.logExistsValues, events, entries, results, floors);
    forall image | disk.MayLeave(image) ensures SoundImage(image, entries, results, floors, decode) {
      ImageIsSound(disk, image, events, entries, results, floors, decode);
    }
  }

  /** The same, from a machine on which the repository never was. */
  method LiveFromNothing<C>(script: seq<Fault>, events: seq<Event>, decode: Bytes -> Option<C>)
    returns (disk: Disk, results: seq<AppendResult>, ghost floors: seq<Bytes>, ghost entries: seq<Entry>)
    requires forall e :: e in events && e.Append? ==> IsRecord(e.encoded) && decode(e.encoded).Some?
    ensures |floors| == |events| && EntriesFollow(entries, events, results) && entries[0].Absent?
    ensures forall image :: disk.MayLeave(image) ==> SoundImage(image, entries, results, floors, decode)
  {
    var first := new Disk(script, NOTHING);
    disk, results, floors, entries := Live(first, events, decode);
  }

  lemma EntriesStart(entry: Entry)
    ensures EntriesFollow([entry], [], [])
  {
  }

  lemma EntriesOneMore(entries: seq<Entry>, events: seq<Event>, results: seq<AppendResult>, last: Entry, event: Event, r: AppendResult)
    requires EntriesFollow(entries, events, results) && EntryStep(entries[|events|], event, r, last) && (r.Appended? ==> !last.Absent?)
    ensures EntriesFollow(entries + [last], events + [event], results + [r])
  {
    hide EntryStep;
  }

  lemma StoredAreFloors(durable: Bytes, logExists: set<bool>, events: seq<Event>, entries: seq<Entry>, results: seq<AppendResult>, floors: seq<Bytes>)
    requires |results| == |floors| <= |events| && |entries| == |floors| + 1 && AllStored(durable, logExists, events, entries, results, floors)
    ensures forall i :: 0 <= i < |floors| && results[i].Appended? ==> IsFloor(events[i], floors[i])
  {
    hide IsFloor, Unbroken;
  }

  lemma ImageIsSound<C>(disk: Disk, image: Image, events: seq<Event>, entries: seq<Entry>, results: seq<AppendResult>, floors: seq<Bytes>,
                        decode: Bytes -> Option<C>)
    requires Trustworthy(disk, decode) && disk.MayLeave(image) && |results| == |floors| == |events| && |entries| == |floors| + 1
    requires AllStored(disk.durableLog, disk.logExistsValues, events, entries, results, floors) && entries[|floors|] == EntryOf(disk)
    ensures SoundImage(image, entries, results, floors, decode)
  {
    ImageOfTrustworthy(disk, image, decode);
    hide Cycles, IsFloor, Unbroken;
  }

  lemma UnbrokenBefore(entries: seq<Entry>, last: Entry, i: nat, n: nat)
    requires |entries| == n + 1 && i <= n && Unbroken(entries + [last], i, n + 1)
    ensures Unbroken(entries, i, n) && !last.Absent?
  {
    assert (entries + [last])[n + 1] == last;
    forall k | i <= k <= n ensures !entries[k].Absent? { assert (entries + [last])[k] == entries[k]; }
  }

  /** Once synchronised, the entry stays: an append acknowledged with it is in every later image. */
  lemma {:induction false} SyncedStays(entries: seq<Entry>, events: seq<Event>, results: seq<AppendResult>, i: nat, n: nat)
    requires EntriesFollow(entries, events, results) && i <= n <= |events| && entries[i].Synced?
    ensures entries[n].Synced? && Unbroken(entries, i, n)
  {
    if i < n { SyncedStays(entries, events, results, i, n - 1); }
  }

  /** An append is acknowledged without a synchronised entry only after a call that created the
      directory and failed before synchronising it, with no restart in between. */
  lemma {:induction false} StrayHasItsCall(entries: seq<Entry>, events: seq<Event>, results: seq<AppendResult>, n: nat) returns (m: nat)
    requires EntriesFollow(entries, events, results) && n <= |events| && entries[n].Stray? && !entries[0].Stray?
    ensures m < n && events[m].Append? && !results[m].Appended? && entries[m].Absent?
    ensures forall k :: m < k <= n ==> entries[k].Stray?
    ensures forall k :: m <= k < n ==> events[k].Append?
  {
    if entries[n - 1].Stray? {
      m := StrayHasItsCall(entries, events, results, n - 1);
    } else {
      m := n - 1;
    }
  }

  /** An acknowledged append is in every image that any later power loss may leave, unless an earlier
      call created the directory and did not come to synchronise its entry; and then there is an image
      in which it is lost, until a restart finds the directory. */
  lemma AcknowledgedAppendsSurvive<C>(image: Image, entries: seq<Entry>, events: seq<Event>, results: seq<AppendResult>, floors: seq<Bytes>,
                                      decode: Bytes -> Option<C>, i: nat)
    requires EntriesFollow(entries, events, results) && |floors| == |events| && SoundImage(image, entries, results, floors, decode)
    requires i < |events| && results[i].Appended? && !entries[0].Stray?
    ensures entries[i + 1].Synced? ==> image.directory && floors[i] <= Disk.ContentOf(image)
    ensures !entries[i + 1].Synced? <==> exists m :: 0 <= m < i && IsStrayCall(entries, events, results, m, i)
  {
    if entries[i + 1].Synced? {
      SyncedStays(entries, events, results, i + 1, |events|);
      if exists m :: 0 <= m < i && IsStrayCall(entries, events, results, m, i) {
        var m :| 0 <= m < i && IsStrayCall(entries, events, results, m, i);
        StrayPersists(entries, events, results, m, i);
      }
    } else {
      var m := StrayHasItsCall(entries, events, results, i + 1);
      assert IsStrayCall(entries, events, results, m, i);
    }
  }

  /** Call m created the directory without synchronising its entry, and nothing restarted up to call i. */
  predicate IsStrayCall(entries: seq<Entry>, events: seq<Event>, results: seq<AppendResult>, m: nat, i: nat)
    requires EntriesFollow(entries, events, results) && m < i < |events|
  {
    && events[m].Append? && !results[m].Appended? && entries[m].Absent? && entries[m + 1].Stray?
    && forall k :: m <= k <= i ==> events[k].Append?
  }

  lemma {:induction false} StrayPersists(entries: seq<Entry>, events: seq<Event>, results: seq<AppendResult>, m: nat, i: nat)
    requires EntriesFollow(entries, events, results) && m < i < |events| && IsStrayCall(entries, events, results, m, i)
    ensures entries[i + 1].Stray?
  {
    if m + 1 < i {
      assert IsStrayCall(entries, events, results, m, i - 1);
      StrayPersists(entries, events, results, m, i - 1);
    }
  }

  /** Without a synchronised directory entry the promise fails: a first call creates the directory and
      then cannot take the lock, a second call reports success, and a power loss takes everything. */
  method AcknowledgedAppendIsLost(encoded: Bytes) returns (r: AppendResult, disk: Disk)
    ensures r.Appended? && disk.log == encoded
    ensures disk.MayLeave(NOTHING)
  {
    disk := new Disk([Works, FailsBefore], NOTHING);
    var made, created := disk.MakeDirectory();
    var locked := disk.Lock();
    assert made == Done && created && locked == IoError;
    var repository := new JsonlObservationRepository(disk);
    r := repository.AppendCycle(encoded);
  }
}
