/** Rotation of the wire log's capture files: `<base>`, `<base>.1`, ... `<base>.N`. */
module Rotation {
  import opened Bytes

  type Record = seq<byte>
  /** Suffix number to file contents; the live file has number 0. */
  type Disk = map<nat, seq<byte>>

  const PCAP_HEADER_LEN: nat := 24
  const MAX_RECORD: nat := 1456
  const MIN_FILE: nat := 4096
  const MAX_FILES: nat := 10

  function PcapHeader(): (h: seq<byte>)
    ensures |h| == PCAP_HEADER_LEN
  {
    [0xd4, 0xc3, 0xb2, 0xa1, 2, 0, 4, 0, 0, 0, 0, 0, 0, 0, 0, 0, 0xff, 0xff, 0, 0, 101, 0, 0, 0]
  }

  /** A capture reader gets the classic magic number, version 2.4, UTC, whole packets, and the raw IP link type. */
  lemma HeaderReadsBack()
    ensures var h := PcapHeader();
            && ReadLe32(h, 0) == 0xA1B2_C3D4 && ReadLe16(h, 4) == 2 && ReadLe16(h, 6) == 4
            && ReadLe32(h, 8) == 0 && ReadLe32(h, 12) == 0 && ReadLe32(h, 16) == 65535 && ReadLe32(h, 20) == 101
  {
  }

  // ---- what the operations do to any disk ----

  function Opened(disk: Disk): (d: Disk)
    ensures 0 in d
  {
    if 0 in disk && disk[0] != [] then disk else disk[0 := PcapHeader()]
  }

  predicate MovesTo(disk: Disk, i: nat) {
    1 <= i && i - 1 in disk
  }

  /** Every file below the last kept number moves up by one; numbers past it are not touched. */
  function Rotated(disk: Disk, keep: nat): (d: Disk)
    ensures 0 in d
  {
    var kept: Disk := map i: nat | i in disk && keep <= i :: disk[i];
    var moved: Disk := map i: nat | i < keep && MovesTo(disk, i) :: disk[i - 1];
    (kept + moved)[0 := PcapHeader()]
  }

  function Appended(disk: Disk, keep: nat, maxFile: nat, rec: Record): (d: Disk)
    requires 0 in disk
    ensures 0 in d
  {
    var d := if |disk[0]| + |rec| > maxFile then Rotated(disk, keep) else disk;
    d[0 := d[0] + rec]
  }

  function AppendedAll(disk: Disk, keep: nat, maxFile: nat, recs: seq<Record>): (d: Disk)
    requires 0 in disk
    ensures 0 in d
  {
    if recs == [] then disk
    else Appended(AppendedAll(disk, keep, maxFile, recs[..|recs| - 1]), keep, maxFile, recs[|recs| - 1])
  }

  function Renamed(disk: Disk, from: nat, to: nat): Disk {
    if from in disk then (disk - {from})[to := disk[from]] else disk
  }

  /** Numbers above `i` have moved up, `i` itself is free, the rest is as it was. */
  ghost predicate Shifting(disk: Disk, was: Disk, i: nat, keep: nat) {
    && i !in disk
    && (forall j: nat :: j < i || keep <= j ==> (j in disk <==> j in was))
    && (forall j: nat :: (j < i || keep <= j) && j in disk ==> disk[j] == was[j])
    && (forall j: nat :: i < j < keep ==> (j in disk <==> MovesTo(was, j)))
    && (forall j: nat :: i < j < keep && j in disk ==> disk[j] == was[j - 1])
  }

  lemma ShiftStarts(was: Disk, rotated: nat)
    ensures Shifting(was - {rotated}, was, rotated, rotated + 1)
  {
  }

  lemma ShiftMoves(disk: Disk, was: Disk, i: nat, keep: nat)
    requires 1 <= i < keep && Shifting(disk, was, i, keep)
    ensures Shifting(Renamed(disk, i - 1, i), was, i - 1, keep)
  {
    var d := Renamed(disk, i - 1, i);
    assert i in d <==> MovesTo(was, i);
  }

  lemma ShiftEnds(disk: Disk, was: Disk, keep: nat)
    requires 1 <= keep && Shifting(disk, was, 0, keep)
    ensures Opened(disk) == Rotated(was, keep)
  {
    hide PcapHeader;
    var a, b := Opened(disk), Rotated(was, keep);
    assert forall j: nat :: j in a <==> j in b;
    assert forall j: nat | j in a :: a[j] == b[j];
  }

  lemma OnlyLive(was: Disk)
    ensures Opened(was - {0}) == Rotated(was, 1)
  {
    hide PcapHeader;
    var a, b := Opened(was - {0}), Rotated(was, 1);
    assert forall j: nat :: j in a <==> j in b;
    assert forall j: nat | j in a :: a[j] == b[j];
  }

  class Rotator {
    var files: Disk
    var written: nat
    const maxFile: nat
    const keepFiles: nat

    ghost predicate Valid()
      reads this
    {
      0 in files && written == |files[0]| && 1 <= keepFiles <= MAX_FILES && MIN_FILE <= maxFile
    }

    constructor (disk: Disk, maxFile: nat, keepFiles: nat)
      requires 1 <= keepFiles <= MAX_FILES && MIN_FILE <= maxFile
      ensures Valid() && this.maxFile == maxFile && this.keepFiles == keepFiles
      ensures files == Opened(disk)
    {
      this.maxFile, this.keepFiles := maxFile, keepFiles;
      files, written := disk, 0;
      new;
      OpenLive();
    }

    /** O_CREAT|O_APPEND, then fstat; the header goes in only when the file is empty. */
    method OpenLive()
      modifies this
      ensures files == Opened(old(files)) && written == |files[0]|
    {
      if 0 !in files {
        files := files[0 := []];
      }
      assert forall h: seq<byte> :: [] + h == h;
      written := |files[0]|;
      if written == 0 {
        files := files[0 := files[0] + PcapHeader()];
        written := PCAP_HEADER_LEN;
      }
    }

    /** rename(2): replaces the target; does nothing when the source is missing. */
    method Rename(from: nat, to: nat)
      requires from != to
      modifies this`files
      ensures files == Renamed(old(files), from, to)
    {
      if from in files {
        files := (files - {from})[to := files[from]];
      }
    }

    method Rotate()
      requires Valid()
      modifies this
      ensures Valid() && files == Rotated(old(files), keepFiles)
    {
      hide Shifting, Renamed, Opened, Rotated;
      var rotated := keepFiles - 1;
      if rotated == 0 {
        files := files - {0};
        OnlyLive(old(files));
      } else {
        files := files - {rotated};
        ShiftStarts(old(files), rotated);
        var i := rotated;
        while i > 1
          invariant 1 <= i <= rotated
          invariant Shifting(files, old(files), i, keepFiles)
        {
          ShiftMoves(files, old(files), i, keepFiles);
          Rename(i - 1, i);
          i := i - 1;
        }
        ShiftMoves(files, old(files), 1, keepFiles);
        Rename(0, 1);
        ShiftEnds(files, old(files), keepFiles);
      }
      OpenLive();
    }

    method AppendRecord(rec: Record)
      requires Valid()
      modifies this
      ensures Valid() && files == Appended(old(files), keepFiles, maxFile, rec)
    {
      if written + |rec| > maxFile {
        Rotate();
      }
      files := files[0 := files[0] + rec];
      written := written + |rec|;
    }
  }

  // ---- the log as lists of records, newest file first ----

  type Log = seq<seq<Record>>

  function FileBytes(recs: seq<Record>): (b: seq<byte>) {
    PcapHeader() + Flatten(recs)
  }

  function Logged(log: Log, keep: nat, maxFile: nat, rec: Record): (l: Log)
    requires log != [] && 1 <= keep
    ensures l != []
  {
    if |FileBytes(log[0])| + |rec| > maxFile then [[rec]] + log[..Min(|log|, keep - 1)]
    else log[0 := log[0] + [rec]]
  }

  function LoggedAll(keep: nat, maxFile: nat, recs: seq<Record>): (l: Log)
    requires 1 <= keep
    ensures l != []
  {
    if recs == [] then [[]] else Logged(LoggedAll(keep, maxFile, recs[..|recs| - 1]), keep, maxFile, recs[|recs| - 1])
  }

  function OldestFirst(log: Log): (recs: seq<Record>) {
    if log == [] then [] else OldestFirst(log[1..]) + log[0]
  }

  /** The disk holds exactly the files of the log. */
  ghost predicate Shows(disk: Disk, log: Log) {
    && (forall i: nat :: i in disk <==> i < |log|)
    && (forall i: nat :: i < |log| ==> disk[i] == FileBytes(log[i]))
  }

  predicate LogOk(log: Log, keep: nat, maxFile: nat) {
    && 1 <= |log| <= keep
    && (forall i :: 0 <= i < |log| ==> |FileBytes(log[i])| <= maxFile)
    && (forall i :: 1 <= i < |log| ==> |FileBytes(log[i])| + MAX_RECORD > maxFile)
  }

  predicate IsSuffix<T(==)>(s: seq<T>, whole: seq<T>) {
    |s| <= |whole| && whole[|whole| - |s|..] == s
  }

  lemma {:induction false} DroppingOldest(log: Log, n: nat)
    requires n <= |log|
    ensures IsSuffix(OldestFirst(log[..n]), OldestFirst(log))
  {
    if n > 0 {
      DroppingOldest(log[1..], n - 1);
      assert log[..n][1..] == log[1..][..n - 1];
    }
  }

  lemma SuffixGrows<T>(s: seq<T>, whole: seq<T>, last: T)
    requires IsSuffix(s, whole)
    ensures IsSuffix(s + [last], whole + [last])
  {
  }

  lemma SuffixChains<T>(s: seq<T>, mid: seq<T>, whole: seq<T>)
    requires IsSuffix(s, mid) && IsSuffix(mid, whole)
    ensures IsSuffix(s, whole)
  {
  }

  lemma LoggedOk(log: Log, keep: nat, maxFile: nat, rec: Record)
    requires LogOk(log, keep, maxFile) && MIN_FILE <= maxFile && |rec| <= MAX_RECORD
    ensures LogOk(Logged(log, keep, maxFile, rec), keep, maxFile)
  {
    var l := Logged(log, keep, maxFile, rec);
    if |FileBytes(log[0])| + |rec| > maxFile {
      assert Flatten([rec]) == rec;
      forall i | 1 <= i < |l| ensures l[i] == log[i - 1] { }
    } else {
      FlattenAppend(log[0], [rec]);
      assert Flatten([rec]) == rec;
    }
  }

  lemma LoggedSuffix(log: Log, keep: nat, maxFile: nat, rec: Record)
    requires 1 <= |log| <= keep
    ensures var l := Logged(log, keep, maxFile, rec);
            && IsSuffix(OldestFirst(l), OldestFirst(log) + [rec])
            && (|l| < keep ==> |log| < keep && OldestFirst(l) == OldestFirst(log) + [rec])
  {
    var l := Logged(log, keep, maxFile, rec);
    if |FileBytes(log[0])| + |rec| > maxFile {
      var older := log[..Min(|log|, keep - 1)];
      assert l[1..] == older;
      DroppingOldest(log, |older|);
      SuffixGrows(OldestFirst(older), OldestFirst(log), rec);
      assert |l| < keep ==> older == log;
    } else {
      assert l[1..] == log[1..];
      assert OldestFirst(l) == OldestFirst(log) + [rec];
    }
  }

  lemma ShowsRotated(disk: Disk, log: Log, keep: nat, rec: Record)
    requires Shows(disk, log) && 1 <= |log| <= keep
    ensures var d := Rotated(disk, keep);
            Shows(d[0 := d[0] + rec], [[rec]] + log[..Min(|log|, keep - 1)])
  {
    hide FileBytes, PcapHeader;
    var d, l := Rotated(disk, keep), [[rec]] + log[..Min(|log|, keep - 1)];
    assert d[0] + rec == FileBytes([rec]) by { OneRecord(rec); }
    forall i: nat ensures i in d <==> i < |l| {
      if 1 <= i < keep {
        assert i in d <==> MovesTo(disk, i);
      }
    }
    forall i: nat | 1 <= i < |l| ensures d[i] == FileBytes(l[i]) {
      assert MovesTo(disk, i) && l[i] == log[i - 1];
    }
  }

  lemma OneRecord(rec: Record)
    ensures FileBytes([rec]) == PcapHeader() + rec
  {
    assert Flatten([rec]) == rec;
  }

  lemma ShowsLogged(disk: Disk, log: Log, keep: nat, maxFile: nat, rec: Record)
    requires Shows(disk, log) && 1 <= |log| <= keep
    ensures Shows(Appended(disk, keep, maxFile, rec), Logged(log, keep, maxFile, rec))
  {
    hide PcapHeader, Rotated, Min;
    assert disk[0] == FileBytes(log[0]);
    if |FileBytes(log[0])| + |rec| > maxFile {
      ShowsRotated(disk, log, keep, rec);
    } else {
      FlattenAppend(log[0], [rec]);
      assert Flatten([rec]) == rec;
      assert disk[0] + rec == PcapHeader() + (Flatten(log[0]) + rec);
    }
  }

  function BodyBytes(log: Log): nat {
    if log == [] then 0 else |Flatten(log[0])| + BodyBytes(log[1..])
  }

  lemma {:induction false} FullFiles(log: Log, maxFile: nat)
    requires MIN_FILE <= maxFile
    requires forall i :: 0 <= i < |log| ==> |FileBytes(log[i])| + MAX_RECORD > maxFile
    ensures BodyBytes(log) >= |log| * (maxFile - PCAP_HEADER_LEN - MAX_RECORD + 1)
  {
    if log != [] {
      assert |FileBytes(log[0])| + MAX_RECORD > maxFile;
      FullFiles(log[1..], maxFile);
      var room := maxFile - PCAP_HEADER_LEN - MAX_RECORD + 1;
      assert |log| * room == room + |log[1..]| * room;
    }
  }

  ghost predicate Keeps(log: Log, disk: Disk, keep: nat, maxFile: nat, recs: seq<Record>) {
    && LogOk(log, keep, maxFile)
    && Shows(disk, log)
    && IsSuffix(OldestFirst(log), recs)
    && (|log| < keep ==> OldestFirst(log) == recs)
  }

  lemma FreshKeeps(keep: nat, maxFile: nat)
    requires 1 <= keep && MIN_FILE <= maxFile
    ensures Keeps([[]], Opened(map[]), keep, maxFile, [])
  {
    hide PcapHeader;
    assert FileBytes([]) == PcapHeader();
    assert OldestFirst([[]]) == [];
  }

  lemma StepKeeps(log: Log, disk: Disk, keep: nat, maxFile: nat, recs: seq<Record>, rec: Record)
    requires Keeps(log, disk, keep, maxFile, recs) && MIN_FILE <= maxFile && |rec| <= MAX_RECORD
    ensures log != [] && 1 <= keep && 0 in disk
    ensures Keeps(Logged(log, keep, maxFile, rec), Appended(disk, keep, maxFile, rec), keep, maxFile, recs + [rec])
  {
    hide FileBytes, Logged, OldestFirst, Appended, IsSuffix;
    LoggedOk(log, keep, maxFile, rec);
    ShowsLogged(disk, log, keep, maxFile, rec);
    LoggedSuffix(log, keep, maxFile, rec);
    SuffixGrows(OldestFirst(log), recs, rec);
    SuffixChains(OldestFirst(Logged(log, keep, maxFile, rec)), OldestFirst(log) + [rec], recs + [rec]);
  }

  lemma {:induction false} EveryLogKeeps(keep: nat, maxFile: nat, recs: seq<Record>)
    requires 1 <= keep && MIN_FILE <= maxFile
    requires forall i :: 0 <= i < |recs| ==> |recs[i]| <= MAX_RECORD
    ensures Keeps(LoggedAll(keep, maxFile, recs), AppendedAll(Opened(map[]), keep, maxFile, recs),
                  keep, maxFile, recs)
  {
    hide Keeps, Logged, Appended, Opened;
    if recs == [] {
      FreshKeeps(keep, maxFile);
    } else {
      var before, last := recs[..|recs| - 1], recs[|recs| - 1];
      EveryLogKeeps(keep, maxFile, before);
      StepKeeps(LoggedAll(keep, maxFile, before), AppendedAll(Opened(map[]), keep, maxFile, before),
                keep, maxFile, before, last);
      assert recs == before + [last];
    }
  }

  lemma KeepsBytes(log: Log, disk: Disk, keep: nat, maxFile: nat, recs: seq<Record>)
    requires Keeps(log, disk, keep, maxFile, recs) && MIN_FILE <= maxFile
    ensures OldestFirst(log) == recs
         || BodyBytes(log) >= (keep - 1) * (maxFile - PCAP_HEADER_LEN - MAX_RECORD + 1)
  {
    hide FileBytes, OldestFirst, IsSuffix, Shows;
    FullFiles(log[1..], maxFile);
  }

  /**
   * Whatever is logged, starting with no files: the disk holds at most `keep` files, each the
   * capture header followed by whole records and none over the cap; read oldest to newest they
   * are a suffix of the records logged; and once a record is gone, all but the live file are
   * full to within one record. Reopening such a disk changes nothing, so a restart continues it.
   */
  lemma DiskKeepsNewest(keep: nat, maxFile: nat, recs: seq<Record>) returns (log: Log)
    requires 1 <= keep <= MAX_FILES && MIN_FILE <= maxFile
    requires forall i :: 0 <= i < |recs| ==> |recs[i]| <= MAX_RECORD
    ensures var disk := AppendedAll(Opened(map[]), keep, maxFile, recs);
            Shows(disk, log) && Opened(disk) == disk
    ensures 1 <= |log| <= keep && forall i :: 0 <= i < |log| ==> |FileBytes(log[i])| <= maxFile
    ensures IsSuffix(OldestFirst(log), recs)
    ensures OldestFirst(log) == recs
         || BodyBytes(log) >= (keep - 1) * (maxFile - PCAP_HEADER_LEN - MAX_RECORD + 1)
  {
    hide OldestFirst, IsSuffix, AppendedAll, LoggedAll, BodyBytes, PcapHeader;
    log := LoggedAll(keep, maxFile, recs);
    EveryLogKeeps(keep, maxFile, recs);
    KeepsBytes(log, AppendedAll(Opened(map[]), keep, maxFile, recs), keep, maxFile, recs);
    assert AppendedAll(Opened(map[]), keep, maxFile, recs)[0] == FileBytes(log[0]);
  }
}
