/** The file behind the drive as a store of 128-byte blocks, addressed by track and sector. */
module DiskImage {
  import opened MemoryDevice
  import opened Rx11
  import opened DiskProtocol

  const IMAGE_BYTES: nat := TRACKS * TRACK_BYTES

  predicate OnDisk(track: byte, sector: byte) { track < TRACKS && sector < SECTORS }

  function Block(track: byte, sector: byte): nat { SECTORS * track + sector }

  predicate Overlap(a: nat, b: nat) { a < b + SECTOR_SIZE && b < a + SECTOR_SIZE }

  /** Two addresses share a byte of the file exactly when they name the same block number;
      among the sectors of a real track that means the same address. */
  lemma SlotsDisjoint(track: byte, sector: byte, track': byte, sector': byte)
    ensures Overlap(Offset(track, sector), Offset(track', sector')) <==> Block(track, sector) == Block(track', sector')
    ensures OnDisk(track, sector) && OnDisk(track', sector') && (track, sector) != (track', sector') ==>
              !Overlap(Offset(track, sector), Offset(track', sector'))
    ensures OnDisk(track, sector) ==> Offset(track, sector) + SECTOR_SIZE <= IMAGE_BYTES
  {
    assert Offset(track, sector) == SECTOR_SIZE * Block(track, sector);
    assert Offset(track', sector') == SECTOR_SIZE * Block(track', sector');
  }

  /** The first sector number past a track is the first sector of the next track. */
  lemma SectorPastTrackAliases(track: byte)
    requires track < 0xFF
    ensures Overlap(Offset(track, SECTORS), Offset(track + 1, 0))
  {
    SlotsDisjoint(track, SECTORS, track + 1, 0);
  }

  // What one command does to one block

  predicate Holds(d: Drive, off: nat, data: Sector) {
    d.image.Some? && |d.image.value| >= off + SECTOR_SIZE && d.image.value[off..off + SECTOR_SIZE] == data
  }

  function Address(e: Entry): nat
    requires Complete(e) && e.cmd != Fill
  {
    Offset(e.bytes[1], e.bytes[0])
  }

  predicate Touches(e: Entry, track: byte, sector: byte) {
    Complete(e) && e.cmd == Write && Block(e.bytes[1], e.bytes[0]) == Block(track, sector)
  }

  lemma WriteHolds(d: Drive, e: Entry)
    requires Complete(e) && e.cmd == Write && d.image.Some?
    ensures Holds(Apply(d, e), Address(e), d.buffer)
  {
    var off := Address(e);
    assert FileWrite(d.image.value, off, d.buffer)[off..off + SECTOR_SIZE] == d.buffer;
  }

  lemma OthersKeep(d: Drive, e: Entry, track: byte, sector: byte, data: Sector)
    requires Complete(e) && !Touches(e, track, sector) && Holds(d, Offset(track, sector), data)
    ensures Holds(Apply(d, e), Offset(track, sector), data)
  {
    if e.cmd == Write {
      SlotsDisjoint(e.bytes[1], e.bytes[0], track, sector);
      var off := Offset(track, sector);
      var file := FileWrite(d.image.value, Address(e), d.buffer);
      assert file[off..off + SECTOR_SIZE] == d.image.value[off..off + SECTOR_SIZE];
    }
  }

  lemma ReadFetches(d: Drive, e: Entry, data: Sector)
    requires Complete(e) && e.cmd == Read && Holds(d, Address(e), data)
    ensures Apply(d, e).buffer == data
  {
    var off := Address(e);
    forall k | 0 <= k < SECTOR_SIZE ensures Apply(d, e).buffer[k] == data[k] {
      assert data[k] == d.image.value[off..off + SECTOR_SIZE][k];
    }
  }

  lemma ReplayStep(d: Drive, log: seq<Entry>, k: nat)
    requires AllComplete(log) && k < |log|
    ensures Replay(d, log[..k + 1]) == Apply(Replay(d, log[..k]), log[k])
  {
    assert log[..k + 1][..k] == log[..k];
  }

  lemma {:induction false} StillHolds(d: Drive, log: seq<Entry>, i: nat, j: nat, track: byte, sector: byte)
    requires AllComplete(log) && i < j <= |log| && d.image.Some?
    requires log[i].cmd == Write && log[i].bytes == [sector, track]
    requires forall k :: i < k < j ==> !Touches(log[k], track, sector)
    ensures Holds(Replay(d, log[..j]), Offset(track, sector), Replay(d, log[..i]).buffer)
    decreases j
  {
    if j == i + 1 {
      ReplayStep(d, log, i);
      KeepsImage(d, log[..i]);
      WriteHolds(Replay(d, log[..i]), log[i]);
    } else {
      StillHolds(d, log, i, j - 1, track, sector);
      ReplayStep(d, log, j - 1);
      OthersKeep(Replay(d, log[..j - 1]), log[j - 1], track, sector, Replay(d, log[..i]).buffer);
    }
  }

  lemma {:induction false} KeepsImage(d: Drive, log: seq<Entry>)
    requires AllComplete(log) && d.image.Some?
    ensures Replay(d, log).image.Some?
    decreases |log|
  {
    if log != [] {
      KeepsImage(d, log[..|log| - 1]);
    }
  }

  /** A read returns the block last written under its block number, whatever the size of the
      file and whatever other commands lie between. */
  lemma ReadsLastWritten(d: Drive, log: seq<Entry>, i: nat, j: nat)
    requires AllComplete(log) && i < j < |log| && d.image.Some?
    requires log[i].cmd == Write && log[j].cmd == Read
    requires Block(log[i].bytes[1], log[i].bytes[0]) == Block(log[j].bytes[1], log[j].bytes[0])
    requires forall k :: i < k < j ==> !Touches(log[k], log[j].bytes[1], log[j].bytes[0])
    ensures Replay(d, log[..j + 1]).buffer == Replay(d, log[..i]).buffer
  {
    var sector, track := log[i].bytes[0], log[i].bytes[1];
    assert log[i].bytes == [sector, track];
    StillHolds(d, log, i, j, track, sector);
    ReplayStep(d, log, j);
    assert Address(log[j]) == Offset(track, sector);
    ReadFetches(Replay(d, log[..j]), log[j], Replay(d, log[..i]).buffer);
  }

  /** The same, observed on the controller itself: after any interleaving of its thread with
      the host, a command that read a block has left in the controller's buffer what the
      controller's buffer held when that block was last written. */
  lemma ControllerReadsLastWritten(s: Sys, es: seq<Event>, t: Sys, i: nat)
    requires Start(s) && IsRun(s, es, t) && t.host == Ready && s.v.d.image.Some?
    requires var j := |t.log| - 1; i < j && t.log[j].cmd == Read && t.log[i].cmd == Write
    requires AllComplete(t.log)
    requires var j := |t.log| - 1; Touches(t.log[i], t.log[j].bytes[1], t.log[j].bytes[0])
    requires var j := |t.log| - 1; forall k :: i < k < j ==> !Touches(t.log[k], t.log[j].bytes[1], t.log[j].bytes[0])
    ensures t.v.d.buffer == Replay(Held(s.v.d), t.log[..i]).buffer
  {
    RefinesAtomicDrive(s, es, t);
    var j := |t.log| - 1;
    ReadsLastWritten(Held(s.v.d), t.log, i, j);
    assert t.log[..j + 1] == t.log;
  }

  // A whole floppy as a map from addresses to blocks

  datatype Floppy = Floppy(buffer: Sector, blocks: map<(byte, byte), Sector>)

  predicate Whole(d: Drive) { d.image.Some? && |d.image.value| >= IMAGE_BYTES }

  function BlockAt(file: seq<byte>, track: byte, sector: byte): Sector
    requires |file| >= IMAGE_BYTES && OnDisk(track, sector)
  {
    file[Offset(track, sector)..Offset(track, sector) + SECTOR_SIZE]
  }

  ghost function Blocks(file: seq<byte>): map<(byte, byte), Sector>
    requires |file| >= IMAGE_BYTES
  {
    map track: byte, sector: byte | OnDisk(track, sector) :: (track, sector) := BlockAt(file, track, sector)
  }

  ghost function View(d: Drive): Floppy
    requires Whole(d)
  {
    Floppy(d.buffer, Blocks(d.image.value))
  }

  predicate Proper(e: Entry) { Complete(e) && (e.cmd != Fill ==> OnDisk(e.bytes[1], e.bytes[0])) }

  ghost predicate Full(f: Floppy) {
    forall track: byte, sector: byte :: (track, sector) in f.blocks <==> OnDisk(track, sector)
  }

  ghost function Command(f: Floppy, e: Entry): (g: Floppy)
    requires Proper(e) && Full(f)
    ensures Full(g)
  {
    match e.cmd
    case Fill => f.(buffer := e.bytes)
    case Write => f.(blocks := f.blocks[(e.bytes[1], e.bytes[0]) := f.buffer])
    case Read => f.(buffer := f.blocks[(e.bytes[1], e.bytes[0])])
  }

  ghost function Commanded(f: Floppy, log: seq<Entry>): (g: Floppy)
    requires Full(f) && forall k :: 0 <= k < |log| ==> Proper(log[k])
    ensures Full(g)
    decreases |log|
  {
    if log == [] then f else Command(Commanded(f, log[..|log| - 1]), log[|log| - 1])
  }

  lemma WriteRefines(d: Drive, e: Entry)
    requires Whole(d) && Proper(e) && e.cmd == Write
    ensures Whole(Apply(d, e)) && View(Apply(d, e)) == Command(View(d), e)
  {
    var file := Apply(d, e).image.value;
    WriteHolds(d, e);
    forall track: byte, sector: byte | OnDisk(track, sector)
      ensures BlockAt(file, track, sector) == Command(View(d), e).blocks[(track, sector)]
    {
      if (track, sector) != (e.bytes[1], e.bytes[0]) {
        SlotsDisjoint(e.bytes[1], e.bytes[0], track, sector);
        OthersKeep(d, e, track, sector, BlockAt(d.image.value, track, sector));
      }
    }
    assert View(Apply(d, e)).blocks == Command(View(d), e).blocks;
  }

  lemma CommandRefines(d: Drive, e: Entry)
    requires Whole(d) && Proper(e)
    ensures Whole(Apply(d, e)) && View(Apply(d, e)) == Command(View(d), e)
  {
    match e.cmd {
      case Fill =>
      case Write => WriteRefines(d, e);
      case Read =>
        SlotsDisjoint(e.bytes[1], e.bytes[0], 0, 0);
        ReadFetches(d, e, BlockAt(d.image.value, e.bytes[1], e.bytes[0]));
    }
  }

  /** The file refines the map: on a whole floppy any completed commands for its tracks and
      sectors act on the blocks as on the entries of a map. */
  lemma {:induction false} RefinesBlockMap(d: Drive, log: seq<Entry>)
    requires Whole(d) && forall k :: 0 <= k < |log| ==> Proper(log[k])
    ensures AllComplete(log) && Whole(Replay(d, log)) && View(Replay(d, log)) == Commanded(View(d), log)
    decreases |log|
  {
    assert AllComplete(log);
    if log != [] {
      RefinesBlockMap(d, log[..|log| - 1]);
      CommandRefines(Replay(d, log[..|log| - 1]), log[|log| - 1]);
    }
  }
}
