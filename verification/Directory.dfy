/** The log directory and the operating-system calls the write-ahead log makes on it. */
module Directory {
  import opened Basics
  import opened WalSpec

  class Dir {
    /** The log and the checkpoint. */
    var disk: Disk
    /** `wal.log.compact` and `wal.ckpt.tmp`, which are written and renamed but never read. */
    var logTmp: Option<seq<byte>>
    var ckptTmp: Option<string>
    /** Every state of the disk that a crash of the process could have left behind so far. */
    ghost var exposed: seq<Disk>

    constructor (disk: Disk)
      ensures this.disk == disk && logTmp == None && ckptTmp == None && exposed == [disk]
    {
      this.disk := disk;
      logTmp, ckptTmp := None, None;
      exposed := [disk];
    }

    /** Opens the log for appending, creating it if needed. */
    method OpenLog()
      modifies this`disk, this`exposed
      ensures disk == Extend(old(disk), []) && exposed == old(exposed) + [disk]
    {
      disk := Extend(disk, []);
      exposed := exposed + [disk];
    }

    /** Appends to the log; a crash on the way leaves any prefix of `bytes`. */
    method AppendLog(bytes: seq<byte>)
      modifies this`disk, this`exposed
      ensures disk == Extend(old(disk), bytes) && exposed == old(exposed) + Growing(old(disk), bytes)
    {
      exposed := exposed + Growing(disk, bytes);
      disk := Extend(disk, bytes);
    }

    method PutLogTmp(copy: Option<seq<byte>>)
      modifies this`logTmp, this`exposed
      ensures logTmp == copy && exposed == old(exposed) + [disk]
    {
      logTmp := copy;
      exposed := exposed + [disk];
    }

    method RenameLogTmp()
      requires logTmp.Some?
      modifies this`disk, this`logTmp, this`exposed
      ensures disk == old(disk).(log := old(logTmp)) && logTmp == None && exposed == old(exposed) + [disk]
    {
      disk, logTmp := disk.(log := logTmp), None;
      exposed := exposed + [disk];
    }

    method PutCkptTmp(text: string)
      modifies this`ckptTmp, this`exposed
      ensures ckptTmp == Some(text) && exposed == old(exposed) + [disk]
    {
      ckptTmp := Some(text);
      exposed := exposed + [disk];
    }

    method RenameCkptTmp()
      requires ckptTmp.Some?
      modifies this`disk, this`ckptTmp, this`exposed
      ensures disk == old(disk).(ckpt := old(ckptTmp)) && ckptTmp == None && exposed == old(exposed) + [disk]
    {
      disk, ckptTmp := disk.(ckpt := ckptTmp), None;
      exposed := exposed + [disk];
    }
  }
}
