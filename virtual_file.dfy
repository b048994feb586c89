/** The OS-backed `DbFile` (virtual_file.go:74-129): the factory `OpenDbFile`,
    which derives an access mode from the caller's open flags, and the
    `Mode` and `Open` members of the handle it builds. The call into
    `os.OpenFile` is a parameter: a total function from (name, flags,
    permission bits) to either a descriptor or an error. */
module VirtualFile {
  import opened Bits
  import opened OsFlags
  import opened AccessModes

  /** Go's `os.FileMode`, a `uint32`. */
  newtype FileMode = x: int | 0 <= x < 0x1_0000_0000

  /** The error `os.OpenFile` reports; its content is the OS's business. */
  datatype OsError = OsError(message: string)

  /** What `os.OpenFile` does with a request: open a descriptor or fail. */
  datatype OsOutcome = Opened(descriptor: nat) | Failed(err: OsError)

  type OsOpenFile = (string, int, FileMode) -> OsOutcome

  /** An `*os.File`: `os.OpenFile` names the file by the path it was given. */
  datatype OsFile = OsFile(name: string, descriptor: nat)

  /** Go's `(DbFile, error)` pair: a handle and a nil error, or a nil handle
      and an error. */
  datatype Result<T> = Ok(value: T) | Err(error: OsError)

  /** `tDbFile`. The access mode and permission bits are fixed when the
      handle is built and no operation changes them. */
  datatype DbFile = DbFile(file: OsFile, accessMode: AccessMode, perm: FileMode)
  {
    /** `Mode`: the mode recorded when the handle was built. */
    function Mode(): (m: AccessMode)
      ensures m == accessMode
    {
      accessMode
    }

    /** `Name`: `self.file.Name()`, the name the file was opened under. */
    function Name(): (name: string)
    {
      file.name
    }

    /** `Open`: reopens the same name through the factory, with the open flag
        of `mode` added to `flag` and permission bits 0. */
    function Open(osOpen: OsOpenFile, mode: AccessMode, flag: int): (r: Result<DbFile>)
      ensures r.Err? <==> osOpen(Name(), Or(Or(ToOpenFlag(mode), flag), O_CREATE), 0).Failed?
      ensures r.Err? ==> r.error == osOpen(Name(), Or(Or(ToOpenFlag(mode), flag), O_CREATE), 0).err
      ensures r.Ok? ==> r.value.file == OsFile(Name(), osOpen(Name(), Or(Or(ToOpenFlag(mode), flag), O_CREATE), 0).descriptor)
      ensures r.Ok? ==> r.value.Name() == Name() && r.value.perm == 0
      ensures r.Ok? ==> r.value.Mode() == DeriveMode(Or(ToOpenFlag(mode), flag))
    {
      OpenDbFile(osOpen, Name(), Or(ToOpenFlag(mode), flag), 0)
    }
  }

  /** The access mode the factory derives from the caller's flags. The first
      test is Go's `(flag & os.O_RDONLY) != 0`; since `os.O_RDONLY` is 0 it
      never holds. */
  function DeriveMode(flag: int): (mode: AccessMode)
    ensures mode == ModeRdOnly || mode == ModeWrOnly
  {
    if And(flag, O_RDONLY) != 0 then ModeRdOnly
    else if And(flag, O_WRONLY) != 0 then ModeWrOnly
    else ModeRdOnly
  }

  /** `OpenDbFile`: asks the OS to open `path` with `flag | O_CREATE` and
      `perm`. A failure comes back unchanged with no handle; a success gives
      a handle on the opened file, named by `path`, holding the derived
      mode and `perm`. */
  function OpenDbFile(osOpen: OsOpenFile, path: string, flag: int, perm: FileMode): (r: Result<DbFile>)
    ensures r.Err? <==> osOpen(path, Or(flag, O_CREATE), perm).Failed?
    ensures r.Err? ==> r.error == osOpen(path, Or(flag, O_CREATE), perm).err
    ensures r.Ok? ==> r.value.file == OsFile(path, osOpen(path, Or(flag, O_CREATE), perm).descriptor)
    ensures r.Ok? ==> r.value.Mode() == DeriveMode(flag) && r.value.perm == perm
  {
    var mode := DeriveMode(flag);
    match osOpen(path, Or(flag, O_CREATE), perm)
    case Failed(err) => Err(err)
    case Opened(fd) => Ok(DbFile(OsFile(path, fd), mode, perm))
  }

  /** Go's `flag & os.O_WRONLY` is non-zero exactly when the write-only bit
      is set, and `flag & os.O_RDONLY` is always zero. */
  lemma AccessTests(flag: int)
    ensures And(flag, O_RDONLY) == 0
    ensures And(flag, O_WRONLY) != 0 <==> Bit(flag, WriteOnlyBit)
  {
  }

  /** The derived mode is `ModeWrOnly` exactly when the write-only bit is
      set and `ModeRdOnly` otherwise; no flags give `ModeRdWr`. */
  lemma DeriveModeFollowsWriteBit(flag: int)
    ensures DeriveMode(flag) == ModeWrOnly <==> Bit(flag, WriteOnlyBit)
    ensures DeriveMode(flag) == ModeRdOnly <==> !Bit(flag, WriteOnlyBit)
    ensures DeriveMode(flag) != ModeRdWr && DeriveMode(flag) != ModeNone
  {
    AccessTests(flag);
  }

  /** Setting the read-write bit does not change the derived mode. */
  lemma DeriveModeIgnoresReadWriteBit(flag: int)
    ensures DeriveMode(Or(flag, O_RDWR)) == DeriveMode(flag)
  {
    DeriveModeFollowsWriteBit(flag);
    DeriveModeFollowsWriteBit(Or(flag, O_RDWR));
    OrBit(flag, O_RDWR, WriteOnlyBit);
    FlagBits(WriteOnlyBit);
  }

  /** Deriving a mode from a mode's own open flag gives that mode back for
      `ModeRdOnly` and `ModeWrOnly`, but `ModeRdWr` (and `ModeNone`) come
      back as `ModeRdOnly`. */
  lemma DeriveModeOfOpenFlag(mode: AccessMode)
    ensures DeriveMode(ToOpenFlag(mode)) == (if mode == ModeWrOnly then ModeWrOnly else ModeRdOnly)
    ensures mode == ModeRdOnly || mode == ModeWrOnly ==> DeriveMode(ToOpenFlag(mode)) == mode
  {
  }

  /** The flags handed to the OS are the caller's bits and the create bit,
      nothing more and nothing less. */
  lemma CreateFlagKeepsCallerBits(flag: int)
    ensures forall i: nat :: Bit(Or(flag, O_CREATE), i) <==> Bit(flag, i) || i == CreateBit
    ensures Or(flag, O_CREATE) == flag <==> Bit(flag, CreateBit)
  {
    forall i: nat
      ensures Bit(Or(flag, O_CREATE), i) <==> Bit(flag, i) || i == CreateBit
    {
      OrBit(flag, O_CREATE, i);
      FlagBits(i);
    }
    if Bit(flag, CreateBit) {
      BitsDetermine(Or(flag, O_CREATE), flag);
    }
  }

  /** A handle the factory returns has mode `ModeWrOnly` when the caller's
      write-only bit is set and `ModeRdOnly` otherwise. */
  lemma OpenedMode(osOpen: OsOpenFile, path: string, flag: int, perm: FileMode)
    ensures OpenDbFile(osOpen, path, flag, perm).Ok? ==>
      OpenDbFile(osOpen, path, flag, perm).value.Mode() ==
        (if Bit(flag, WriteOnlyBit) then ModeWrOnly else ModeRdOnly)
  {
    DeriveModeFollowsWriteBit(flag);
  }

  /** The mode of a reopened handle: write-only when asked for `ModeWrOnly`
      or when `flag` has the write-only bit, read-only otherwise; so asking
      for `ModeRdWr` never gives a read-write handle. */
  lemma ReopenedMode(f: DbFile, osOpen: OsOpenFile, mode: AccessMode, flag: int)
    ensures f.Open(osOpen, mode, flag).Ok? ==>
      f.Open(osOpen, mode, flag).value.Mode() ==
        (if mode == ModeWrOnly || Bit(flag, WriteOnlyBit) then ModeWrOnly else ModeRdOnly)
    ensures mode == ModeWrOnly && f.Open(osOpen, mode, flag).Ok? ==>
      f.Open(osOpen, mode, flag).value.Mode() == ModeWrOnly
    ensures mode == ModeRdWr && f.Open(osOpen, mode, flag).Ok? ==>
      f.Open(osOpen, mode, flag).value.Mode() == (if Bit(flag, WriteOnlyBit) then ModeWrOnly else ModeRdOnly)
  {
    var combined := Or(ToOpenFlag(mode), flag);
    DeriveModeFollowsWriteBit(combined);
    OrBit(ToOpenFlag(mode), flag, WriteOnlyBit);
    OpenFlagBits(mode, WriteOnlyBit);
  }
}
