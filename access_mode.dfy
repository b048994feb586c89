/** `AccessMode` (virtual_file.go:19-43): how a file is accessed, and the
    open flag each mode stands for. */
module AccessModes {
  import opened Bits
  import opened OsFlags

  /** Go declares `type AccessMode int`, so any integer is an access mode;
      only the four constants below are named. */
  newtype AccessMode = int

  const ModeNone: AccessMode := 0
  const ModeRdOnly: AccessMode := 1
  const ModeWrOnly: AccessMode := 2
  const ModeRdWr: AccessMode := 3

  /** The package's `accessmode_to_openflag` table. */
  const OpenFlagTable: map<AccessMode, int> :=
    map[ModeRdOnly := O_RDONLY, ModeWrOnly := O_WRONLY, ModeRdWr := O_RDWR]

  /** `to_openflag`: the table entry, or 0 for a mode not in the table.
      It never fails, and what it returns is always one of the three
      access flags, so OR-ing it into other flags adds at most one
      access bit. */
  function ToOpenFlag(mode: AccessMode): (flag: int)
    ensures mode == ModeRdOnly ==> flag == O_RDONLY
    ensures mode == ModeWrOnly ==> flag == O_WRONLY
    ensures mode == ModeRdWr ==> flag == O_RDWR
    ensures mode != ModeRdOnly && mode != ModeWrOnly && mode != ModeRdWr ==> flag == 0
    ensures flag == O_RDONLY || flag == O_WRONLY || flag == O_RDWR
  {
    if mode in OpenFlagTable then OpenFlagTable[mode] else 0
  }

  /** Of the bits of `ToOpenFlag(mode)`, only the write-only bit and the
      read-write bit can be set, each exactly for its own mode. */
  lemma {:induction false} OpenFlagBits(mode: AccessMode, i: nat)
    ensures Bit(ToOpenFlag(mode), i) <==>
      (mode == ModeWrOnly && i == WriteOnlyBit) || (mode == ModeRdWr && i == ReadWriteBit)
  {
    FlagBits(i);
  }
}
