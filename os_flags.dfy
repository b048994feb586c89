/** The open flags of Go's `os` package as they are on Linux for x86, ARM,
    ppc64 and s390x (mips and sparc64 put `O_CREATE` elsewhere). Only the bits
    that the access-mode layer tests or adds are named here. */
module OsFlags {
  import opened Bits

  /** `os.O_RDONLY`: zero, so it is the absence of both access bits. */
  const O_RDONLY: int := 0
  /** `os.O_WRONLY`: bit 0. */
  const O_WRONLY: int := 1
  /** `os.O_RDWR`: bit 1. */
  const O_RDWR: int := 2
  /** `os.O_CREATE` (`O_CREAT`, octal 0100): bit 6. */
  const O_CREATE: int := 0x40

  const WriteOnlyBit: nat := 0
  const ReadWriteBit: nat := 1
  const CreateBit: nat := 6

  /** Each non-zero flag is a single bit, and `O_RDONLY` has no bit at all. */
  lemma FlagBits(i: nat)
    ensures !Bit(O_RDONLY, i)
    ensures Bit(O_WRONLY, i) <==> i == WriteOnlyBit
    ensures Bit(O_RDWR, i) <==> i == ReadWriteBit
    ensures Bit(O_CREATE, i) <==> i == CreateBit
  {
    NoBitOfZero(i);
    assert O_WRONLY == Pow2(0);
    PowerOfTwoBit(0, i);
    assert O_RDWR == Pow2(1);
    PowerOfTwoBit(1, i);
    assert O_CREATE == Pow2(6);
    PowerOfTwoBit(6, i);
  }
}
