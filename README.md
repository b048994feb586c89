# Access modes of diskv's virtual file

diskv's `DbFile` is the file abstraction its storage engine programs against;
`tDbFile` is the implementation on the OS filesystem. Almost all of
`tDbFile` hands its work to `*os.File` or to platform helpers. This model
covers the part with logic of its own, the access-mode layer:

- `AccessMode` (`ModeNone`, `ModeRdOnly`, `ModeWrOnly`, `ModeRdWr` = 0..3) and
  `to_openflag`, the lookup in the `accessmode_to_openflag` table that falls
  back to 0 (module `AccessModes`);
- the factory `OpenDbFile`, which derives the handle's mode from the caller's
  flags, opens the file with `flag | O_CREATE` and builds the handle, and the
  handle's `Mode` and `Open` members (module `VirtualFile`);
- Go's `|` and `&` on `int` (module `Bits`) and the values `os.O_RDONLY` = 0,
  `os.O_WRONLY` = 1, `os.O_RDWR` = 2 and `os.O_CREATE` = 0x40 that these
  constants have on Linux for x86, ARM, ppc64 and s390x (module `OsFlags`).

Flags are integers with two's-complement bit semantics. `Or` and `And` are
defined by recursion on halving and characterised bit by bit (`OrBit`,
`AndBit`), and `BitsDetermine` shows that the bits fix the number.

`os.OpenFile` is a parameter of type `OsOpenFile`. It is a total function
from (name, flags, permission bits) to `Opened(descriptor)` or
`Failed(error)`. The `*os.File` it yields is named by the path it was
given, as Go's `os` package does. So the model covers both the success path
and the failure path of the factory. Each lemma is about a single call and
holds whatever that call's outcome is.

The handle is a datatype: no field of `tDbFile` is assigned after the
factory builds it, so `Mode()` returns the mode that was derived at open
time for the handle's whole life.

The derivation is modelled as the code has it. The first case,
`(flag & os.O_RDONLY) != 0`, never holds because `os.O_RDONLY` is 0
(`AccessTests`). The result is `ModeWrOnly` exactly when the write-only
bit is set, and `ModeRdOnly` otherwise (`DeriveModeFollowsWriteBit`).
That includes flags with `O_RDWR` set, so `ModeRdWr` is never derived
(`DeriveModeIgnoresReadWriteBit`), not even when reopening with
`ModeRdWr` (`ReopenedMode`). The first case reads as if a set read-only
bit should select read-only; in the code that test is dead, and the model
follows the code.

## Model

| member | source | states |
|---|---|---|
| AccessModes.ToOpenFlag | virtual_file.go:10-43 | total over every `AccessMode`; `ModeRdOnly`, `ModeWrOnly`, `ModeRdWr` map to `O_RDONLY`, `O_WRONLY`, `O_RDWR`; any other mode maps to 0; the result is always one of the three access flags |
| AccessModes.OpenFlagBits | virtual_file.go:12-16 | the only bits a mode's open flag can carry are the write-only bit (for `ModeWrOnly` alone) and the read-write bit (for `ModeRdWr` alone) |
| OsFlags.FlagBits | virtual_file.go:13-15 | `O_RDONLY` has no bit set; `O_WRONLY`, `O_RDWR` and `O_CREATE` each have exactly one bit set (bits 0, 1 and 6) |
| Bits.OrBit | virtual_file.go:116 | Go's `a \| b` sets exactly the bits set in `a` or in `b` |
| Bits.AndBit | virtual_file.go:108-111 | Go's `a & b` sets exactly the bits set in both `a` and `b` |
| Bits.BitsDetermine | virtual_file.go:108-116 | two integers with the same bits are equal, so the bit-wise lemmas fix the values of `\|` and `&` |
| VirtualFile.DeriveMode | virtual_file.go:105-113 | the derived mode is always `ModeRdOnly` or `ModeWrOnly` |
| VirtualFile.AccessTests | virtual_file.go:108-111 | `flag & O_RDONLY` is 0 for every flag, so the first case is never taken; `flag & O_WRONLY` is non-zero exactly when the write-only bit is set |
| VirtualFile.DeriveModeFollowsWriteBit | virtual_file.go:105-113 | the derived mode is `ModeWrOnly` if and only if the write-only bit is set, `ModeRdOnly` if and only if it is not, and never `ModeRdWr` or `ModeNone` |
| VirtualFile.DeriveModeIgnoresReadWriteBit | virtual_file.go:105-113 | adding `O_RDWR` to the flags does not change the derived mode |
| VirtualFile.DeriveModeOfOpenFlag | virtual_file.go:36-43 | deriving a mode from `ToOpenFlag(m)` gives back `m` for `ModeRdOnly` and `ModeWrOnly`, but gives `ModeRdOnly` for `ModeRdWr` and `ModeNone` |
| VirtualFile.CreateFlagKeepsCallerBits | virtual_file.go:116 | the flags passed to the OS have exactly the caller's bits plus the create bit; they equal the caller's flags exactly when those already hold the create bit |
| VirtualFile.OpenDbFile | virtual_file.go:104-129 | the OS is asked to open `path` with `flag \| O_CREATE` and `perm`; if it fails, that same error is returned and no handle; if it succeeds, the handle holds the opened file under `path`, the derived mode and `perm` |
| VirtualFile.DbFile.Mode | virtual_file.go:88 | returns the access mode stored when the handle was built; no operation of the handle assigns it afterwards |
| VirtualFile.OpenedMode | virtual_file.go:106-126 | a handle returned by the factory has `Mode()` `ModeWrOnly` when the caller's write-only bit is set and `ModeRdOnly` otherwise |
| VirtualFile.DbFile.Open | virtual_file.go:98-101 | reopening asks the OS for the handle's own name with `ToOpenFlag(mode) \| flag \| O_CREATE` and permission 0; it fails exactly when that call fails, with its error; on success the new handle holds the file that call opened, under the same name, with permission 0 and the mode derived from `ToOpenFlag(mode) \| flag` |
| VirtualFile.ReopenedMode | virtual_file.go:98-113 | a reopened handle is `ModeWrOnly` when `ModeWrOnly` is requested or `flag` has the write-only bit, and `ModeRdOnly` otherwise; reopening with `ModeRdWr` gives `ModeRdOnly` unless `flag` has the write-only bit |

## Left out

- `Close`, `Read`, `Write`, `Name`, `Stat` and `Truncate` (virtual_file.go:82-84, 89-90, 92): they only pass the call to `*os.File`. `DbFile.Name` stands for `self.file.Name()` as `Open` uses it at virtual_file.go:100: the name the file was opened under.
- `ReadAt`, `WriteAt` and `Seek` (virtual_file.go:85-87): each calls itself on the same receiver without end, so they never return. They have no result to model.
- `Sync`, `Lock`, `Unlock`, `Map` and `UnMap` (virtual_file.go:91, 93-96): they pass the call to the platform helpers `fsync`, `flock`, `funlock`, `mmap` and `munmap`. Those helpers are not part of this model, and they involve raw pointers, timeouts and cross-process locking.
- The `lockfile` field (virtual_file.go:77): nothing in the code sets it. It is meant for Windows only.
- The `DbFile` interface as a type (virtual_file.go:50-72): it is a list of methods. Its implementation by `tDbFile` is modelled through `Mode` and `Open`.
- What `os.OpenFile` does inside: it is the supplied `OsOpenFile` function. Its error is an opaque message.
- The 64-bit width of Go's `int`: flags and modes are unbounded integers. `|` and `&` of two in-range values stay in range, so no wrap-around happens in this code.
- Flag values outside Linux on x86, ARM, ppc64 and s390x: the model fixes the `os.O_*` values of those architectures. Linux on mips (`O_CREATE` = 0x100), on sparc64 (`O_CREATE` = 0x200) and other systems use other values. No proof depends on which single bit `O_CREATE` is.
- File-system state across calls: `OsOpenFile` is a function, so two calls with the same name, flags and permission get the same outcome. The real `os.OpenFile` with `O_CREATE` changes the file system, and a later call may behave differently. No lemma relates two calls.
