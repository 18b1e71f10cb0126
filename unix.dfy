/** The part of the BSD kqueue interface (as exposed by golang.org/x/sys/unix on
    darwin/amd64) that netpoll/kqueue.go uses: fixed-width integers, the kevent
    change/event record and the filter and flag constants. The module also holds
    the encoding of Go's `error | nil` (Option, Result, Error), which is not part
    of that package but is shared by every other module here. */
module Unix {

  newtype uint64 = x: int | 0 <= x < 0x1_0000_0000_0000_0000
  newtype int64 = x: int | -0x8000_0000_0000_0000 <= x < 0x8000_0000_0000_0000
  newtype int16 = x: int | -0x8000 <= x < 0x8000

  /** `nil` is None; an error value is Some. */
  datatype Option<T> = None | Some(value: T)

  /** Outcome of a system call that yields a value. */
  datatype Result<T> = Ok(value: T) | Err(error: Error)

  /** Go error values: an errno from a system call, or any other error (for
      instance one a callback returns), told apart by a tag. */
  datatype Error = Errno(code: nat) | Failure(tag: nat)

  const EINTR: Error := Errno(4)

  /** unix.Kevent_t without the Data and Udata fields, which the poller never sets or reads. */
  datatype Kevent = Kevent(ident: uint64, filter: int16, flags: bv16, fflags: bv32)

  const EVFILT_READ: int16 := -1
  const EVFILT_WRITE: int16 := -2
  const EVFILT_USER: int16 := -10

  const EV_ADD: bv16 := 0x0001
  const EV_DELETE: bv16 := 0x0002
  const EV_CLEAR: bv16 := 0x0020
  const EV_ERROR: bv16 := 0x4000
  const EV_EOF: bv16 := 0x8000

  const NOTE_TRIGGER: bv32 := 0x0100_0000

  /** Go's `int(ident)` on a 64-bit platform: the two's-complement reading of the bits. */
  function AsInt(ident: uint64): (fd: int64)
    ensures (fd == 0) == (ident == 0)
    ensures 0 <= fd as int ==> fd as int == ident as int
    ensures fd < 0 ==> fd as int + 0x1_0000_0000_0000_0000 == ident as int
  {
    if ident < 0x8000_0000_0000_0000 then ident as int64
    else (ident as int - 0x1_0000_0000_0000_0000) as int64
  }

  /** Go's `uint64(fd)`: a negative descriptor wraps around modulo 2^64. */
  function Ident(fd: int64): (ident: uint64)
    ensures AsInt(ident) == fd
    ensures (ident == 0) == (fd == 0)
  {
    if fd >= 0 then fd as int as uint64
    else (fd as int + 0x1_0000_0000_0000_0000) as uint64
  }

  /** The other round trip: every kernel identifier is the image of the descriptor it reads as. */
  lemma IdentOfAsInt(ident: uint64)
    ensures Ident(AsInt(ident)) == ident
  {
  }

  /** Distinct descriptors never share a kernel identifier. */
  lemma IdentInjective(a: int64, b: int64)
    requires Ident(a) == Ident(b)
    ensures a == b
  {
    assert AsInt(Ident(a)) == a && AsInt(Ident(b)) == b;
  }
}
