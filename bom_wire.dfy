/** Wire-level vocabulary of the BOM binary format: byte-sized integers,
    little-endian assembly, attribute-flag tests and the all-or-nothing
    result type every decoding step returns. */
module BomWire {

  type uint8 = x: int | 0 <= x < 0x100
  type uint16 = x: int | 0 <= x < 0x1_0000
  type uint32 = x: int | 0 <= x < 0x1_0000_0000

  /** The input buffer, and every string of the format (read byte for byte). */
  type Bytes = seq<uint8>

  /** An IEEE-754 single, kept as its 32-bit pattern; no float arithmetic is modelled. */
  type F32 = uint32

  /** A 16-bit value stored low byte first. */
  function Le16(b0: uint8, b1: uint8): (r: uint16) {
    b0 + 0x100 * b1
  }

  /** A 32-bit value stored low byte first. */
  function Le32(b0: uint8, b1: uint8, b2: uint8, b3: uint8): (r: uint32) {
    b0 + 0x100 * (b1 + 0x100 * (b2 + 0x100 * b3))
  }

  /** `flags & mask` is non-zero, for a one-bit mask `1 << k`; a zero mask is never set. */
  predicate Has(flags: nat, mask: nat) {
    mask > 0 && (flags / mask) % 2 == 1
  }

  /** The two ways a decode aborts: a DataView or typed-array read past the end
      of the buffer (a RangeError), or a group naming a material that the
      library does not hold (a TypeError from `undefined.clone()`). */
  datatype DecodeError = Truncated | NoSuchMaterial

  datatype Option<+T> = None | Some(value: T) {
    function GetOr(default: T): T {
      match this
      case Some(v) => v
      case None => default
    }
  }

  datatype Result<+T> = Ok(value: T) | Err(error: DecodeError) {
    predicate IsFailure() {
      Err?
    }

    function PropagateFailure<U>(): Result<U>
      requires Err?
    {
      Err(error)
    }

    function Extract(): T
      requires Ok?
    {
      value
    }
  }

  /** A decoded value together with the offset just past its bytes. */
  datatype Parsed<+T> = Parsed(value: T, next: nat)

  /** The outcome of decoding one field or record that starts at a given offset. */
  type Res<T> = Result<Parsed<T>>

  /** A successful decode that starts inside the buffer ends inside it and never moves backwards. */
  ghost predicate Within<T>(d: Bytes, p: nat, r: Res<T>) {
    p <= |d| && r.Ok? ==> p <= r.value.next <= |d|
  }

  /** An imperative reader's result `r`, with its cursor left at `pos`, is the
      one the decoding function `s` describes. */
  ghost predicate Agrees<T>(r: Result<T>, pos: nat, s: Res<T>) {
    match s
    case Ok(parsed) => r == Ok(parsed.value) && pos == parsed.next
    case Err(e) => r == Err(e)
  }
}
