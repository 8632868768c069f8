/**
 * The OSMP (OSI Sensor Model Packaging) pointer handoff: a native address is
 * passed through two `fmi2Integer` slots, `base.hi` and `base.lo`.
 *
 * On a 64-bit build the address goes through a union with a little-endian
 * `{ int lo; int hi; }` struct, so `lo` holds bits 0-31 and `hi` bits 32-63,
 * each reinterpreted as a signed 32-bit value. On a 32-bit build `hi` is 0
 * and `lo` is the address cast to `int`.
 */
module PointerCodec {
  import opened Fmi

  const TwoTo32: nat := 0x1_0000_0000

  /** The build's pointer width (`PTRDIFF_MAX == INT64_MAX` or `== INT32_MAX`). */
  datatype AddressWidth = Bits32 | Bits64

  /** A native address, at most 64 bits wide. */
  type Address = a: nat | a < 0x1_0000_0000_0000_0000

  function AddressBound(w: AddressWidth): nat {
    match w
    case Bits32 => TwoTo32
    case Bits64 => TwoTo32 * TwoTo32
  }

  /** The two integer slots that carry an address. */
  datatype Slots = Slots(hi: Int32, lo: Int32)

  /** Reading 32 unsigned bits through a signed `int` (two's complement). */
  function ToSigned32(u: nat): (s: Int32)
    requires u < TwoTo32
    ensures ToUnsigned32(s) == u
  {
    if u < 0x8000_0000 then u else u - TwoTo32
  }

  /** Reading the bits of a signed `int` as an unsigned 32-bit word. */
  function ToUnsigned32(s: Int32): (u: nat)
    ensures u < TwoTo32
    ensures (u - s) % TwoTo32 == 0
  {
    if s < 0 then s + TwoTo32 else s
  }

  /** `EncodePointerToInteger`: an address into its `hi`/`lo` slots. */
  function Encode(w: AddressWidth, a: Address): (r: Slots)
    requires a < AddressBound(w)
    ensures Decode(w, r.hi, r.lo) == a
    ensures ToUnsigned32(r.lo) == a % TwoTo32
    ensures w == Bits64 ==> ToUnsigned32(r.hi) == a / TwoTo32
    ensures w == Bits32 ==> r.hi == 0 && ToUnsigned32(r.lo) == a
  {
    match w
    case Bits64 => Slots(ToSigned32(a / TwoTo32), ToSigned32(a % TwoTo32))
    case Bits32 => Slots(0, ToSigned32(a))
  }

  /** `DecodeIntegerToPointer`: the address named by the `hi`/`lo` slots. */
  function Decode(w: AddressWidth, hi: Int32, lo: Int32): (a: Address)
    ensures a < AddressBound(w)
    ensures a % TwoTo32 == ToUnsigned32(lo)
    ensures w == Bits64 ==> a / TwoTo32 == ToUnsigned32(hi)
  {
    match w
    case Bits64 => ToUnsigned32(hi) * TwoTo32 + ToUnsigned32(lo)
    case Bits32 => ToUnsigned32(lo)
  }

  /** On a 64-bit build decoding loses nothing: the slots are recovered exactly. */
  lemma EncodeDecode64(hi: Int32, lo: Int32)
    ensures Encode(Bits64, Decode(Bits64, hi, lo)) == Slots(hi, lo)
  {
    var a := Decode(Bits64, hi, lo);
    var r := Encode(Bits64, a);
    assert ToUnsigned32(r.hi) == ToUnsigned32(hi);
    assert ToUnsigned32(r.lo) == ToUnsigned32(lo);
  }

  /** On a 32-bit build the `hi` slot is ignored by decoding and comes back as 0. */
  lemma EncodeDecode32(hi: Int32, lo: Int32)
    ensures Decode(Bits32, hi, lo) == Decode(Bits32, 0, lo)
    ensures Encode(Bits32, Decode(Bits32, hi, lo)) == Slots(0, lo)
  {
    var r := Encode(Bits32, Decode(Bits32, hi, lo));
    assert ToUnsigned32(r.lo) == ToUnsigned32(lo);
  }

  /** The null address, meaning "no buffer", is carried as two zero slots. */
  lemma NullAddress(w: AddressWidth)
    ensures Encode(w, 0) == Slots(0, 0)
    ensures Decode(w, 0, 0) == 0
  {
  }
}
