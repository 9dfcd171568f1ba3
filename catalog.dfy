/** Constant catalogs: the packed `ConstantString_*` ids and the shared
    character tables (`ThunkWriterCharArrays`) they index into.

    A variable-length catalog id is a 16-bit value whose high byte is the
    offset of the entry in its backing table and whose low byte is the
    entry's length. Escape and day-of-week ids are a single byte: an index
    into a one-character-per-entry table, or the offset of a three-character
    day abbreviation. */
module Catalog {

  /** `(ushort)x`: keeps the low 16 bits of an integer. Dafny's `%` is
      Euclidean, so this agrees with two's-complement truncation for
      negative inputs as well. */
  function UShort(x: int): (u: nat)
    ensures u < 0x1_0000
    ensures (x - u) % 0x1_0000 == 0
    ensures 0 <= x < 0x1_0000 ==> u == x
  {
    x % 0x1_0000
  }

  /** `(byte)x`: keeps the low 8 bits of an integer. */
  function Byte(x: int): (b: nat)
    ensures b < 0x100
    ensures (x - b) % 0x100 == 0
    ensures 0 <= x < 0x100 ==> b == x
  {
    x % 0x100
  }

  /** Where an entry lives in its backing table. */
  datatype Slot = Slot(offset: nat, length: nat)

  /** Decodes a packed id: `offset = u >> 8`, `length = u & 0xFF`. On a
      non-negative 16-bit value, a right shift by 8 is division by 256 and a
      mask with 0xFF is the remainder modulo 256. */
  function Unpack(u: nat): (s: Slot)
    requires u < 0x1_0000
    ensures s.offset < 0x100 && s.length < 0x100
    ensures s.offset * 0x100 + s.length == u
  {
    Slot(u / 0x100, u % 0x100)
  }

  /** How a catalog declares an entry: `(offset << 8) | length`. */
  function Pack(s: Slot): (u: nat)
    requires s.offset < 0x100 && s.length < 0x100
    ensures u < 0x1_0000
    ensures Unpack(u) == s
  {
    s.offset * 0x100 + s.length
  }

  /** The other half of the round trip: every 16-bit id is the packing of
      the slot it decodes to. */
  lemma PackUnpack(u: nat)
    requires u < 0x1_0000
    ensures Pack(Unpack(u)) == u
  {
  }

  /** The slot that the id `str` selects, after the `(ushort)` cast. */
  function SlotOf(str: int): Slot
  {
    Unpack(UShort(str))
  }

  /** `backing.AsSpan().Slice(ix, len)` does not throw. */
  predicate Resolves(backing: seq<char>, str: int)
  {
    SlotOf(str).offset + SlotOf(str).length <= |backing|
  }

  /** The characters a variable-length catalog id stands for. */
  function Entry(backing: seq<char>, str: int): (r: seq<char>)
    requires Resolves(backing, str)
    ensures |r| == SlotOf(str).length && |r| < 0x100
    ensures forall i :: 0 <= i < |r| ==> r[i] == backing[SlotOf(str).offset + i]
  {
    backing[SlotOf(str).offset .. SlotOf(str).offset + SlotOf(str).length]
  }

  /** Catalog fidelity: an entry declared as `Pack(Slot(offset, length))`
      writes exactly the characters it was declared over. */
  lemma EntryOfDeclared(backing: seq<char>, offset: nat, length: nat)
    requires offset < 0x100 && length < 0x100
    requires offset + length <= |backing|
    ensures Resolves(backing, Pack(Slot(offset, length)))
    ensures Entry(backing, Pack(Slot(offset, length))) == backing[offset .. offset + length]
  {
  }

  /** Every day abbreviation is three characters long. */
  const DayLength := 3

  /** `DaysOfWeek.AsSpan().Slice(ix, 3)` does not throw. */
  predicate DayResolves(days: seq<char>, str: int)
  {
    Byte(str) + DayLength <= |days|
  }

  function Day(days: seq<char>, str: int): (r: seq<char>)
    requires DayResolves(days, str)
    ensures |r| == DayLength
    ensures forall i :: 0 <= i < DayLength ==> r[i] == days[Byte(str) + i]
  {
    days[Byte(str) .. Byte(str) + DayLength]
  }

  /** Catalog fidelity for days: the id of the abbreviation declared at
      offset `offset` resolves and writes exactly the three characters
      there. */
  lemma DayOfDeclared(days: seq<char>, offset: nat)
    requires offset < 0x100 && offset + DayLength <= |days|
    ensures DayResolves(days, offset)
    ensures Day(days, offset) == days[offset .. offset + DayLength]
  {
  }

  /** `chars[ix]` does not throw. */
  predicate EscapeResolves(chars: seq<char>, str: int)
  {
    Byte(str) < |chars|
  }

  /** The text of an escape entry: the shared prefix, then the entry's one
      payload character. */
  function Escape(prefix: seq<char>, chars: seq<char>, str: int): (r: seq<char>)
    requires EscapeResolves(chars, str)
    ensures |r| == |prefix| + 1
    ensures r[..|prefix|] == prefix && r[|prefix|] == chars[Byte(str)]
  {
    prefix + [chars[Byte(str)]]
  }

  /** Catalog fidelity for escapes: the id of the payload character declared
      at index `index` resolves and writes the shared prefix followed by
      exactly that character. */
  lemma EscapeOfDeclared(prefix: seq<char>, chars: seq<char>, index: nat)
    requires index < 0x100 && index < |chars|
    ensures EscapeResolves(chars, index)
    ensures Escape(prefix, chars, index) == prefix + [chars[index]]
  {
  }

  /** The static tables of `ThunkWriterCharArrays`. Their contents are not
      part of this model; every write states its result in terms of them. */
  datatype Tables = Tables(
    common: seq<char>,
    formatting: seq<char>,
    min: seq<char>,
    value: seq<char>,
    escape000Prefix: seq<char>,
    escape000Chars: seq<char>,
    escape001Prefix: seq<char>,
    escape001Chars: seq<char>,
    daysOfWeek: seq<char>)
}
