/**
 * The generic NBT value tree that the binary NBT parser hands to the decoder.
 * Only its shape is modelled here; the binary parser itself is a parameter of
 * `Decode.FromBytes`.
 */
module Nbt {
  import opened Wrappers

  /** Rust's fixed-width integers, as ranges of the unbounded `int`. */
  type i8 = x: int | -0x80 <= x < 0x80
  type i16 = x: int | -0x8000 <= x < 0x8000
  type i32 = x: int | -0x8000_0000 <= x < 0x8000_0000
  type i64 = x: int | -0x8000_0000_0000_0000 <= x < 0x8000_0000_0000_0000
  type u8 = x: int | 0 <= x < 0x100
  type u32 = x: int | 0 <= x < 0x1_0000_0000

  /**
   * One NBT value. Floating-point payloads are kept as their IEEE bit
   * patterns: the decoder never looks inside them. A list is a sequence of
   * values (the format's rule that a list is homogeneous is not enforced).
   */
  datatype Value =
    | Byte(byteVal: i8)
    | Short(shortVal: i16)
    | Int(intVal: i32)
    | Long(longVal: i64)
    | Float(floatBits: bv32)
    | Double(doubleBits: bv64)
    | ByteArray(bytes: seq<i8>)
    | String(str: string)
    | List(elems: seq<Value>)
    | Compound(entries: map<string, Value>)
    | IntArray(ints: seq<i32>)
    | LongArray(longs: seq<i64>)

  /** A compound: named values, looked up by exact (case-sensitive) key. */
  type Compound = map<string, Value>

  /** `Compound::get`: the value stored under `key`, if any. */
  function Get(c: Compound, key: string): (v: Option<Value>)
    ensures v.Some? <==> key in c
    ensures v.Some? ==> v.value == c[key]
  {
    if key in c then Some(c[key]) else None
  }

  // Shape predicates used by the contracts: `key` is present with the given variant.

  predicate HasShort(c: Compound, key: string) {
    key in c && c[key].Short?
  }

  predicate HasString(c: Compound, key: string) {
    key in c && c[key].String?
  }

  predicate HasByte(c: Compound, key: string) {
    key in c && c[key].Byte?
  }

  predicate HasByteArray(c: Compound, key: string) {
    key in c && c[key].ByteArray?
  }

  predicate HasIntArray(c: Compound, key: string) {
    key in c && c[key].IntArray?
  }

  predicate HasList(c: Compound, key: string) {
    key in c && c[key].List?
  }

  predicate HasCompound(c: Compound, key: string) {
    key in c && c[key].Compound?
  }
}
