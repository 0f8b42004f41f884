/**
 * The host game's structured tag format ("NBT"), as far as the biome compass
 * uses it. A compound is a mutable map from string keys to tag elements; the
 * elements themselves are modelled as values.
 */
module Nbt {

  datatype Option<+T> = None | Some(value: T)

  /**
   * A tag element. `Null` is not a tag type of the format: it stands for the
   * Java `null` that a compound hands out for a missing key, and that `put`
   * stores when it is handed one.
   */
  datatype Value =
    | Null
    | Byte(byteValue: int)
    | Short(shortValue: int)
    | Int(intValue: int)
    | Str(text: string)
    | List(items: seq<Value>)
    | Compound(entries: map<string, Value>)

  /** The contents of one compound. */
  type Entries = map<string, Value>

  /** `NbtCompound.get`: the stored element, or null when the key is absent. */
  function Lookup(t: Entries, key: string): Value
  {
    if key in t then t[key] else Null
  }

  /** The contents of an optional tag, an absent tag read as an empty one. */
  function OrEmpty(tag: Option<Entries>): Entries
  {
    if tag.Some? then tag.value else map[]
  }

  predicate IsNumber(v: Value)
  {
    v.Byte? || v.Short? || v.Int?
  }

  function NumberValue(v: Value): int
    requires IsNumber(v)
  {
    match v
    case Byte(b) => b
    case Short(s) => s
    case Int(i) => i
  }

  /** Java's narrowing conversion of an integer to a signed byte. */
  function ToSignedByte(n: int): (b: int)
    ensures -128 <= b < 128
    ensures (b == 0) <==> (n % 256 == 0)
  {
    var m := n % 256;
    if m >= 128 then m - 256 else m
  }

  /** `NbtCompound.getInt`: a numeric element's value, 0 for anything else. */
  function GetInt(t: Entries, key: string): int
  {
    if key in t && IsNumber(t[key]) then NumberValue(t[key]) else 0
  }

  /** `NbtCompound.getBoolean`: the element's byte value is non-zero. */
  function GetBoolean(t: Entries, key: string): bool
  {
    key in t && IsNumber(t[key]) && ToSignedByte(NumberValue(t[key])) != 0
  }

  /** The element `putBoolean` stores. */
  function BooleanTag(b: bool): Value
  {
    Byte(if b then 1 else 0)
  }

  /** A block position: three integer coordinates. */
  datatype BlockPos = BlockPos(x: int, y: int, z: int)

  /** `NbtHelper.toBlockPos`: the X, Y and Z integers of a compound. */
  function ToBlockPos(e: Entries): BlockPos
  {
    BlockPos(GetInt(e, "X"), GetInt(e, "Y"), GetInt(e, "Z"))
  }

  /**
   * `NbtHelper.fromBlockPos`: a compound holding the three coordinates, which
   * `ToBlockPos` reads back unchanged.
   */
  function FromBlockPos(p: BlockPos): (v: Value)
    ensures v.Compound? && ToBlockPos(v.entries) == p
  {
    Compound(map["X" := Int(p.x), "Y" := Int(p.y), "Z" := Int(p.z)])
  }

  /**
   * Whether `getList(key, type)` hands out the stored list: an empty list, or
   * one whose (homogeneous) elements have the requested type.
   */
  predicate HoldsStrings(items: seq<Value>)
  {
    items == [] || items[0].Str?
  }

  predicate HoldsCompounds(items: seq<Value>)
  {
    items == [] || items[0].Compound?
  }

  /** A mutable compound, shared by reference like the host's `NbtCompound`. */
  class NbtCompound {
    var entries: Entries

    constructor ()
      ensures entries == map[]
    {
      entries := map[];
    }

    predicate Contains(key: string)
      reads this
    {
      key in entries
    }

    function Get(key: string): Value
      reads this
    {
      Lookup(entries, key)
    }

    method Put(key: string, v: Value)
      modifies this
      ensures entries == old(entries)[key := v]
    {
      entries := entries[key := v];
    }

    /** `NbtCompound.copy`: a new compound with equal contents. */
    method Copy() returns (c: NbtCompound)
      ensures fresh(c) && c.entries == entries
    {
      c := new NbtCompound();
      c.entries := entries;
    }
  }
}
