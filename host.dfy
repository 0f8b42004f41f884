/**
 * The host game's types that the biome compass works with: item stacks,
 * the world-identifier codec, tooltip text and the players that use an item.
 * Only the behaviour the compass relies on is modelled.
 */
module Host {
  import opened Nbt

  /** The kind of item a stack holds. */
  datatype Item = BiomeCompass | Compass

  /** The identifier of a world (dimension), such as "minecraft:overworld". */
  datatype WorldKey = WorldKey(id: string)

  /**
   * The host's world-identifier codec into tag elements. `encode` may fail
   * (None); `decode` reads an element back and may fail too.
   */
  datatype WorldCodec = WorldCodec(encode: WorldKey -> Option<Value>, decode: Value -> Option<WorldKey>)

  /** What the core assumes of the codec: decoding undoes a successful encoding. */
  ghost predicate ValidCodec(c: WorldCodec)
  {
    forall k :: c.encode(k).Some? ==> c.encode(k).value != Null && c.decode(c.encode(k).value) == Some(k)
  }

  /** Translatable tooltip text with its arguments, or already formatted text. */
  datatype Text = Translatable(key: string, args: seq<Text>) | Formatted(shown: string)

  /** A tooltip under construction: a list of lines the item appends to. */
  class TextList {
    var lines: seq<Text>

    constructor (lines: seq<Text>)
      ensures this.lines == lines
    {
      this.lines := lines;
    }

    method Add(line: Text)
      modifies this
      ensures lines == old(lines) + [line]
    {
      lines := lines + [line];
    }
  }

  /** A player on the logical server, with the two states the compass reads. */
  datatype ServerPlayer = ServerPlayer(creative: bool, sneaking: bool)

  /** The user of an item: a server-side player, or a client-side one. */
  datatype Player = OnServer(player: ServerPlayer) | OnClient

  /** The key under which a stack's tag keeps its enchantments. */
  const ENCHANTMENTS_KEY := "Enchantments"

  /**
   * The entry `addEnchantment` records for one enchantment: the level is
   * narrowed to a signed byte, then stored as a short.
   */
  function EnchantmentEntry(id: string, level: int): Value
  {
    Compound(map["id" := Str(id), "lvl" := Short(ToSignedByte(level))])
  }

  /**
   * The tag after `ItemStack.addEnchantment`: the entry is appended to the
   * enchantment list, which is created when the key holds no list. A list
   * holding other than compounds is left as it is: `getList` then hands out a
   * detached empty list, and the entry is added to that.
   */
  function Enchanted(t: Entries, id: string, level: int): Entries
  {
    if ENCHANTMENTS_KEY in t && t[ENCHANTMENTS_KEY].List? then
      var items := t[ENCHANTMENTS_KEY].items;
      if HoldsCompounds(items) then t[ENCHANTMENTS_KEY := List(items + [EnchantmentEntry(id, level)])] else t
    else
      t[ENCHANTMENTS_KEY := List([EnchantmentEntry(id, level)])]
  }

  /** An item stack: an item kind, a count and an optional, shared tag. */
  class ItemStack {
    const item: Item
    var count: int
    var nbt: NbtCompound?

    /** A stack of `count` items without a tag (`Item.getDefaultStack` for count 1). */
    constructor (item: Item, count: int)
      ensures this.item == item && this.count == count && nbt == null
    {
      this.item := item;
      this.count := count;
      nbt := null;
    }

    /** The stack's tag as a value; None when it has none. */
    function Tag(): Option<Entries>
      reads this, nbt
    {
      if nbt == null then None else Some(nbt.entries)
    }

    /** `hasNbt`: the stack is not empty (its count is positive) and has a non-empty tag. */
    predicate HasNbt()
      reads this, nbt
    {
      count > 0 && nbt != null && nbt.entries != map[]
    }

    /** `getOrCreateNbt`: the existing tag, or a new empty one attached to the stack. */
    method GetOrCreateNbt() returns (c: NbtCompound)
      modifies this`nbt
      ensures nbt == c
      ensures old(nbt) != null ==> c == old(nbt)
      ensures old(nbt) == null ==> fresh(c) && c.entries == map[]
    {
      if nbt == null {
        nbt := new NbtCompound();
      }
      c := nbt;
    }

    method Decrement(amount: int)
      modifies this`count
      ensures count == old(count) - amount
    {
      count := count - amount;
    }

    method SetNbt(c: NbtCompound?)
      modifies this`nbt
      ensures nbt == c
    {
      nbt := c;
    }

    /** `addEnchantment`: creates the tag when absent and records the enchantment in it. */
    method AddEnchantment(id: string, level: int)
      modifies this`nbt, nbt
      ensures nbt != null
      ensures old(nbt) != null ==> nbt == old(nbt)
      ensures old(nbt) == null ==> fresh(nbt)
      ensures nbt.entries == Enchanted(OrEmpty(old(Tag())), id, level)
    {
      var c := GetOrCreateNbt();
      c.entries := Enchanted(c.entries, id, level);
    }
  }
}
