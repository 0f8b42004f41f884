/**
 * Properties of the biome compass model that relate several operations:
 * presence, round trips through the codec, the mirror after any number of
 * re-trackings, what the tooltip and the use action read from a tracked tag,
 * the lore of the disguised view, and clients of the in-place operations.
 */
module BiomeCompassProperties {
  import opened Nbt
  import opened Host
  import opened BiomeCompassItem

  // ---------------------------------------------------------------------------
  // Presence

  /** `hasBiome` consults the name key only: tags that agree on it agree on presence. */
  lemma HasBiomeReadsNameKeyOnly(t1: Entries, t2: Entries)
    requires (BIOME_NAME_KEY in t1) <==> (BIOME_NAME_KEY in t2)
    ensures HasBiome(Some(t1)) == HasBiome(Some(t2))
    ensures !HasBiome(None)
  {
  }

  /** Writing a named location makes the compass track a biome; writing without a name keeps presence as it was. */
  lemma WrittenNameDecidesPresence(t: Entries, pos: BlockPos, biomeName: Option<string>, encoded: Option<Value>)
    ensures biomeName.Some? ==> HasBiome(Some(Written(t, pos, biomeName, encoded)))
    ensures biomeName.None? ==> HasBiome(Some(Written(t, pos, biomeName, encoded))) == HasBiome(Some(t))
  {
  }

  // ---------------------------------------------------------------------------
  // Dimension

  /** The dimension written by a successful encoding is read back by `getBiomeDimension`. */
  lemma DimensionRoundTrip(t: Entries, pos: BlockPos, biomeName: Option<string>, codec: WorldCodec, k: WorldKey)
    requires ValidCodec(codec) && codec.encode(k).Some?
    ensures GetBiomeDimension(Written(t, pos, biomeName, codec.encode(k)), codec) == Some(k)
  {
  }

  /** A failed encoding leaves the dimension that was there before, or its absence. */
  lemma DimensionKeptOnEncodeFailure(t: Entries, pos: BlockPos, biomeName: Option<string>, codec: WorldCodec)
    ensures GetBiomeDimension(Written(t, pos, biomeName, None), codec) == GetBiomeDimension(t, codec)
  {
  }

  /**
   * On a compound without a location, a named write whose encoding succeeds
   * leaves all four mod keys present and the compass tracked.
   */
  lemma FullWriteSetsAllModKeys(pos: BlockPos, name: string, e: Value)
    ensures MOD_KEYS <= Written(map[], pos, Some(name), Some(e)).Keys
    ensures GetBoolean(Written(map[], pos, Some(name), Some(e)), BIOME_TRACKED_KEY)
  {
  }

  /**
   * When the encoding fails on such a compound, the compass still tracks the
   * name and position but has no dimension: the biome dimension key is absent
   * and the lodestone dimension key holds the null that `get` handed out.
   */
  lemma FailedEncodeLeavesNoDimension(pos: BlockPos, name: string, codec: WorldCodec)
    ensures var r := Written(map[], pos, Some(name), None);
      && HasBiome(Some(r)) && GetBoolean(r, BIOME_TRACKED_KEY)
      && BIOME_DIMENSION_KEY !in r
      && LODESTONE_DIMENSION_KEY in r && r[LODESTONE_DIMENSION_KEY] == Null
      && GetBiomeDimension(r, codec) == None
  {
  }

  // ---------------------------------------------------------------------------
  // Re-tracking: any sequence of writes

  /** The arguments of one `writeNbt` call: position, optional name, codec result. */
  datatype WriteArgs = WriteArgs(pos: BlockPos, biomeName: Option<string>, encoded: Option<Value>)

  /** The compound after `writeNbt` runs once per argument tuple, in order. */
  function WriteAll(t: Entries, writes: seq<WriteArgs>): Entries
    decreases |writes|
  {
    if writes == [] then t
    else WriteAll(Written(t, writes[0].pos, writes[0].biomeName, writes[0].encoded), writes[1..])
  }

  /** After every non-empty sequence of writes the lodestone keys mirror the mod keys, tracked set. */
  lemma {:induction false} MirrorHoldsAfterEveryWrite(t: Entries, writes: seq<WriteArgs>)
    requires writes != []
    ensures MirrorConsistent(WriteAll(t, writes))
    ensures GetBoolean(WriteAll(t, writes), LODESTONE_TRACKED_KEY)
    decreases |writes|
  {
    var next := Written(t, writes[0].pos, writes[0].biomeName, writes[0].encoded);
    if |writes| > 1 {
      MirrorHoldsAfterEveryWrite(next, writes[1..]);
    }
  }

  /** No sequence of writes touches a key outside the mod and lodestone keys. */
  lemma {:induction false} ForeignKeysSurviveEveryWrite(t: Entries, writes: seq<WriteArgs>)
    ensures WriteAll(t, writes) - LOCATION_KEYS == t - LOCATION_KEYS
    decreases |writes|
  {
    if writes != [] {
      var next := Written(t, writes[0].pos, writes[0].biomeName, writes[0].encoded);
      ForeignKeysSurviveEveryWrite(next, writes[1..]);
    }
  }

  /** The position of the last write is the one stored, under both the mod key and the lodestone key. */
  lemma {:induction false} LastPositionWins(t: Entries, writes: seq<WriteArgs>)
    requires writes != []
    ensures Lookup(WriteAll(t, writes), BIOME_POS_KEY) == FromBlockPos(writes[|writes| - 1].pos)
    ensures Lookup(WriteAll(t, writes), LODESTONE_POS_KEY) == FromBlockPos(writes[|writes| - 1].pos)
    decreases |writes|
  {
    var next := Written(t, writes[0].pos, writes[0].biomeName, writes[0].encoded);
    if |writes| > 1 {
      LastPositionWins(next, writes[1..]);
      assert writes[1..][|writes[1..]| - 1] == writes[|writes| - 1];
    }
  }

  // ---------------------------------------------------------------------------
  // Tooltip and use on a tracked compass

  /** A compass tracked by a named write shows both location lines. */
  lemma TrackedCompassShowsLocation(t: Entries, pos: BlockPos, name: string, encoded: Option<Value>, biomeName: Text, biomePos: Text)
    ensures TooltipLines(Some(Written(t, pos, Some(name), encoded)), biomeName, biomePos)
            == [Translatable(NAME_TOOLTIP, [biomeName]), Translatable(POS_TOOLTIP, [biomePos])]
  {
  }

  /** The name alone, or the position alone, shows nothing. */
  lemma PartialLocationShowsNothing(t: Entries, biomeName: Text, biomePos: Text)
    requires (BIOME_NAME_KEY in t) != (BIOME_POS_KEY in t)
    ensures TooltipLines(Some(t), biomeName, biomePos) == []
  {
  }

  /** A creative, sneaking player holding the compass is sent to the stored position at the fixed height. */
  lemma ShortcutTeleportsToStoredPosition(t: Entries, pos: BlockPos, biomeName: Option<string>, encoded: Option<Value>,
                                          p: ServerPlayer, count: int)
    requires p.creative && p.sneaking && count > 0
    ensures Use(OnServer(p), count, Some(Written(t, pos, biomeName, encoded))) == Teleported(pos.x, TELEPORT_Y, pos.z)
  {
  }

  /** Any other server player gets the selection screen, whatever the tag holds. */
  lemma OtherServerUseOpensSelection(count: int, tag: Option<Entries>, p: ServerPlayer)
    requires !(p.creative && p.sneaking)
    ensures Use(OnServer(p), count, tag) == SelectionOpened(0) && IsSuccess(Use(OnServer(p), count, tag))
  {
  }

  // ---------------------------------------------------------------------------
  // Lore of the disguised view

  /** An existing string lore keeps its lines in order and gains the tip last. */
  lemma CreativeTipAppendsToLore(t: Entries, items: seq<Value>, tipJson: string)
    requires DISPLAY_KEY in t && t[DISPLAY_KEY].Compound?
    requires LORE_KEY in t[DISPLAY_KEY].entries && t[DISPLAY_KEY].entries[LORE_KEY] == List(items)
    requires HoldsStrings(items)
    ensures LoreOf(WithCreativeTip(t, tipJson)) == Some(items + [Str(tipJson)])
  {
  }

  /** Without a lore list, one is created holding just the tip. */
  lemma CreativeTipCreatesLore(t: Entries, tipJson: string)
    requires LoreOf(t) == None
    ensures LoreOf(WithCreativeTip(t, tipJson)) == Some([Str(tipJson)])
  {
    assert PriorLore(PriorDisplay(t)) == [];
    assert PriorLore(PriorDisplay(t)) + [Str(tipJson)] == [Str(tipJson)];
  }

  /**
   * The disguised view for a creative viewer of a tracked compass has exactly
   * one more lore line than the base view: the glint does not touch the lore.
   */
  lemma ProjectionAddsOneLoreLine(base: Option<Entries>, tipJson: string)
    ensures var r := ProjectedTag(base, true, true, tipJson);
      r.Some? && LoreOf(r.value) == Some(PriorLore(PriorDisplay(OrEmpty(base))) + [Str(tipJson)])
  {
    var glinted := Enchanted(OrEmpty(base), GLINT_ENCHANTMENT, 0);
    assert PriorDisplay(glinted) == PriorDisplay(OrEmpty(base));
  }

  /**
   * A viewer who is not creative, or no viewer, gets no tip: the disguised
   * view of a tracked compass keeps the base view's display block and lore,
   * and differs from the base view only in its enchantments.
   */
  lemma ProjectionKeepsDisplayForOtherViewers(base: Option<Entries>, tipJson: string)
    ensures var r := ProjectedTag(base, true, false, tipJson);
      && r.Some?
      && SameAt(OrEmpty(base), r.value, DISPLAY_KEY)
      && LoreOf(r.value) == LoreOf(OrEmpty(base))
      && r.value - {ENCHANTMENTS_KEY} == OrEmpty(base) - {ENCHANTMENTS_KEY}
  {
  }

  /** The enchantment entries a tag already holds: its "Enchantments" list, or none. */
  function PriorEnchantments(t: Entries): seq<Value>
  {
    if ENCHANTMENTS_KEY in t && t[ENCHANTMENTS_KEY].List? then t[ENCHANTMENTS_KEY].items else []
  }

  /**
   * The disguised view of a tracked compass carries the level-0 glint
   * enchantment as the last entry of its enchantment list, after the entries
   * the base view had, whoever the viewer is; only the enchantments and the
   * display block differ from the base view. This holds when the base
   * "Enchantments" key holds no list or a list of compounds (the host leaves
   * any other list alone).
   */
  lemma ProjectionCarriesGlint(base: Option<Entries>, creative: bool, tipJson: string)
    requires var t := OrEmpty(base);
      ENCHANTMENTS_KEY !in t || !t[ENCHANTMENTS_KEY].List? || HoldsCompounds(t[ENCHANTMENTS_KEY].items)
    ensures var r := ProjectedTag(base, true, creative, tipJson);
      && r.Some? && ENCHANTMENTS_KEY in r.value && r.value[ENCHANTMENTS_KEY].List?
      && r.value[ENCHANTMENTS_KEY].items == PriorEnchantments(OrEmpty(base)) + [EnchantmentEntry(GLINT_ENCHANTMENT, 0)]
      && r.value - {ENCHANTMENTS_KEY, DISPLAY_KEY} == OrEmpty(base) - {ENCHANTMENTS_KEY, DISPLAY_KEY}
  {
    var t := OrEmpty(base);
    var glinted := Enchanted(t, GLINT_ENCHANTMENT, 0);
    assert glinted - {ENCHANTMENTS_KEY} == t - {ENCHANTMENTS_KEY};
    if creative {
      var r := WithCreativeTip(glinted, tipJson);
      assert r - {DISPLAY_KEY} == glinted - {DISPLAY_KEY};
      assert r[ENCHANTMENTS_KEY] == glinted[ENCHANTMENTS_KEY];
    }
  }

  /**
   * Two disguised views of the same untouched compass, built from equal base
   * views, are equal: projecting again adds no second tip.
   */
  method ProjectTwice(itemStack: ItemStack, fake1: ItemStack, fake2: ItemStack, viewer: Option<ServerPlayer>, tipJson: string)
    requires fake1.Tag() == fake2.Tag()
    requires fake1 != itemStack && fake2 != itemStack && fake1 != fake2
    requires fake1.nbt != null ==> fake1.nbt != itemStack.nbt && fake1.nbt != fake2.nbt
    requires fake2.nbt != null ==> fake2.nbt != itemStack.nbt
    modifies fake1, fake1.nbt, fake2, fake2.nbt
    ensures fake1.Tag() == fake2.Tag()
    ensures itemStack.Tag() == old(itemStack.Tag())
  {
    ghost var base := fake1.Tag();
    GetPolymerItemStack(itemStack, fake1, viewer, tipJson);
    ghost var first := fake1.Tag();
    GetPolymerItemStack(itemStack, fake2, viewer, tipJson);
    assert fake1.Tag() == first;
  }

  // ---------------------------------------------------------------------------
  // Tracking clients

  /**
   * After a split, the remaining stack and the split-off compass do not share
   * a tag: changing either one afterwards leaves the other as it was.
   */
  method SplitCopiesAreIndependent(pos: BlockPos, worldKey: WorldKey, stack: ItemStack, biomeName: Option<string>,
                                   codec: WorldCodec, insertAccepted: bool,
                                   splitKey: string, splitValue: Value, stackKey: string, stackValue: Value)
    returns (split: ItemStack)
    requires stack.count != 1 && stack.nbt != null
    modifies stack, stack.nbt
    ensures split.Tag() == Some(Written(SplitSource(stack.count, Some(old(stack.nbt.entries))), pos, biomeName, codec.encode(worldKey))[splitKey := splitValue])
    ensures stack.Tag() == Some(old(stack.nbt.entries)[stackKey := stackValue])
  {
    var placement := Track(pos, worldKey, stack, biomeName, codec, insertAccepted);
    split := placement.stack;
    split.nbt.Put(splitKey, splitValue);
    stack.nbt.Put(stackKey, stackValue);
  }

  /**
   * Tracking "Plains" at (100, 64, -200) in the overworld from five untagged
   * compasses: four stay untagged, and one new compass carries the location
   * and its mirror.
   */
  method TrackSplitExample(codec: WorldCodec, insertAccepted: bool)
    returns (remainingCount: int, remainingTag: Option<Entries>, newTag: Option<Entries>, inserted: bool)
    ensures remainingCount == 4 && remainingTag == None
    ensures inserted == insertAccepted
    ensures newTag.Some?
    ensures Lookup(newTag.value, BIOME_NAME_KEY) == Str("Plains")
    ensures Lookup(newTag.value, BIOME_POS_KEY) == FromBlockPos(BlockPos(100, 64, -200))
    ensures GetBoolean(newTag.value, BIOME_TRACKED_KEY)
    ensures codec.encode(WorldKey("minecraft:overworld")).Some? ==>
              Lookup(newTag.value, BIOME_DIMENSION_KEY) == codec.encode(WorldKey("minecraft:overworld")).value
    ensures MirrorConsistent(newTag.value)
  {
    var stack := new ItemStack(BiomeCompass, 5);
    var placement := Track(BlockPos(100, 64, -200), WorldKey("minecraft:overworld"), stack, Some("Plains"), codec, insertAccepted);
    remainingCount, remainingTag := stack.count, stack.Tag();
    newTag, inserted := placement.stack.Tag(), placement.Inserted?;
  }

  /**
   * Tracking with a single tagged compass changes that compass's own tag
   * object: no new stack is made, the tag gains the name, the position, the
   * tracked flag and their mirror, and the unrelated entry survives.
   */
  method TrackInPlaceExample(codec: WorldCodec, insertAccepted: bool)
    returns (count: int, sameTagObject: bool, newStack: bool, tag: Option<Entries>)
    ensures count == 1 && sameTagObject && !newStack
    ensures tag.Some? && Lookup(tag.value, "custom") == Int(7)
    ensures Lookup(tag.value, BIOME_NAME_KEY) == Str("Desert")
    ensures Lookup(tag.value, BIOME_POS_KEY) == FromBlockPos(BlockPos(0, 70, 0))
    ensures GetBoolean(tag.value, BIOME_TRACKED_KEY)
    ensures MirrorConsistent(tag.value)
  {
    var stack := new ItemStack(BiomeCompass, 1);
    var original := stack.GetOrCreateNbt();
    original.Put("custom", Int(7));
    var placement := Track(BlockPos(0, 70, 0), WorldKey("minecraft:overworld"), stack, Some("Desert"), codec, insertAccepted);
    count, sameTagObject, newStack, tag := stack.count, stack.nbt == original, !placement.TaggedInPlace?, stack.Tag();
    assert "custom" !in LOCATION_KEYS;
  }

  // ---------------------------------------------------------------------------
  // The disguised view with no viewer

  /** As written, a tracked compass viewed without a player throws. */
  method NullViewerThrowsAsWritten() returns (threw: bool)
    ensures threw
  {
    var compass := new ItemStack(BiomeCompass, 1);
    var nbt := compass.GetOrCreateNbt();
    nbt.Put(BIOME_NAME_KEY, Str("Plains"));
    var fake := new ItemStack(Compass, 1);
    threw := GetPolymerItemStackAsWritten(compass, fake, None, "tip");
  }

  /** With a missing viewer read as not creative, the same view gets the glint and no lore. */
  method NullViewerGetsGlintOnly() returns (tag: Option<Entries>)
    ensures tag == Some(Enchanted(map[], GLINT_ENCHANTMENT, 0))
    ensures LoreOf(tag.value) == None
  {
    var compass := new ItemStack(BiomeCompass, 1);
    var nbt := compass.GetOrCreateNbt();
    nbt.Put(BIOME_NAME_KEY, Str("Plains"));
    var fake := new ItemStack(Compass, 1);
    GetPolymerItemStack(compass, fake, None, "tip");
    tag := fake.Tag();
  }
}
