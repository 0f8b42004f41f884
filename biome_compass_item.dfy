/**
 * The biome compass item: how a stack's tag records a tracked biome location
 * under the mod's own keys, how that location is mirrored into the keys the
 * host's lodestone compass reads, how tracking splits a stack, and the
 * read-only decisions taken from the tag (tooltip, use, disguised view).
 */
module BiomeCompassItem {
  import opened Nbt
  import opened Host

  // The mod's keys: the identifier "biomecompass:<path>" written as a string.
  const BIOME_NAME_KEY := "biomecompass:biome_name"
  const BIOME_DIMENSION_KEY := "biomecompass:biome_dimension"
  const BIOME_POS_KEY := "biomecompass:biome_pos"
  const BIOME_TRACKED_KEY := "biomecompass:biome_tracked"

  // The host compass's keys, from which its needle computes a direction.
  const LODESTONE_POS_KEY := "LodestonePos"
  const LODESTONE_DIMENSION_KEY := "LodestoneDimension"
  const LODESTONE_TRACKED_KEY := "LodestoneTracked"

  const MOD_KEYS: set<string> := {BIOME_NAME_KEY, BIOME_DIMENSION_KEY, BIOME_POS_KEY, BIOME_TRACKED_KEY}
  const LODESTONE_KEYS: set<string> := {LODESTONE_POS_KEY, LODESTONE_DIMENSION_KEY, LODESTONE_TRACKED_KEY}
  /** Every key that writing a location may change. */
  const LOCATION_KEYS: set<string> := MOD_KEYS + LODESTONE_KEYS

  // The host's keys for a stack's display block and its description lines.
  const DISPLAY_KEY := "display"
  const LORE_KEY := "Lore"

  /** The enchantment the disguised view carries, at level 0, for its glint. */
  const GLINT_ENCHANTMENT := "minecraft:infinity"
  /** The height the creative shortcut teleports to. */
  const TELEPORT_Y := 120

  const NAME_TOOLTIP := "item.biomecompass.biome_compass.tooltip.biome_name"
  const POS_TOOLTIP := "item.biomecompass.biome_compass.tooltip.biome_pos"

  /** Key `k` is present in both tags or in neither, with equal values. */
  predicate SameAt(t: Entries, r: Entries, k: string)
  {
    (k in t <==> k in r) && (k in t ==> t[k] == r[k])
  }

  // ---------------------------------------------------------------------------
  // Reading the tag

  /** `hasBiome`: the stack has a tag and it holds the biome name key. */
  predicate HasBiome(tag: Option<Entries>)
    ensures HasBiome(tag) ==> tag.Some?
    ensures tag.Some? ==> (HasBiome(tag) <==> BIOME_NAME_KEY in tag.value)
  {
    tag.Some? && BIOME_NAME_KEY in tag.value
  }

  /**
   * `getBiomeDimension`: the dimension element parsed by the codec. A missing
   * element is handed to the codec as null, which fails to parse.
   */
  function GetBiomeDimension(t: Entries, codec: WorldCodec): (r: Option<WorldKey>)
    ensures BIOME_DIMENSION_KEY !in t ==> r == None
    ensures BIOME_DIMENSION_KEY in t && t[BIOME_DIMENSION_KEY] != Null ==> r == codec.decode(t[BIOME_DIMENSION_KEY])
    ensures BIOME_DIMENSION_KEY in t && t[BIOME_DIMENSION_KEY] == Null ==> r == None
  {
    var e := Lookup(t, BIOME_DIMENSION_KEY);
    if e.Null? then None else codec.decode(e)
  }

  // ---------------------------------------------------------------------------
  // Writing a location

  /** The four mod keys after `writeNbt`, before the mirror is taken. */
  function LocationWritten(t: Entries, pos: BlockPos, biomeName: Option<string>, encoded: Option<Value>): Entries
  {
    var named := if biomeName.Some? then t[BIOME_NAME_KEY := Str(biomeName.value)] else t;
    var placed := named[BIOME_POS_KEY := FromBlockPos(pos)];
    var located := if encoded.Some? then placed[BIOME_DIMENSION_KEY := encoded.value] else placed;
    located[BIOME_TRACKED_KEY := BooleanTag(true)]
  }

  /** The lodestone keys hold what the mod keys hold. */
  predicate MirrorConsistent(t: Entries)
  {
    && Lookup(t, LODESTONE_POS_KEY) == Lookup(t, BIOME_POS_KEY)
    && Lookup(t, LODESTONE_DIMENSION_KEY) == Lookup(t, BIOME_DIMENSION_KEY)
    && GetBoolean(t, LODESTONE_TRACKED_KEY) == GetBoolean(t, BIOME_TRACKED_KEY)
  }

  /**
   * `writeLodestoneNbt`: the three lodestone keys are overwritten with the
   * position, the dimension and the tracked flag; nothing else changes.
   */
  function Mirrored(t: Entries): (r: Entries)
    ensures LODESTONE_KEYS <= r.Keys
    ensures MirrorConsistent(r)
    ensures r[LODESTONE_TRACKED_KEY] == BooleanTag(GetBoolean(t, BIOME_TRACKED_KEY))
    ensures r - LODESTONE_KEYS == t - LODESTONE_KEYS
  {
    t[LODESTONE_POS_KEY := Lookup(t, BIOME_POS_KEY)]
     [LODESTONE_DIMENSION_KEY := Lookup(t, BIOME_DIMENSION_KEY)]
     [LODESTONE_TRACKED_KEY := BooleanTag(GetBoolean(t, BIOME_TRACKED_KEY))]
  }

  /**
   * The tag after `writeNbt` with codec result `encoded`: the position is
   * stored and the location is flagged as tracked; the name is stored when
   * given and kept otherwise; the dimension is stored when the codec succeeded
   * and kept otherwise; the lodestone keys mirror the result, with the tracked
   * flag set; every other key is left as it was.
   */
  function Written(t: Entries, pos: BlockPos, biomeName: Option<string>, encoded: Option<Value>): (r: Entries)
    ensures BIOME_POS_KEY in r && r[BIOME_POS_KEY] == FromBlockPos(pos)
    ensures BIOME_TRACKED_KEY in r && r[BIOME_TRACKED_KEY] == BooleanTag(true)
    ensures biomeName.Some? ==> BIOME_NAME_KEY in r && r[BIOME_NAME_KEY] == Str(biomeName.value)
    ensures biomeName.None? ==> SameAt(t, r, BIOME_NAME_KEY)
    ensures encoded.Some? ==> BIOME_DIMENSION_KEY in r && r[BIOME_DIMENSION_KEY] == encoded.value
    ensures encoded.None? ==> SameAt(t, r, BIOME_DIMENSION_KEY)
    ensures LODESTONE_KEYS <= r.Keys
    ensures MirrorConsistent(r) && GetBoolean(r, LODESTONE_TRACKED_KEY)
    ensures r - LOCATION_KEYS == t - LOCATION_KEYS
  {
    var located := LocationWritten(t, pos, biomeName, encoded);
    assert located - MOD_KEYS == t - MOD_KEYS;
    Mirrored(located)
  }

  /** `writeNbt`: records the location in the compound, in place. */
  method WriteNbt(worldKey: WorldKey, pos: BlockPos, nbt: NbtCompound, biomeName: Option<string>, codec: WorldCodec)
    modifies nbt
    ensures nbt.entries == Written(old(nbt.entries), pos, biomeName, codec.encode(worldKey))
  {
    if biomeName.Some? {
      nbt.Put(BIOME_NAME_KEY, Str(biomeName.value));
    }
    nbt.Put(BIOME_POS_KEY, FromBlockPos(pos));
    // On failure the codec's error is logged and the key is not written.
    var encoded := codec.encode(worldKey);
    if encoded.Some? {
      nbt.Put(BIOME_DIMENSION_KEY, encoded.value);
    }
    nbt.Put(BIOME_TRACKED_KEY, BooleanTag(true));
    WriteLodestoneNbt(nbt);
  }

  /** `writeLodestoneNbt`: copies the location into the lodestone keys, in place. */
  method WriteLodestoneNbt(nbt: NbtCompound)
    modifies nbt
    ensures nbt.entries == Mirrored(old(nbt.entries))
  {
    nbt.Put(LODESTONE_POS_KEY, nbt.Get(BIOME_POS_KEY));
    nbt.Put(LODESTONE_DIMENSION_KEY, nbt.Get(BIOME_DIMENSION_KEY));
    nbt.Put(LODESTONE_TRACKED_KEY, BooleanTag(GetBoolean(nbt.entries, BIOME_TRACKED_KEY)));
  }

  // ---------------------------------------------------------------------------
  // Tracking

  /** Where `track` leaves the tracked compass. */
  datatype Placement =
    | TaggedInPlace               // the acting stack itself now carries the location
    | Inserted(stack: ItemStack)  // a split-off stack, placed in the inventory
    | Dropped(stack: ItemStack)   // a split-off stack, dropped at the player (inventory full)

  /**
   * The tag a split-off compass starts from, given the remaining stack's
   * count and tag: a copy of that tag when `hasNbt` holds for the remaining
   * stack, an empty tag otherwise. A remaining stack of count 0 or less is
   * empty, and its tag is not copied.
   */
  function SplitSource(remaining: int, tag: Option<Entries>): (t: Entries)
    ensures remaining > 0 && tag.Some? ==> t == tag.value
    ensures remaining <= 0 || tag.None? ==> t == map[]
  {
    if remaining > 0 then OrEmpty(tag) else map[]
  }

  /**
   * `track`: a stack of one compass is tagged in place, its tag created when
   * absent. Any other stack gives up one compass: it keeps its tag untouched,
   * and a new single compass gets the tag `SplitSource` chooses with the
   * location written. The new compass is inserted into the inventory when
   * `insertAccepted`, and dropped otherwise.
   */
  method Track(pos: BlockPos, worldKey: WorldKey, oldCompass: ItemStack, biomeName: Option<string>,
               codec: WorldCodec, insertAccepted: bool)
    returns (placement: Placement)
    modifies oldCompass, oldCompass.nbt
    ensures old(oldCompass.count) == 1 ==>
      && placement == TaggedInPlace
      && oldCompass.count == 1
      && oldCompass.nbt != null
      && (old(oldCompass.nbt) != null ==> oldCompass.nbt == old(oldCompass.nbt))
      && (old(oldCompass.nbt) == null ==> fresh(oldCompass.nbt))
      && oldCompass.nbt.entries == Written(OrEmpty(old(oldCompass.Tag())), pos, biomeName, codec.encode(worldKey))
    ensures old(oldCompass.count) != 1 ==>
      && oldCompass.count == old(oldCompass.count) - 1
      && oldCompass.nbt == old(oldCompass.nbt)
      && oldCompass.Tag() == old(oldCompass.Tag())
      && (if insertAccepted then placement.Inserted? else placement.Dropped?)
      && fresh(placement.stack) && fresh(placement.stack.nbt)
      && placement.stack.item == BiomeCompass
      && placement.stack.count == 1
      && placement.stack.nbt != null
      && placement.stack.nbt != oldCompass.nbt
      && placement.stack.nbt.entries == Written(SplitSource(oldCompass.count, old(oldCompass.Tag())), pos, biomeName, codec.encode(worldKey))
  {
    // The lock sound played here is not modelled.
    if oldCompass.count == 1 {
      var nbt := oldCompass.GetOrCreateNbt();
      WriteNbt(worldKey, pos, nbt, biomeName, codec);
      placement := TaggedInPlace;
    } else {
      oldCompass.Decrement(1);
      var newCompass := new ItemStack(BiomeCompass, 1);
      var nbt: NbtCompound;
      if oldCompass.HasNbt() {
        nbt := oldCompass.nbt.Copy();
      } else {
        nbt := new NbtCompound();
      }
      newCompass.SetNbt(nbt);
      WriteNbt(worldKey, pos, nbt, biomeName, codec);
      if !insertAccepted {
        placement := Dropped(newCompass);
      } else {
        placement := Inserted(newCompass);
      }
    }
  }

  // ---------------------------------------------------------------------------
  // Tooltip

  /**
   * The lines `appendTooltip` adds: the biome name line then the position line
   * when the tag holds both the name and the position key, and none otherwise.
   * `biomeName` and `biomePos` are the formatted arguments.
   */
  function TooltipLines(tag: Option<Entries>, biomeName: Text, biomePos: Text): (lines: seq<Text>)
    ensures |lines| == 2 <==> tag.Some? && BIOME_NAME_KEY in tag.value && BIOME_POS_KEY in tag.value
    ensures |lines| != 2 ==> lines == []
    ensures |lines| == 2 ==> lines[0].Translatable? && lines[0].key == NAME_TOOLTIP && lines[0].args == [biomeName]
    ensures |lines| == 2 ==> lines[1].Translatable? && lines[1].key == POS_TOOLTIP && lines[1].args == [biomePos]
  {
    if tag.Some? && BIOME_NAME_KEY in tag.value && BIOME_POS_KEY in tag.value then
      [Translatable(NAME_TOOLTIP, [biomeName]), Translatable(POS_TOOLTIP, [biomePos])]
    else
      []
  }

  /** `appendTooltip`: appends the location lines after whatever the list holds. */
  method AppendTooltip(stack: ItemStack, tooltip: TextList, biomeName: Text, biomePos: Text)
    modifies tooltip
    ensures tooltip.lines == old(tooltip.lines) + (if stack.count > 0 then TooltipLines(stack.Tag(), biomeName, biomePos) else [])
  {
    // The parent item adds no lines.
    if stack.HasNbt() && stack.nbt.Contains(BIOME_NAME_KEY) && stack.nbt.Contains(BIOME_POS_KEY) {
      tooltip.Add(Translatable(NAME_TOOLTIP, [biomeName]));
      tooltip.Add(Translatable(POS_TOOLTIP, [biomePos]));
    }
  }

  // ---------------------------------------------------------------------------
  // Use

  /** What using the compass does. */
  datatype UseOutcome =
    | Teleported(x: int, y: int, z: int)  // success, after a teleport request
    | SelectionOpened(initialIndex: int)  // success, after opening the biome selection screen
    | Passed                              // pass: nothing happens
    | Failed                              // the stored position is no compound: the cast throws

  /** Whether the interaction reports success to the host. */
  predicate IsSuccess(r: UseOutcome)
  {
    r.Teleported? || r.SelectionOpened?
  }

  /**
   * `use` by `user` holding a stack of `heldCount` items with tag `held`.
   * The held stack is returned unchanged in every case. As in `hasNbt`, an
   * empty held stack (count 0 or less) counts as having no tag.
   */
  function Use(user: Player, heldCount: int, held: Option<Entries>): (r: UseOutcome)
    ensures r.Passed? <==> user.OnClient?
    ensures (r.Teleported? || r.Failed?) <==>
      && user.OnServer? && user.player.creative && user.player.sneaking
      && heldCount > 0 && held.Some? && BIOME_POS_KEY in held.value
    ensures r.Teleported? ==>
      && held.Some? && BIOME_POS_KEY in held.value && held.value[BIOME_POS_KEY].Compound?
      && r == Teleported(ToBlockPos(held.value[BIOME_POS_KEY].entries).x, TELEPORT_Y,
                         ToBlockPos(held.value[BIOME_POS_KEY].entries).z)
    ensures r.Failed? ==> held.Some? && BIOME_POS_KEY in held.value && !held.value[BIOME_POS_KEY].Compound?
    ensures r.SelectionOpened? ==> r.initialIndex == 0
  {
    match user
    case OnClient => Passed
    case OnServer(p) =>
      if p.creative && p.sneaking && heldCount > 0 && held.Some? && BIOME_POS_KEY in held.value then
        var stored := held.value[BIOME_POS_KEY];
        if stored.Compound? then
          var pos := ToBlockPos(stored.entries);
          Teleported(pos.x, TELEPORT_Y, pos.z)
        else
          Failed
      else
        SelectionOpened(0)
  }

  // ---------------------------------------------------------------------------
  // Disguised view

  /** Whether the viewer of the disguised view is in creative mode. */
  predicate IsCreative(viewer: Option<ServerPlayer>)
  {
    viewer.Some? && viewer.value.creative
  }

  /**
   * The display block the tip goes into: the existing one when the display key
   * holds a compound (for anything else `getCompound` hands out a new one).
   */
  function PriorDisplay(t: Entries): Entries
  {
    if DISPLAY_KEY in t && t[DISPLAY_KEY].Compound? then t[DISPLAY_KEY].entries else map[]
  }

  /**
   * The lore the tip is appended to: the existing list when the lore key holds
   * a list of strings (or an empty one); a new empty list otherwise.
   */
  function PriorLore(display: Entries): seq<Value>
  {
    if LORE_KEY in display && display[LORE_KEY].List? && HoldsStrings(display[LORE_KEY].items) then
      display[LORE_KEY].items
    else
      []
  }

  /** The lore list of a tag's display block, if it has one. */
  function LoreOf(t: Entries): Option<seq<Value>>
  {
    if DISPLAY_KEY in t && t[DISPLAY_KEY].Compound? && LORE_KEY in t[DISPLAY_KEY].entries
       && t[DISPLAY_KEY].entries[LORE_KEY].List?
    then Some(t[DISPLAY_KEY].entries[LORE_KEY].items)
    else None
  }

  /**
   * The fake stack's tag after the creative tip is added: the lore list keeps
   * its prior entries in order and ends with the tip; the rest of the display
   * block and of the tag is unchanged.
   */
  function WithCreativeTip(t: Entries, tipJson: string): (r: Entries)
    ensures DISPLAY_KEY in r && r[DISPLAY_KEY].Compound?
    ensures LoreOf(r) == Some(PriorLore(PriorDisplay(t)) + [Str(tipJson)])
    ensures r[DISPLAY_KEY].entries - {LORE_KEY} == PriorDisplay(t) - {LORE_KEY}
    ensures r - {DISPLAY_KEY} == t - {DISPLAY_KEY}
  {
    var display := PriorDisplay(t);
    t[DISPLAY_KEY := Compound(display[LORE_KEY := List(PriorLore(display) + [Str(tipJson)])])]
  }

  /**
   * The disguised view's tag, from the tag `base` of the stack the host
   * disguise layer supplies: unchanged for an untracked compass; otherwise
   * created if absent and given the level-0 glint enchantment, and for a
   * creative viewer also the creative tip.
   */
  function ProjectedTag(base: Option<Entries>, tracked: bool, creative: bool, tipJson: string): (r: Option<Entries>)
    ensures !tracked ==> r == base
    ensures tracked ==> r.Some?
  {
    if !tracked then base
    else
      var glinted := Enchanted(OrEmpty(base), GLINT_ENCHANTMENT, 0);
      Some(if creative then WithCreativeTip(glinted, tipJson) else glinted)
  }

  /** Adds the creative tip to the lore of the fake stack's display block, in place. */
  method AddCreativeTip(fake: ItemStack, tipJson: string)
    requires fake.nbt != null
    modifies fake, fake.nbt
    ensures fake.nbt == old(fake.nbt) && fake.count == old(fake.count)
    ensures fake.nbt.entries == WithCreativeTip(old(fake.nbt.entries), tipJson)
  {
    var tip := Str(tipJson);
    var lore: seq<Value> := [];
    var display: Entries := map[];
    var fakeNbt := fake.nbt;
    if !fakeNbt.Get(DISPLAY_KEY).Null? {
      display := PriorDisplay(fakeNbt.entries);
      if LORE_KEY in display && display[LORE_KEY].List? {
        lore := PriorLore(display);
      }
    }
    lore := lore + [tip];
    display := display[LORE_KEY := List(lore)];
    fakeNbt.Put(DISPLAY_KEY, Compound(display));
    fake.SetNbt(fakeNbt);
  }

  /**
   * `getPolymerItemStack`, with a missing viewer read as not creative:
   * `fake` is the stack the host disguise layer built for `itemStack`, which
   * is left unchanged.
   */
  method GetPolymerItemStack(itemStack: ItemStack, fake: ItemStack, viewer: Option<ServerPlayer>, tipJson: string)
    requires fake != itemStack && (fake.nbt != null ==> fake.nbt != itemStack.nbt)
    modifies fake, fake.nbt
    ensures fake.Tag() == ProjectedTag(old(fake.Tag()), HasBiome(itemStack.Tag()), IsCreative(viewer), tipJson)
    ensures fake.nbt == old(fake.nbt) || fresh(fake.nbt)
    ensures fake.count == old(fake.count)
    ensures itemStack.Tag() == old(itemStack.Tag())
  {
    if itemStack.nbt != null && itemStack.nbt.Contains(BIOME_NAME_KEY) {
      fake.AddEnchantment(GLINT_ENCHANTMENT, 0);
      if IsCreative(viewer) {
        AddCreativeTip(fake, tipJson);
      }
    }
  }

  /**
   * `getPolymerItemStack` as written: the viewer is dereferenced whenever the
   * compass tracks a biome, so a missing viewer throws (`threw`) after the
   * glint has been added.
   */
  method GetPolymerItemStackAsWritten(itemStack: ItemStack, fake: ItemStack, viewer: Option<ServerPlayer>, tipJson: string)
    returns (threw: bool)
    requires fake != itemStack && (fake.nbt != null ==> fake.nbt != itemStack.nbt)
    modifies fake, fake.nbt
    ensures threw <==> HasBiome(old(itemStack.Tag())) && viewer.None?
    ensures threw ==> fake.Tag() == Some(Enchanted(OrEmpty(old(fake.Tag())), GLINT_ENCHANTMENT, 0))
    ensures !threw ==> fake.Tag() == ProjectedTag(old(fake.Tag()), HasBiome(itemStack.Tag()), IsCreative(viewer), tipJson)
    ensures fake.nbt == old(fake.nbt) || fresh(fake.nbt)
    ensures fake.count == old(fake.count)
    ensures itemStack.Tag() == old(itemStack.Tag())
  {
    threw := false;
    if itemStack.nbt != null && itemStack.nbt.Contains(BIOME_NAME_KEY) {
      fake.AddEnchantment(GLINT_ENCHANTMENT, 0);
      if viewer.None? {
        threw := true;
        return;
      }
      if viewer.value.creative {
        AddCreativeTip(fake, tipJson);
      }
    }
  }
}
