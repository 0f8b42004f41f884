# Biome compass: tag model

A Dafny model of the biome compass item of the biome-compass mod. The compass records a tracked biome location in the item stack's tag compound under four namespaced keys:
- `biomecompass:biome_name`
- `biomecompass:biome_dimension`
- `biomecompass:biome_pos`
- `biomecompass:biome_tracked`

It mirrors position, dimension and tracked flag into the host compass's `LodestonePos`, `LodestoneDimension` and `LodestoneTracked` keys, so that the vanilla needle points at the location.

Tracking tags a single compass in place. For any other stack it takes one compass off and gives a fresh compass a copy of the tag. The tooltip, the use action and the disguised view shown to clients without the mod are decisions read from the tag.

Files and modules:
- `nbt.dfy`, module `Nbt`: the host tag format.
  - Elements are values of the `Value` datatype; Java `null` is the `Null` case.
  - A compound is the class `NbtCompound`, whose `entries` map the methods update in place.
  - Block positions are stored as `{X, Y, Z}` integer compounds.
- `host.dfy`, module `Host`: the host types the item works with.
  - `ItemStack` is a class with a mutable `count` and a shared, nullable `nbt` compound.
  - `WorldCodec` is the world-identifier codec, given as an encode function and a decode function.
  - It also holds tooltip text, players, and `addEnchantment`.
- `biome_compass_item.dfy`, module `BiomeCompassItem`: the item itself.
  - Each in-place operation is a method whose `ensures` ties the new state to a function of the old one: `WriteNbt` to `Written`, `WriteLodestoneNbt` to `Mirrored`, `AddCreativeTip` to `WithCreativeTip`, `GetPolymerItemStack` to `ProjectedTag`.
  - The read-only decisions are functions of the tag: `HasBiome`, `GetBiomeDimension`, `TooltipLines`, `Use`.
- `biome_compass_properties.dfy`, module `BiomeCompassProperties`: lemmas relating the operations, and client methods of the in-place operations.
  - The client methods show split non-aliasing, the worked examples and the null-viewer finding.

Host behaviour the model relies on, as the host version the mod targets has it:
- `NbtCompound.put` stores whatever it is handed, `null` included.
- `get` returns `null` for a missing key.
- `getCompound` and `getList` hand out a new empty element when the stored one has the wrong type.
- `addEnchantment` creates the tag when it is absent. It narrows the level to a signed byte and stores it as a short.
- The world codec fails to parse a `null` element, so a missing dimension key gives no dimension (`GetBiomeDimension`).
- `hasNbt` holds when the stack is not empty (its count is positive) and its tag exists and is not empty (`Host.ItemStack.HasNbt`).

Behaviour of the code the model keeps:
- When the codec fails, `writeNbt` does not unset the dimension key. It leaves whatever value was there before, or its absence (`DimensionKeptOnEncodeFailure`).
- `track` splits every stack whose count is not 1, not only counts above 1. A stack of count 0 ends at -1, and since `hasNbt` is false for the now empty stack, the new compass starts from an empty tag rather than a copy (`SplitSource`).
- The lodestone dimension key is always written. When the biome dimension key is absent, it holds the `null` that `get` returned (`FailedEncodeLeavesNoDimension`).
- A tag that has a name but no position: the tooltip shows nothing, since it checks both keys. The creative shortcut checks only the position key. `hasBiome` checks only the name key.

## Model

| member | source | states |
|---|---|---|
| `Nbt.FromBlockPos` | src/main/java/dev/mayaqq/biomecompass/item/BiomeCompassItem.java:57 | the stored position is a compound from which `toBlockPos` reads back exactly the position written |
| `BiomeCompassItem.HasBiome` | src/main/java/dev/mayaqq/biomecompass/item/BiomeCompassItem.java:47-49 | true only when a tag exists, and then exactly when it holds the biome name key |
| `BiomeCompassItem.GetBiomeDimension` | src/main/java/dev/mayaqq/biomecompass/item/BiomeCompassItem.java:51-53 | the codec's decoding of the stored dimension element; a missing key, or a stored null, gives no dimension |
| `BiomeCompassItem.Mirrored` | src/main/java/dev/mayaqq/biomecompass/item/BiomeCompassItem.java:64-68 | the three lodestone keys are present afterwards and equal the biome position, the biome dimension and the tracked flag; every other key is unchanged |
| `BiomeCompassItem.Written` | src/main/java/dev/mayaqq/biomecompass/item/BiomeCompassItem.java:55-62 | the position key holds the position and the tracked key `true`; the name is set when given and kept otherwise; the dimension is set when the encoding succeeds and kept otherwise; the mirror holds with the lodestone tracked flag `true`; keys other than the seven location keys are unchanged |
| `BiomeCompassItem.WriteNbt` | src/main/java/dev/mayaqq/biomecompass/item/BiomeCompassItem.java:55-62 | the in-place writes leave the compound holding `Written` of its old contents, with the codec's result for the world |
| `BiomeCompassItem.WriteLodestoneNbt` | src/main/java/dev/mayaqq/biomecompass/item/BiomeCompassItem.java:64-68 | the in-place copy leaves the compound holding `Mirrored` of its old contents |
| `BiomeCompassItem.SplitSource` | src/main/java/dev/mayaqq/biomecompass/item/BiomeCompassItem.java:79 | after the decrement, the split-off compass starts from the remaining stack's tag when that stack is still non-empty (count above 0) and has a tag, and from an empty tag otherwise |
| `BiomeCompassItem.Track` | src/main/java/dev/mayaqq/biomecompass/item/BiomeCompassItem.java:70-87 | count 1: the same stack keeps count 1, its own tag object is written in place (created if absent), and no new stack results. Otherwise: the stack loses one item and its tag object and contents remain as before. A fresh count-1 biome compass carries a fresh tag, distinct from the old one, holding the old contents with the location written; it starts empty instead when the remaining stack has no tag, or is empty and so fails `hasNbt`. It is inserted when insertion is accepted and dropped otherwise |
| `BiomeCompassItem.TooltipLines` | src/main/java/dev/mayaqq/biomecompass/item/BiomeCompassItem.java:93-96 | two lines, the name line then the position line, exactly when a tag exists holding both the name and the position key; no lines otherwise |
| `BiomeCompassItem.AppendTooltip` | src/main/java/dev/mayaqq/biomecompass/item/BiomeCompassItem.java:90-97 | the tooltip list keeps its prior lines and gains exactly `TooltipLines` at its end; an empty stack (count 0 or less) adds nothing, since `hasNbt` is false for it |
| `BiomeCompassItem.Use` | src/main/java/dev/mayaqq/biomecompass/item/BiomeCompassItem.java:100-116 | a client-side user gets pass. A creative, sneaking server player holding a non-empty stack (count above 0, as `hasNbt` demands) whose tag has the position key is teleported to (x, 120, z) of the stored position; if that element is not a compound the cast fails. Any other server player gets the selection screen opened at index 0 |
| `BiomeCompassItem.WithCreativeTip` | src/main/java/dev/mayaqq/biomecompass/item/BiomeCompassItem.java:131-148 | the display block's lore is the prior string lore (or a new empty list) followed by the tip; the rest of the display block and of the tag is unchanged |
| `BiomeCompassItem.AddCreativeTip` | src/main/java/dev/mayaqq/biomecompass/item/BiomeCompassItem.java:131-148 | the in-place edits leave the fake stack's own tag object holding `WithCreativeTip` of its old contents |
| `BiomeCompassItem.ProjectedTag` | src/main/java/dev/mayaqq/biomecompass/item/BiomeCompassItem.java:127-150 | an untracked compass's disguised tag is the base tag unchanged; a tracked one always has a tag. What that tag holds is stated by `ProjectionCarriesGlint` (the glint, for any viewer), `ProjectionAddsOneLoreLine` (the tip, for a creative viewer) and `ProjectionKeepsDisplayForOtherViewers` (no tip otherwise) |
| `BiomeCompassItem.GetPolymerItemStack` | src/main/java/dev/mayaqq/biomecompass/item/BiomeCompassItem.java:124-153 | the fake stack's tag becomes `ProjectedTag` of its base tag; a missing viewer counts as not creative; the real stack's tag is unchanged |
| `BiomeCompassItem.GetPolymerItemStackAsWritten` | src/main/java/dev/mayaqq/biomecompass/item/BiomeCompassItem.java:124-153 | as the code is written: it throws exactly when the compass tracks a biome and there is no viewer, after the glint has been added; otherwise the result is as in the corrected method. In both cases the fake stack keeps its count and its tag object (or gets a fresh one), and the real stack is unchanged |
| `Host.ItemStack.AddEnchantment` | src/main/java/dev/mayaqq/biomecompass/item/BiomeCompassItem.java:128 | the stack afterwards has a tag (the old object, or a fresh one) holding `Enchanted` of the old contents: the entry is appended to the enchantment list, or becomes a new one-entry list when the key holds no list; a non-empty list of non-compounds is left unchanged, because `getList` then hands out a detached list |
| `BiomeCompassProperties.HasBiomeReadsNameKeyOnly` | src/main/java/dev/mayaqq/biomecompass/item/BiomeCompassItem.java:47-49 | two tags that agree on whether the name key is present agree on `hasBiome`; no tag means no biome |
| `BiomeCompassProperties.WrittenNameDecidesPresence` | src/main/java/dev/mayaqq/biomecompass/item/BiomeCompassItem.java:56 | a write with a name makes `hasBiome` true; a write without one leaves it as it was |
| `BiomeCompassProperties.DimensionRoundTrip` | src/main/java/dev/mayaqq/biomecompass/item/BiomeCompassItem.java:51-58 | with a codec whose decode undoes its encode, `getBiomeDimension` after a successful write returns the world written |
| `BiomeCompassProperties.DimensionKeptOnEncodeFailure` | src/main/java/dev/mayaqq/biomecompass/item/BiomeCompassItem.java:58 | after a failed encoding, `getBiomeDimension` returns what it returned before the write |
| `BiomeCompassProperties.FullWriteSetsAllModKeys` | src/main/java/dev/mayaqq/biomecompass/item/BiomeCompassItem.java:55-59 | on an empty compound, a named write with a successful encoding leaves all four mod keys present and the compass tracked |
| `BiomeCompassProperties.FailedEncodeLeavesNoDimension` | src/main/java/dev/mayaqq/biomecompass/item/BiomeCompassItem.java:58-66 | on an empty compound, a named write whose encoding fails leaves the compass tracked, the biome dimension key absent, the lodestone dimension key null, and no dimension to read back |
| `BiomeCompassProperties.MirrorHoldsAfterEveryWrite` | src/main/java/dev/mayaqq/biomecompass/item/BiomeCompassItem.java:55-68 | after any non-empty sequence of writes to one compound, the lodestone keys equal the mod keys and the lodestone tracked flag is `true` |
| `BiomeCompassProperties.ForeignKeysSurviveEveryWrite` | src/main/java/dev/mayaqq/biomecompass/item/BiomeCompassItem.java:55-68 | no sequence of writes changes a key outside the four mod keys and three lodestone keys |
| `BiomeCompassProperties.LastPositionWins` | src/main/java/dev/mayaqq/biomecompass/item/BiomeCompassItem.java:57-65 | after a sequence of writes, both the biome position key and the lodestone position key hold the last position written |
| `BiomeCompassProperties.TrackedCompassShowsLocation` | src/main/java/dev/mayaqq/biomecompass/item/BiomeCompassItem.java:93-96 | a compass written with a name shows the name line and the position line |
| `BiomeCompassProperties.PartialLocationShowsNothing` | src/main/java/dev/mayaqq/biomecompass/item/BiomeCompassItem.java:93 | a tag with only one of the name and position keys shows no lines |
| `BiomeCompassProperties.ShortcutTeleportsToStoredPosition` | src/main/java/dev/mayaqq/biomecompass/item/BiomeCompassItem.java:104-108 | after a write, a creative sneaking server player holding a non-empty stack is teleported to the written x and z at height 120 |
| `BiomeCompassProperties.OtherServerUseOpensSelection` | src/main/java/dev/mayaqq/biomecompass/item/BiomeCompassItem.java:111-112 | a server player who is not both creative and sneaking gets the selection screen and success, whatever the tag |
| `BiomeCompassProperties.CreativeTipAppendsToLore` | src/main/java/dev/mayaqq/biomecompass/item/BiomeCompassItem.java:136-145 | an existing string lore keeps its entries in order and ends with the tip |
| `BiomeCompassProperties.CreativeTipCreatesLore` | src/main/java/dev/mayaqq/biomecompass/item/BiomeCompassItem.java:132-145 | without a lore list, the lore becomes the tip alone |
| `BiomeCompassProperties.ProjectionAddsOneLoreLine` | src/main/java/dev/mayaqq/biomecompass/item/BiomeCompassItem.java:127-146 | a creative viewer's disguised view of a tracked compass has the base view's lore plus exactly one tip; the glint does not touch the lore |
| `BiomeCompassProperties.ProjectionCarriesGlint` | src/main/java/dev/mayaqq/biomecompass/item/BiomeCompassItem.java:127-128 | for any viewer, a tracked compass's disguised view has an enchantment list made of the base view's entries followed by the level-0 `minecraft:infinity` entry, when the base key holds no list or a list of compounds; only the enchantments and the display block differ from the base view |
| `BiomeCompassProperties.ProjectionKeepsDisplayForOtherViewers` | src/main/java/dev/mayaqq/biomecompass/item/BiomeCompassItem.java:127-130 | for a viewer who is not creative (or no viewer, under the correction), a tracked compass's disguised view keeps the base view's display block and lore, and differs from the base view only in its enchantments |
| `BiomeCompassProperties.ProjectTwice` | src/main/java/dev/mayaqq/biomecompass/item/BiomeCompassItem.java:124-153 | two disguised views built from equal base views of the same compass are equal, and the compass itself is untouched |
| `BiomeCompassProperties.SplitCopiesAreIndependent` | src/main/java/dev/mayaqq/biomecompass/item/BiomeCompassItem.java:76-81 | after a split, changing the new compass's tag leaves the remaining stack's tag alone, and the other way round |
| `BiomeCompassProperties.TrackSplitExample` | src/main/java/dev/mayaqq/biomecompass/item/BiomeCompassItem.java:72-85 | five untagged compasses tracking "Plains" at (100, 64, -200): four stay untagged, and the new compass holds the name, the position, the encoded dimension, `tracked` and the mirror |
| `BiomeCompassProperties.TrackInPlaceExample` | src/main/java/dev/mayaqq/biomecompass/item/BiomeCompassItem.java:72-74 | a single tagged compass keeps count 1 and its own tag object, gains the name, the position, the tracked flag and their lodestone mirror, keeps its unrelated entry, and no stack is created |
| `BiomeCompassProperties.NullViewerThrowsAsWritten` | src/main/java/dev/mayaqq/biomecompass/item/BiomeCompassItem.java:127-130 | as written, viewing a tracked compass with no player throws |
| `BiomeCompassProperties.NullViewerGetsGlintOnly` | src/main/java/dev/mayaqq/biomecompass/item/BiomeCompassItem.java:127-130 | with the correction, the same view gets the glint and no lore |

## Left out

- Sound: the lock sound that `track` plays is not modelled.
- Logging: the codec error that `writeNbt` logs is not modelled.
- Screen and teleport: opening the selection screen and requesting the teleport are the `Use` outcomes `SelectionOpened` and `Teleported`, not effects.
- The world-identifier codec's internals: `WorldCodec` stands for it, as an encode function and a decode function.
  - Its result includes what `resultOrPartial` returns.
  - `ValidCodec` assumes decode is a left inverse of encode.
- Inventory: insertion success is the input `insertAccepted`. How the inventory places or merges the stack, and how the player drops it, is not modelled.
- Text formatting: `TextHelper` formatting and the JSON form of the creative tip are opaque inputs (`Text` arguments, the `tipJson` string).
- Polymer plumbing: `getPolymerItem`, `getPolymerCustomModelData` and the model request in the constructor are registration plumbing and are left out.
  - The base disguised stack from `PolymerItem.super.getPolymerItemStack` is the input `fake`.
- BiomeCompass: the mod bootstrap in `BiomeCompass.java` is left out. Its namespace `biomecompass` is written into the key strings.
- Parent items: `super.appendTooltip` and `super.use` of the host item add nothing, and they are not modelled.
- Integer width: block coordinates and tag integers are unbounded. The source's 32-bit range is not modelled, and the fixed height 120 is in range.
- Nested aliasing: nested compounds and lists are values. The aliasing the source creates within one tag is not represented, because the item never mutates these nested elements afterwards. This covers:
  - the one position compound stored under both position keys;
  - the display block and lore list edited before being put back.
- GetPolymerItemStack: requires that the host's base stack and its tag are objects distinct from the real stack and its tag. The host builds the base stack as a copy; without this requirement the contract could not say the real stack is left unchanged.
- GetPolymerItemStackAsWritten: the same requirement as `GetPolymerItemStack`.
- Exceptions: Java exceptions are outcomes, `Failed` for `use` and `threw` for the disguised view. What the host does with them is not modelled.

## Findings

| source | as written | input that shows it | evidently intended | confidence | as-written member | corrected member |
|---|---|---|---|---|---|---|
| src/main/java/dev/mayaqq/biomecompass/item/BiomeCompassItem.java:124-130 | `player` is declared `@Nullable`, yet `player.isCreative()` is called whenever the stack tracks a biome | a compass whose tag holds the biome name key, viewed with a null player: a NullPointerException after the glint is added | a missing viewer is treated as not creative: glint only, no tip | medium, not executed | `BiomeCompassItem.GetPolymerItemStackAsWritten` (shown by `BiomeCompassProperties.NullViewerThrowsAsWritten`) | `BiomeCompassItem.GetPolymerItemStack` (shown by `BiomeCompassProperties.NullViewerGetsGlintOnly`) |
