/**
 * Material ids: blocks 0..158, items 256..408, music discs 2256..2267, and
 * the block property sets (solid, transparent, flammable, burnable,
 * occluding, affected by gravity).
 */
module Material {
  import opened Integers

  /** `Material` is a Go `uint`. */
  type Material = nat

  const MinBlock: Material := 0
  const MaxBlock: Material := 158
  const MinItem: Material := 256
  const MaxItem: Material := 408
  const MinDisc: Material := 2256
  const MaxDisc: Material := 2267

  // The block ids, in id order.
  const Air: Material := 0
  const Stone: Material := 1
  const Grass: Material := 2
  const Dirt: Material := 3
  const Cobblestone: Material := 4
  const WoodPlanks: Material := 5
  const Sapling: Material := 6
  const Bedrock: Material := 7
  const Water: Material := 8
  const WaterStatic: Material := 9
  const Lava: Material := 10
  const LavaStatic: Material := 11
  const Sand: Material := 12
  const Gravel: Material := 13
  const OreGold: Material := 14
  const OreIron: Material := 15
  const OreCoal: Material := 16
  const Wood: Material := 17
  const Leaves: Material := 18
  const Sponge: Material := 19
  const Glass: Material := 20
  const OreLapisLazuli: Material := 21
  const LapisLazuli: Material := 22
  const Dispenser: Material := 23
  const Sandstone: Material := 24
  const Note: Material := 25
  const Bed: Material := 26
  const RailPowered: Material := 27
  const RailDetector: Material := 28
  const StickyPiston: Material := 29
  const Cobweb: Material := 30
  const TallGrass: Material := 31
  const DeadBush: Material := 32
  const Piston: Material := 33
  const PistonExtension: Material := 34
  const Wool: Material := 35
  const PistonBlockMoved: Material := 36
  const FlowerYellow: Material := 37
  const FlowerRed: Material := 38
  const MushroomBrown: Material := 39
  const MushroomRed: Material := 40
  const Gold: Material := 41
  const Iron: Material := 42
  const SlabDouble: Material := 43
  const Slab: Material := 44
  const Brick: Material := 45
  const Tnt: Material := 46
  const Bookshelf: Material := 47
  const MossStone: Material := 48
  const Obsidian: Material := 49
  const Torch: Material := 50
  const Fire: Material := 51
  const MonsterSpawner: Material := 52
  const StairsWoodOak: Material := 53
  const Chest: Material := 54
  const RedstoneWire: Material := 55
  const OreDiamond: Material := 56
  const Diamond: Material := 57
  const CraftingTable: Material := 58
  const Wheat: Material := 59
  const Farmland: Material := 60
  const Furnace: Material := 61
  const FurnaceOn: Material := 62
  const SignPost: Material := 63
  const DoorWood: Material := 64
  const Ladder: Material := 65
  const Rail: Material := 66
  const StairsCobblestone: Material := 67
  const SignWall: Material := 68
  const Lever: Material := 69
  const PlateStone: Material := 70
  const DoorIron: Material := 71
  const PlateWood: Material := 72
  const OreRedstone: Material := 73
  const OreRedstoneOn: Material := 74
  const RedstoneTorch: Material := 75
  const RedstoneTorchOn: Material := 76
  const ButtonStone: Material := 77
  const Snow: Material := 78
  const Ice: Material := 79
  const BlockSnow: Material := 80
  const Cactus: Material := 81
  const Clay: Material := 82
  const SugarCane: Material := 83
  const Jukebox: Material := 84
  const Fence: Material := 85
  const Pumpkin: Material := 86
  const Netherrack: Material := 87
  const SoulSand: Material := 88
  const Glowstone: Material := 89
  const PortalNether: Material := 90
  const JackOLantern: Material := 91
  const Cake: Material := 92
  const RedstoneRepeater: Material := 93
  const RedstoneRepeaterOn: Material := 94
  const ChestLocked: Material := 95
  const Trapdoor: Material := 96
  const EggMonster: Material := 97
  const StoneBrick: Material := 98
  const MushroomBrownHuge: Material := 99
  const MushroomRedHuge: Material := 100
  const IronBars: Material := 101
  const GlassPane: Material := 102
  const Melon: Material := 103
  const PumpkinStem: Material := 104
  const MelonStem: Material := 105
  const Vine: Material := 106
  const FenceGate: Material := 107
  const StairsBrick: Material := 108
  const StairsStoneBrick: Material := 109
  const Mycelium: Material := 110
  const LilyPad: Material := 111
  const NetherBrick: Material := 112
  const NetherBrickFence: Material := 113
  const StairsNetherBrick: Material := 114
  const NetherWart: Material := 115
  const EnchantmentTable: Material := 116
  const BrewingStand: Material := 117
  const Cauldron: Material := 118
  const PortalEnd: Material := 119
  const BlockPortalEnd: Material := 120
  const EndStone: Material := 121
  const EggDragon: Material := 122
  const RedstoneLamp: Material := 123
  const RedstoneLampOn: Material := 124
  const SlabDoubleWood: Material := 125
  const SlabWood: Material := 126
  const Cocoa: Material := 127
  const StairsSandstone: Material := 128
  const OreEmerald: Material := 129
  const ChestEnder: Material := 130
  const TripwireHook: Material := 131
  const Tripwire: Material := 132
  const Emerald: Material := 133
  const StairsSpruceWood: Material := 134
  const StairsBirchWood: Material := 135
  const StairsJungleWood: Material := 136
  const Command: Material := 137
  const Beacon: Material := 138
  const CobblestoneWall: Material := 139
  const FlowerPot: Material := 140
  const Carrot: Material := 141
  const Potato: Material := 142
  const ButtonWood: Material := 143
  const Skull: Material := 144
  const Anvil: Material := 145
  const ChestTrapped: Material := 146
  const WeightedPlateLight: Material := 147
  const WeightedPlateHeavy: Material := 148
  const RedstoneComparator: Material := 149
  const RedstoneComparatorOn: Material := 150
  const DaylightSensor: Material := 151
  const Redstone: Material := 152
  const OreQuartz: Material := 153
  const Hopper: Material := 154
  const Quartz: Material := 155
  const StairsQuartz: Material := 156
  const RailActivator: Material := 157
  const Dropper: Material := 158

  /** The blocks listed by `IsSolid`. */
  predicate SolidCase(m: Material)
  {
    m == Stone || m == Grass || m == Dirt || m == Cobblestone || m == WoodPlanks || m == Bedrock ||
    m == Sand || m == Gravel || m == OreGold || m == OreIron || m == OreCoal || m == Wood ||
    m == Leaves || m == Sponge || m == Glass || m == OreLapisLazuli || m == LapisLazuli ||
    m == Dispenser || m == Sandstone || m == Note || m == Bed || m == Piston ||
    m == PistonExtension || m == Wool || m == PistonBlockMoved || m == Gold || m == Iron ||
    m == SlabDouble || m == Slab || m == Brick || m == Tnt || m == Bookshelf || m == MossStone ||
    m == Obsidian || m == MonsterSpawner || m == StairsWoodOak || m == Chest || m == OreDiamond ||
    m == Diamond || m == CraftingTable || m == Wheat || m == Furnace || m == FurnaceOn ||
    m == SignPost || m == DoorWood || m == StairsCobblestone || m == SignWall || m == PlateStone ||
    m == DoorIron || m == PlateWood || m == OreRedstone || m == OreRedstoneOn || m == Ice ||
    m == BlockSnow || m == Cactus || m == Clay || m == Jukebox || m == Fence || m == Pumpkin ||
    m == Netherrack || m == SoulSand || m == Glowstone || m == JackOLantern || m == Cake ||
    m == ChestLocked || m == Trapdoor || m == EggMonster || m == StoneBrick ||
    m == MushroomBrownHuge || m == MushroomRedHuge || m == IronBars || m == GlassPane ||
    m == Melon || m == FenceGate || m == StairsBrick || m == StairsStoneBrick || m == Mycelium ||
    m == NetherBrick || m == NetherBrickFence || m == StairsNetherBrick || m == EnchantmentTable ||
    m == BrewingStand || m == Cauldron || m == PortalEnd || m == EndStone || m == EggDragon ||
    m == RedstoneLamp || m == RedstoneLampOn || m == SlabDoubleWood || m == SlabWood ||
    m == StairsSandstone || m == OreEmerald || m == ChestEnder || m == Emerald ||
    m == StairsSpruceWood || m == StairsBirchWood || m == StairsJungleWood || m == Command ||
    m == Beacon || m == CobblestoneWall || m == Anvil || m == ChestTrapped ||
    m == WeightedPlateLight || m == WeightedPlateHeavy || m == DaylightSensor || m == Redstone ||
    m == OreQuartz || m == Hopper || m == Quartz || m == StairsQuartz || m == Dropper
  }

  /** The blocks listed by `IsTransparent`. */
  predicate TransparentCase(m: Material)
  {
    m == Air || m == Sapling || m == RailPowered || m == RailDetector || m == TallGrass ||
    m == DeadBush || m == FlowerYellow || m == FlowerRed || m == MushroomBrown ||
    m == MushroomRed || m == Torch || m == Fire || m == RedstoneWire || m == Wheat || m == Ladder ||
    m == Rail || m == Lever || m == RedstoneTorch || m == RedstoneTorchOn || m == ButtonStone ||
    m == Snow || m == SugarCane || m == PortalNether || m == RedstoneRepeater ||
    m == RedstoneRepeaterOn || m == PumpkinStem || m == MelonStem || m == Vine || m == LilyPad ||
    m == NetherWart || m == PortalEnd || m == Cocoa || m == TripwireHook || m == Tripwire ||
    m == FlowerPot || m == Carrot || m == Potato || m == ButtonWood || m == Skull ||
    m == RedstoneComparator || m == RedstoneComparatorOn || m == RailActivator
  }

  /** The blocks listed by `IsFlammable`. */
  predicate FlammableCase(m: Material)
  {
    m == WoodPlanks || m == Wood || m == Leaves || m == Note || m == Bed || m == TallGrass ||
    m == DeadBush || m == Wool || m == Tnt || m == Bookshelf || m == StairsWoodOak || m == Chest ||
    m == CraftingTable || m == SignPost || m == DoorWood || m == SignWall || m == PlateWood ||
    m == Jukebox || m == Fence || m == ChestLocked || m == Trapdoor || m == MushroomBrownHuge ||
    m == MushroomRedHuge || m == Vine || m == FenceGate || m == SlabDoubleWood || m == SlabWood ||
    m == StairsSpruceWood || m == StairsBirchWood || m == StairsJungleWood || m == ChestTrapped ||
    m == DaylightSensor
  }

  /** The blocks listed by `IsBurnable`. */
  predicate BurnableCase(m: Material)
  {
    m == WoodPlanks || m == Wood || m == Leaves || m == TallGrass || m == Wool || m == Tnt ||
    m == Bookshelf || m == StairsWoodOak || m == Fence || m == Vine || m == SlabDoubleWood ||
    m == SlabWood || m == StairsSpruceWood || m == StairsBirchWood || m == StairsJungleWood
  }

  /** The blocks listed by `IsOccluding`. */
  predicate OccludingCase(m: Material)
  {
    m == Stone || m == Grass || m == Dirt || m == Cobblestone || m == WoodPlanks || m == Bedrock ||
    m == Sand || m == Gravel || m == OreGold || m == OreIron || m == OreCoal || m == Wood ||
    m == Sponge || m == OreLapisLazuli || m == LapisLazuli || m == Dispenser || m == Sandstone ||
    m == Note || m == Wool || m == Gold || m == Iron || m == SlabDouble || m == Brick ||
    m == Bookshelf || m == MossStone || m == Obsidian || m == MonsterSpawner || m == OreDiamond ||
    m == Diamond || m == CraftingTable || m == Furnace || m == FurnaceOn || m == OreRedstone ||
    m == OreRedstoneOn || m == BlockSnow || m == Clay || m == Jukebox || m == Pumpkin ||
    m == Netherrack || m == SoulSand || m == JackOLantern || m == ChestLocked || m == EggMonster ||
    m == StoneBrick || m == MushroomBrownHuge || m == MushroomRedHuge || m == Melon ||
    m == Mycelium || m == NetherBrick || m == PortalEnd || m == EndStone || m == RedstoneLamp ||
    m == RedstoneLampOn || m == SlabDoubleWood || m == OreEmerald || m == Emerald || m == Command ||
    m == OreQuartz || m == Quartz || m == Dropper
  }

  /** The blocks listed by `HasGravity`. */
  predicate GravityCase(m: Material)
  {
    m == Sand || m == Gravel || m == Anvil
  }

  /** Go compares the unsigned `m >= MinBlock` too, which always holds. */
  predicate IsBlock(m: Material) { MinBlock <= m <= MaxBlock }

  predicate IsDisc(m: Material) { MinDisc <= m <= MaxDisc }

  /** The item range, and the music discs, which sit in a range of their own. */
  predicate IsItem(m: Material)
  {
    if MinItem <= m <= MaxItem then true
    else if IsDisc(m) then true
    else false
  }

  /** A negative id or one outside every range is `Air`; any other id is its own material. */
  function FromId(id: Int64): (m: Material)
  {
    if id < MinBlock as int then Air
    else
      var m: Material := id;
      if IsBlock(m) || IsItem(m) || IsDisc(m) then m else Air
  }

  predicate IsSolid(m: Material)
  {
    if !IsBlock(m) || m == Air then false else SolidCase(m)
  }

  predicate IsTransparent(m: Material)
  {
    if !IsBlock(m) then false else TransparentCase(m)
  }

  predicate IsFlammable(m: Material)
  {
    if !IsBlock(m) then false else FlammableCase(m)
  }

  predicate IsBurnable(m: Material)
  {
    if !IsBlock(m) then false else BurnableCase(m)
  }

  predicate IsOccluding(m: Material)
  {
    if !IsBlock(m) then false else OccludingCase(m)
  }

  predicate HasGravity(m: Material)
  {
    if !IsBlock(m) then false else GravityCase(m)
  }

  /** Blocks, items and discs by range: discs are items, and no block is an item. */
  lemma Classes(m: Material)
    ensures IsBlock(m) <==> m <= 158
    ensures IsDisc(m) <==> 2256 <= m <= 2267
    ensures IsDisc(m) ==> IsItem(m)
    ensures IsItem(m) <==> 256 <= m <= 408 || 2256 <= m <= 2267
    ensures !(IsBlock(m) && IsItem(m))
  {
  }

  /**
   * `FromId` yields the id itself exactly when it names a block, an item or
   * a disc, and `Air` otherwise; either way the result names a block, an
   * item or a disc.
   */
  lemma FromIdExact(id: Int64)
    ensures FromId(id) == id <==> 0 <= id <= 158 || 256 <= id <= 408 || 2256 <= id <= 2267
    ensures FromId(id) != id ==> FromId(id) == Air
    ensures IsBlock(FromId(id)) || IsItem(FromId(id))
  {
  }

  /** Over each range `FromId` stays in its class. */
  lemma FromIdRanges(id: Int64)
    ensures MinBlock <= id <= MaxBlock ==> IsBlock(FromId(id))
    ensures MinItem <= id <= MaxItem ==> IsItem(FromId(id))
    ensures MinDisc <= id <= MaxDisc ==> IsDisc(FromId(id))
  {
  }

  lemma FromIdExamples()
    ensures FromId(-1) == Air && FromId(0) == Air && FromId(7) == Bedrock
    ensures FromId(346) == 346 && FromId(2260) == 2260
    ensures FromId(200) == Air && FromId(5000) == Air
  {
  }

  /** Only blocks carry block properties. */
  lemma NonBlocksHaveNoProperties(m: Material)
    requires !IsBlock(m)
    ensures !IsSolid(m) && !IsTransparent(m) && !IsFlammable(m)
    ensures !IsBurnable(m) && !IsOccluding(m) && !HasGravity(m)
  {
  }

  /** Whatever can burn away can catch fire. */
  lemma BurnableIsFlammable(m: Material)
    ensures IsBurnable(m) ==> IsFlammable(m)
  {
  }

  /** Blocks that hide what is behind them and blocks that fall are solid. */
  lemma OccludingAndFallingAreSolid(m: Material)
    ensures IsOccluding(m) ==> IsSolid(m)
    ensures HasGravity(m) ==> IsSolid(m)
  {
    if IsOccluding(m) {
      assert OccludingCase(m);
      assert SolidCase(m);
    }
  }

  /** Air lets light through and is not solid; sand, gravel and anvils fall. */
  lemma AirAndFalling()
    ensures !IsSolid(Air) && IsTransparent(Air) && !IsFlammable(Air)
    ensures HasGravity(Sand) && HasGravity(Gravel) && HasGravity(Anvil) && !HasGravity(Stone)
  {
  }
}
