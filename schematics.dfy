/** The decoder's result types (crates/schematics/src/lib.rs). */
module Schematics {
  import opened Nbt

  /** A decoded region: its extents, palette and entities as JSON text, voxel data and block entities. */
  datatype Schematic = Schematic(
    w: i16,
    h: i16,
    l: i16,
    palette: string,
    blockEntities: seq<BlockEntitySchematic>,
    data: seq<i8>,
    entities: seq<string>)

  /** One block entity: its decoded payload, its block id and its position (any number of components). */
  datatype BlockEntitySchematic = BlockEntitySchematic(data: BlockEntityData, id: string, pos: seq<i32>)

  datatype SchematicError =
    | InvalidFormat(message: string)
    | FileNotFound(message: string)
    | ParseError(message: string)
    | UnsupportedVersion(version: u32)

  /**
   * A block entity's payload. Only `Sign` and `Default` are produced by the
   * dispatcher; the other variants are declared by the library and kept here
   * with their names as the library spells them.
   */
  datatype BlockEntityData =
    | Sign(sign: SignBlockEntityData)
    | Barrel(string)
    | Beacon(string)
    | Bed(string)
    | Beehive(string)
    | Bell(string)
    | BlastFurnance(string)
    | BrewingStand(string)
    | CampFire(string)
    | ChiseledBookShelf(string)
    | Chest(string)
    | Comparator(string)
    | CommandBlock(string)
    | Conduit(string)
    | DayLightDetector(string)
    | Dispenser(string)
    | Dropper(string)
    | EnchantingTable(string)
    | EnderChest(string)
    | EndGateway(string)
    | EndPortal(string)
    | Furnance(string)
    | Hopper(string)
    | JigSaw(string)
    | JukeBox(string)
    | Lectern(string)
    | MobSpawner(string)
    | Piston(string)
    | ShulkerBox(string)
    | Skull(string)
    | Smoker(string)
    | SoulCampFire(string)
    | StructureBLock(string)
    | TrappedChest(string)
    | Default(fallback: DefaultBlockEntityData)

  /** The payload of any block entity the dispatcher does not recognise: just its id. */
  datatype DefaultBlockEntityData = DefaultBlockEntityData(id: string)

  datatype SignBlockEntityData = SignBlockEntityData(
    backText: SignTextData,
    frontText: SignTextData,
    id: string,
    isWaxed: i8)

  /** One side of a sign. */
  datatype SignTextData = SignTextData(color: string, hasGlowingText: i8, messages: seq<string>)
}
