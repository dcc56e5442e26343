/**
 * The schematic decoder (crates/schematics/src/decode.rs): the gzip check on
 * the input bytes, then the projection of the parsed NBT tree onto a
 * `Schematic`. Each step matches one exact variant or fails with
 * `InvalidFormat`, in a fixed order. The block-entity list and the entity
 * list are unwrapped, so their errors abort the decode (`Panic`) rather than
 * being returned (`Fail`).
 *
 * The gzip codec, the binary NBT parser and the JSON serialiser are foreign
 * code: they are parameters here.
 */
module Decode {
  import opened Wrappers
  import opened Nbt
  import opened Schematics
  import BlockEntity

  /** The two magic bytes ID1, ID2 that open every gzip member (section 2.3.1 of RFC 1952). */
  const GzipMagic: seq<u8> := [0x1F, 0x8B]

  /** The messages the decoder attaches to its errors. */
  const NoMessage: string := ""
  const NotACompound: string := "Expected Compound value"
  const SerializeFailed: string := "Failed to serialize compound"

  /**
   * What a call of `Schematic::from_bytes` ends in: a value, a returned
   * error, or a panic raised by `unwrap` on an error.
   */
  datatype Outcome<+T> = Done(value: T) | Fail(error: SchematicError) | Panic(error: SchematicError) {

    predicate IsFailure() {
      !Done?
    }

    function PropagateFailure<U>(): Outcome<U>
      requires !Done?
    {
      if Fail? then Fail(error) else Panic(error)
    }

    function Extract(): T
      requires Done?
    {
      value
    }
  }

  /** `?` in `from_bytes`: an error is returned. */
  function Propagate<T>(r: Result<T, SchematicError>): (o: Outcome<T>)
    ensures o.Done? <==> r.Ok?
    ensures o.Done? ==> o.value == r.value
    ensures !o.Done? ==> o == Fail(r.error)
  {
    match r
    case Ok(x) => Done(x)
    case Err(e) => Fail(e)
  }

  /** `.unwrap()`: an error panics. */
  function Unwrap<T>(r: Result<T, SchematicError>): (o: Outcome<T>)
    ensures o.Done? <==> r.Ok?
    ensures o.Done? ==> o.value == r.value
    ensures !o.Done? ==> o == Panic(r.error)
  {
    match r
    case Ok(x) => Done(x)
    case Err(e) => Panic(e)
  }

  // ----- Input format -----

  /** Whether `from_bytes` takes the gzip branch. */
  predicate IsGzip(bytes: seq<u8>)
    ensures IsGzip(bytes) <==> |bytes| >= 2 && bytes[0] == 0x1F && bytes[1] == 0x8B
  {
    |bytes| >= 2 && bytes[..2] == GzipMagic
  }

  // ----- One-variant matches: `match v { Some(Value::X(x)) => x, _ => return Err(InvalidFormat("")) }` -----

  function ExpectShort(v: Option<Value>): (r: Result<i16, SchematicError>)
    ensures r.Ok? <==> v.Some? && v.value.Short?
    ensures r.Ok? ==> r.value == v.value.shortVal
    ensures r.Err? ==> r.error == InvalidFormat(NoMessage)
  {
    match v
    case Some(Short(x)) => Ok(x)
    case _ => Err(InvalidFormat(NoMessage))
  }

  function ExpectString(v: Option<Value>): (r: Result<string, SchematicError>)
    ensures r.Ok? <==> v.Some? && v.value.String?
    ensures r.Ok? ==> r.value == v.value.str
    ensures r.Err? ==> r.error == InvalidFormat(NoMessage)
  {
    match v
    case Some(String(x)) => Ok(x)
    case _ => Err(InvalidFormat(NoMessage))
  }

  function ExpectByteArray(v: Option<Value>): (r: Result<seq<i8>, SchematicError>)
    ensures r.Ok? <==> v.Some? && v.value.ByteArray?
    ensures r.Ok? ==> r.value == v.value.bytes
    ensures r.Err? ==> r.error == InvalidFormat(NoMessage)
  {
    match v
    case Some(ByteArray(x)) => Ok(x)
    case _ => Err(InvalidFormat(NoMessage))
  }

  function ExpectIntArray(v: Option<Value>): (r: Result<seq<i32>, SchematicError>)
    ensures r.Ok? <==> v.Some? && v.value.IntArray?
    ensures r.Ok? ==> r.value == v.value.ints
    ensures r.Err? ==> r.error == InvalidFormat(NoMessage)
  {
    match v
    case Some(IntArray(x)) => Ok(x)
    case _ => Err(InvalidFormat(NoMessage))
  }

  function ExpectList(v: Option<Value>): (r: Result<seq<Value>, SchematicError>)
    ensures r.Ok? <==> v.Some? && v.value.List?
    ensures r.Ok? ==> r.value == v.value.elems
    ensures r.Err? ==> r.error == InvalidFormat(NoMessage)
  {
    match v
    case Some(List(x)) => Ok(x)
    case _ => Err(InvalidFormat(NoMessage))
  }

  function ExpectCompound(v: Option<Value>): (r: Result<Compound, SchematicError>)
    ensures r.Ok? <==> v.Some? && v.value.Compound?
    ensures r.Ok? ==> r.value == v.value.entries
    ensures r.Err? ==> r.error == InvalidFormat(NoMessage)
  {
    match v
    case Some(Compound(x)) => Ok(x)
    case _ => Err(InvalidFormat(NoMessage))
  }

  // ----- Lists -----

  /**
   * `xs.into_iter().map(f).collect::<Result<Vec<_>, _>>()`: every image in
   * order when all succeed, otherwise the error of the first that fails.
   */
  function Collect<A, B, E(==)>(xs: seq<A>, f: A -> Result<B, E>): (r: Result<seq<B>, E>)
    ensures r.Ok? <==> forall i :: 0 <= i < |xs| ==> f(xs[i]).Ok?
    ensures r.Ok? ==> |r.value| == |xs| && forall i :: 0 <= i < |xs| ==> r.value[i] == f(xs[i]).value
    ensures r.Err? ==>
      exists k :: 0 <= k < |xs| && f(xs[k]).Err? && f(xs[k]).error == r.error
                  && forall j :: 0 <= j < k ==> f(xs[j]).Ok?
  {
    if xs == [] then Ok([])
    else
      match f(xs[0])
      case Err(e) => Err(e)
      case Ok(b) =>
        match Collect(xs[1..], f)
        case Err(e) =>
          assert forall j :: 0 < j < |xs| ==> xs[j] == xs[1..][j - 1];
          Err(e)
        case Ok(bs) => Ok([b] + bs)
  }

  /** `serde_json::to_string` of a compound, with its error mapped. */
  function ToJson(c: Compound, toJson: Compound -> Option<string>): Result<string, SchematicError> {
    match toJson(c)
    case Some(text) => Ok(text)
    case None => Err(ParseError(SerializeFailed))
  }

  /** One element of the entity list: a compound, passed through as JSON text. */
  function EntityEntry(v: Value, toJson: Compound -> Option<string>): Result<string, SchematicError> {
    match v
    case Compound(c) => ToJson(c, toJson)
    case _ => Err(InvalidFormat(NotACompound))
  }

  /** `parse_vec_compound`. */
  function ParseVecCompound(list: seq<Value>, toJson: Compound -> Option<string>): (r: Result<seq<string>, SchematicError>)
    ensures r.Ok? <==> forall i :: 0 <= i < |list| ==> list[i].Compound? && toJson(list[i].entries).Some?
    ensures r.Ok? ==>
      |r.value| == |list| && forall i :: 0 <= i < |list| ==> r.value[i] == toJson(list[i].entries).value
    ensures r.Err? ==>
      exists k :: 0 <= k < |list|
                  && !(list[k].Compound? && toJson(list[k].entries).Some?)
                  && r.error == (if list[k].Compound? then ParseError(SerializeFailed) else InvalidFormat(NotACompound))
                  && forall j :: 0 <= j < k ==> list[j].Compound? && toJson(list[j].entries).Some?
  {
    Collect(list, v => EntityEntry(v, toJson))
  }

  /** `parse_compound_block`: one block-entity record. */
  function ParseCompoundBlock(compound: Compound): (r: Result<BlockEntitySchematic, SchematicError>)
    ensures r.Ok? <==>
      HasCompound(compound, "Data") && HasString(compound, "Id") && HasIntArray(compound, "Pos")
    ensures r.Err? ==> r.error == InvalidFormat(NoMessage)
    ensures r.Ok? ==>
      && r.value.id == compound["Id"].str
      && r.value.pos == compound["Pos"].ints
      && r.value.data == BlockEntity.ParseBlockEntityData(compound["Data"].entries)
  {
    var data :- ExpectCompound(Get(compound, "Data"));
    var id :- ExpectString(Get(compound, "Id"));
    var blockEntityData := ParseBlockEntityData(data);
    var pos :- ExpectIntArray(Get(compound, "Pos"));
    Ok(BlockEntitySchematic(blockEntityData, id, pos))
  }

  /** One element of the block-entity list: a compound, decoded as a record. */
  function BlockEntry(v: Value): Result<BlockEntitySchematic, SchematicError> {
    match v
    case Compound(c) => ParseCompoundBlock(c)
    case _ => Err(InvalidFormat(NotACompound))
  }

  /** `parse_vec_block`. */
  function ParseVecBlock(list: seq<Value>): (r: Result<seq<BlockEntitySchematic>, SchematicError>)
    ensures r.Ok? <==> forall i :: 0 <= i < |list| ==> list[i].Compound? && ParseCompoundBlock(list[i].entries).Ok?
    ensures r.Ok? ==>
      |r.value| == |list| && forall i :: 0 <= i < |list| ==> r.value[i] == ParseCompoundBlock(list[i].entries).value
    ensures r.Err? ==> r.error.InvalidFormat?
    ensures r.Err? ==>
      exists k :: 0 <= k < |list|
                  && !(list[k].Compound? && ParseCompoundBlock(list[k].entries).Ok?)
                  && r.error == (if list[k].Compound? then InvalidFormat(NoMessage) else InvalidFormat(NotACompound))
                  && forall j :: 0 <= j < k ==> list[j].Compound? && ParseCompoundBlock(list[j].entries).Ok?
  {
    Collect(list, BlockEntry)
  }

  // ----- The projection, stage by stage -----

  /** The root holds a `Schematic` compound. */
  predicate RootOk(nbt: Compound) {
    HasCompound(nbt, "Schematic")
  }

  function Root(nbt: Compound): Compound
    requires RootOk(nbt)
  {
    nbt["Schematic"].entries
  }

  /** ... with `Width`, `Height` and `Length` shorts. */
  predicate ExtentsOk(nbt: Compound) {
    && RootOk(nbt)
    && HasShort(Root(nbt), "Width")
    && HasShort(Root(nbt), "Height")
    && HasShort(Root(nbt), "Length")
  }

  /** ... and a `Blocks` compound holding a `BlockEntities` list. */
  predicate BlockListOk(nbt: Compound) {
    && ExtentsOk(nbt)
    && HasCompound(Root(nbt), "Blocks")
    && HasList(Blocks(nbt), "BlockEntities")
  }

  function Blocks(nbt: Compound): Compound
    requires RootOk(nbt) && HasCompound(Root(nbt), "Blocks")
  {
    Root(nbt)["Blocks"].entries
  }

  function BlockEntityList(nbt: Compound): seq<Value>
    requires BlockListOk(nbt)
  {
    Blocks(nbt)["BlockEntities"].elems
  }

  /** ... whose every element is a well-formed block-entity record. */
  predicate BlockEntitiesOk(nbt: Compound) {
    BlockListOk(nbt) && ParseVecBlock(BlockEntityList(nbt)).Ok?
  }

  /** ... and then a `Data` byte array and a `Palette` compound in `Blocks`, and an `Entities` list in the root. */
  predicate ContentsOk(nbt: Compound) {
    && BlockEntitiesOk(nbt)
    && HasByteArray(Blocks(nbt), "Data")
    && HasCompound(Blocks(nbt), "Palette")
    && HasList(Root(nbt), "Entities")
  }

  function Palette(nbt: Compound): Compound
    requires ContentsOk(nbt)
  {
    Blocks(nbt)["Palette"].entries
  }

  function EntityList(nbt: Compound): seq<Value>
    requires ContentsOk(nbt)
  {
    Root(nbt)["Entities"].elems
  }

  /** ... whose every element is a compound that serialises. */
  predicate EntitiesOk(nbt: Compound, toJson: Compound -> Option<string>) {
    ContentsOk(nbt) && ParseVecCompound(EntityList(nbt), toJson).Ok?
  }

  /**
   * The projection of a parsed tree: the part of `from_bytes` after the NBT
   * parser. Its outcome is fixed by the first stage that does not hold.
   */
  function FromTree(nbt: Compound, toJson: Compound -> Option<string>): (r: Outcome<Schematic>)
    ensures !RootOk(nbt) ==> r == Fail(InvalidFormat(NoMessage))
    ensures RootOk(nbt) && !ExtentsOk(nbt) ==> r == Fail(InvalidFormat(NoMessage))
    ensures ExtentsOk(nbt) && !BlockListOk(nbt) ==> r == Fail(InvalidFormat(NoMessage))
    ensures BlockListOk(nbt) && !BlockEntitiesOk(nbt) ==> r == Panic(ParseVecBlock(BlockEntityList(nbt)).error)
    ensures BlockEntitiesOk(nbt) && !ContentsOk(nbt) ==> r == Fail(InvalidFormat(NoMessage))
    ensures ContentsOk(nbt) && !EntitiesOk(nbt, toJson) ==> r == Panic(ParseVecCompound(EntityList(nbt), toJson).error)
    ensures EntitiesOk(nbt, toJson) && toJson(Palette(nbt)).None? ==> r == Fail(ParseError(SerializeFailed))
    ensures r.Done? <==> EntitiesOk(nbt, toJson) && toJson(Palette(nbt)).Some?
    ensures r.Done? ==>
      && r.value.w == Root(nbt)["Width"].shortVal
      && r.value.h == Root(nbt)["Height"].shortVal
      && r.value.l == Root(nbt)["Length"].shortVal
      && r.value.data == Blocks(nbt)["Data"].bytes
      && r.value.palette == toJson(Palette(nbt)).value
      && r.value.blockEntities == ParseVecBlock(BlockEntityList(nbt)).value
      && r.value.entities == ParseVecCompound(EntityList(nbt), toJson).value
  {
    var schematic :- Propagate(ExpectCompound(Get(nbt, "Schematic")));
    var width :- Propagate(ExpectShort(Get(schematic, "Width")));
    var height :- Propagate(ExpectShort(Get(schematic, "Height")));
    var length :- Propagate(ExpectShort(Get(schematic, "Length")));
    var blocks :- Propagate(ExpectCompound(Get(schematic, "Blocks")));
    var blockEntities :- Propagate(ExpectList(Get(blocks, "BlockEntities")));
    var vecBlockEntities :- Unwrap(ParseVecBlock(blockEntities));
    var data :- Propagate(ExpectByteArray(Get(blocks, "Data")));
    var palette :- Propagate(ExpectCompound(Get(blocks, "Palette")));
    var paletteMap := ToJson(palette, toJson);
    var entities :- Propagate(ExpectList(Get(schematic, "Entities")));
    var vecEntities :- Unwrap(ParseVecCompound(entities, toJson));
    var paletteText :- Propagate(paletteMap);
    Done(Schematic(width, height, length, paletteText, vecBlockEntities, data, vecEntities))
  }

  /**
   * `Schematic::from_bytes`. `gunzip` is what the gzip reader leaves in the
   * buffer (its read error is discarded); `parseNbt` is the binary NBT
   * parser, giving the root compound and its name; `toJson` is the JSON
   * serialiser.
   */
  function FromBytes(
    bytes: seq<u8>,
    gunzip: seq<u8> -> seq<u8>,
    parseNbt: seq<u8> -> Option<(Compound, string)>,
    toJson: Compound -> Option<string>): (r: Outcome<Schematic>)
    ensures IsGzip(bytes) && parseNbt(gunzip(bytes)).None? ==> r == Fail(ParseError(NoMessage))
    ensures !IsGzip(bytes) && parseNbt(bytes).None? ==> r == Fail(ParseError(NoMessage))
    ensures var payload := if IsGzip(bytes) then gunzip(bytes) else bytes;
            parseNbt(payload).Some? ==> r == FromTree(parseNbt(payload).value.0, toJson)
    ensures r.Fail? || r.Panic? ==> r.error.InvalidFormat? || r.error.ParseError?
  {
    var payload := if IsGzip(bytes) then gunzip(bytes) else bytes;
    match parseNbt(payload)
    case None => Fail(ParseError(NoMessage))
    case Some((nbt, _)) => FromTree(nbt, toJson)
  }

  // ----- The dispatcher as decode.rs writes it a second time -----

  /** The same dispatch as `BlockEntity.ParseBlockEntityData`, with each field read by a direct match. */
  function ParseBlockEntityData(compound: Compound): (r: BlockEntityData)
    ensures r == BlockEntity.ParseBlockEntityData(compound)
  {
    var id := StringOr(compound, "id", "");
    if id == "minecraft:sign" then
      var isWaxed := ByteOr(compound, "is_waxed");
      var frontText := CompoundOrEmpty(compound, "front_text");
      var frontColor := StringOr(frontText, "color", "yellow");
      var frontGlow := ByteOr(frontText, "has_glowing_text");
      var frontMessages := LinesOr(frontText, "messages");
      var backText := CompoundOrEmpty(compound, "back_text");
      var backColor := StringOr(backText, "color", "black");
      var backGlow := ByteOr(backText, "has_glowing_text");
      var backMessages := LinesOr(backText, "messages");
      Sign(SignBlockEntityData(
        SignTextData(backColor, backGlow, backMessages),
        SignTextData(frontColor, frontGlow, frontMessages),
        id,
        isWaxed))
    else
      Default(DefaultBlockEntityData(id))
  }

  // The field reads of decode.rs: `match c.get(key) { Some(Value::X(v)) => v, _ => default }`.

  function StringOr(c: Compound, key: string, default: string): (s: string)
    ensures s == if HasString(c, key) then c[key].str else default
  {
    match Get(c, key)
    case Some(String(v)) => v
    case _ => default
  }

  function ByteOr(c: Compound, key: string): (b: i8)
    ensures b == if HasByte(c, key) then c[key].byteVal else 0
  {
    match Get(c, key)
    case Some(Byte(v)) => v
    case _ => 0
  }

  function CompoundOrEmpty(c: Compound, key: string): (sub: Compound)
    ensures sub == if HasCompound(c, key) then c[key].entries else map[]
  {
    match Get(c, key)
    case Some(Compound(v)) => v
    case _ => map[]
  }

  function LinesOr(c: Compound, key: string): (lines: seq<string>)
    ensures lines == if HasList(c, key) then BlockEntity.MessageLines(c[key].elems) else []
  {
    match Get(c, key)
    case Some(List(l)) => TextLines(l)
    case _ => []
  }

  /** The message mapping of decode.rs, as a sequence comprehension. */
  function TextLines(list: seq<Value>): (lines: seq<string>)
    ensures lines == BlockEntity.MessageLines(list)
  {
    seq(|list|, i requires 0 <= i < |list| => match list[i] case String(text) => text case _ => "")
  }

  // ----- Properties across calls -----

  /** An input shorter than two bytes never takes the gzip branch. */
  lemma ShortInputIsRaw(bytes: seq<u8>, gunzip: seq<u8> -> seq<u8>, parseNbt: seq<u8> -> Option<(Compound, string)>,
                        toJson: Compound -> Option<string>)
    requires |bytes| < 2
    ensures !IsGzip(bytes)
    ensures FromBytes(bytes, gunzip, parseNbt, toJson) == FromBytes(bytes, _ => [], parseNbt, toJson)
  {
  }

  /** On raw input the gzip codec is never consulted. */
  lemma RawInputIgnoresCodec(bytes: seq<u8>, gunzip1: seq<u8> -> seq<u8>, gunzip2: seq<u8> -> seq<u8>,
                             parseNbt: seq<u8> -> Option<(Compound, string)>, toJson: Compound -> Option<string>)
    requires !IsGzip(bytes)
    ensures FromBytes(bytes, gunzip1, parseNbt, toJson) == FromBytes(bytes, gunzip2, parseNbt, toJson)
  {
  }

  /**
   * A binary NBT stream opens with a tag id (0 to 12), so it is never
   * mistaken for gzip.
   */
  lemma NbtStreamIsRaw(bytes: seq<u8>)
    requires |bytes| > 0 && bytes[0] <= 12
    ensures !IsGzip(bytes)
  {
  }

  /**
   * A compressed input and its decompressed stream decode to the same
   * outcome, provided the stream does not itself open with the gzip magic
   * (which `NbtStreamIsRaw` shows an NBT stream never does).
   */
  lemma CompressedAndRawAgree(compressed: seq<u8>, raw: seq<u8>, gunzip: seq<u8> -> seq<u8>,
                              parseNbt: seq<u8> -> Option<(Compound, string)>, toJson: Compound -> Option<string>)
    requires IsGzip(compressed) && gunzip(compressed) == raw
    requires !IsGzip(raw)
    ensures FromBytes(compressed, gunzip, parseNbt, toJson) == FromBytes(raw, gunzip, parseNbt, toJson)
  {
  }

  /**
   * A missing `Palette` is not always reported as `InvalidFormat`: a bad
   * block-entity list is unwrapped first and aborts the decode.
   */
  lemma BlockEntityPanicPreemptsPalette(toJson: Compound -> Option<string>)
    ensures var blocks := map["BlockEntities" := List([Byte(0)]), "Data" := ByteArray([])];
            var root := map["Width" := Short(1), "Height" := Short(1), "Length" := Short(1),
                            "Blocks" := Compound(blocks), "Entities" := List([])];
            FromTree(map["Schematic" := Compound(root)], toJson) == Panic(InvalidFormat(NotACompound))
  {
  }

  /** A block-entity position of any length is accepted and copied: here, two components. */
  lemma PosLengthUnchecked(data: Compound, id: string)
    ensures var record := map["Data" := Compound(data), "Id" := String(id), "Pos" := IntArray([7, -3])];
            ParseCompoundBlock(record) == Ok(BlockEntitySchematic(BlockEntity.ParseBlockEntityData(data), id, [7, -3]))
  {
  }
}
