# Sponge schematic decoder, modelled in Dafny

This project models the decoder of the `schematics` crate: it turns the bytes of a
Sponge Schematic file into a `Schematic` value. The model starts from the point
where the binary NBT parser has produced a generic value tree. It covers:

- the input-format check: gzip input is recognised by its two magic bytes
  `1F 8B`, as section 2.3.1 of RFC 1952 defines them;
- the projection of the root `Schematic` compound onto the result. The steps are the
  extents, `Blocks` with `BlockEntities`, `Data` and `Palette`, then `Entities`.
  Each step matches one exact NBT variant or fails with `InvalidFormat`;
- the block-entity records (`parse_compound_block`, `parse_vec_block`) and the
  entity list (`parse_vec_compound`);
- the block-entity dispatcher. The exact tag `minecraft:sign` gives a `Sign`,
  and each of its fields is read with a default. Every other tag gives
  `Default { id }`. The dispatcher is written twice in the crate, once in
  `block_entity.rs` and once in `decode.rs`. Both renderings are modelled,
  and the contract of the `decode.rs` one states that the two are equal.

Modules:

- `Wrappers` (`wrappers.dfy`) holds Rust's `Option` and `Result`.
- `Nbt` (`nbt.dfy`) holds the NBT value tree, the fixed-width integer ranges
  and the shape predicates the contracts use.
- `Schematics` (`schematics.dfy`) mirrors the result types of `lib.rs`. That
  includes the 33 payload variants that carry only a string, which the
  dispatcher never produces.
- `BlockEntity` (`block_entity.dfy`) is the dispatcher.
- `Decode` (`decode.dfy`) is the decoder.

`from_bytes` has three outcomes. It can return a schematic (`Done`) or an error
(`Fail`). It can also panic (`Panic`), because it calls `.unwrap()` on the
block-entity list and on the entity list. The gzip reader, the binary NBT parser
and the JSON serialiser are foreign code, so they are function parameters:

- `gunzip` is the content the reader leaves in the buffer. Its read error is discarded.
- `parseNbt` gives the root compound and its name, or nothing.
- `toJson` gives the JSON text, or nothing.

Where the code differs from the format's documented intent, the model follows the code:

- `minecraft:hanging_sign` is not an alias of the sign tag. It falls back to `Default` (`HangingSignFallsBack`).
- A block-entity record must have a `Data` compound, even though the comment
  at `decode.rs:105` calls it optional.
- The length of a block-entity `Pos` is never checked (`PosLengthUnchecked`).
- The voxel `Data` is accepted only as a byte array. There is no branch for a list of bytes.
- A missing `Palette`, `Data` or `Entities` is reported as `InvalidFormat` only
  when the block-entity list parses. Otherwise the earlier `unwrap` panics first
  (`BlockEntityPanicPreemptsPalette`).
- `block_entity.rs` and `decode.rs` both define `BlockEntityData::parse_block_entity_data`
  as an inherent method of the same type. Rust rejects two inherent methods of
  one name on one type (error E0592), so the crate as written does not build.
  The model keeps both renderings. Its choice is to have `parse_compound_block`
  (`decode.rs:116`) call the `decode.rs` one. The contract of
  `Decode.ParseBlockEntityData` states that both renderings are equal on every
  compound, so the choice does not change any result.

## Model

| member | source | states |
|---|---|---|
| `BlockEntity.AsStr` | crates/schematics/src/block_entity.rs:77-82 | Some(payload) exactly when the value is a String, None otherwise |
| `BlockEntity.AsByte` | crates/schematics/src/block_entity.rs:84-89 | Some(payload) exactly when the value is a Byte, None otherwise |
| `BlockEntity.AsCompound` | crates/schematics/src/block_entity.rs:91-96 | Some(payload) exactly when the value is a Compound, None otherwise |
| `BlockEntity.MessageLines` | crates/schematics/src/block_entity.rs:50-60 | the message list keeps its length and order; element i is the string if it is a String, "" otherwise |
| `BlockEntity.ParseSignText` | crates/schematics/src/block_entity.rs:36-67 | a missing text compound reads as empty; colour is the String under `color`, else the given default; glow is the Byte under `has_glowing_text`, else 0; messages are mapped element-wise when `messages` is a List, else empty |
| `BlockEntity.ParseBlockEntityData` | crates/schematics/src/block_entity.rs:5-34 | total; yields only Sign or Default; Sign exactly when `id` is the String `minecraft:sign`, and then the Sign's id is that tag, `is_waxed` is the Byte or 0, front text defaults to yellow and back text to black; otherwise Default carrying the `id` string, or "" when missing or not a String |
| `BlockEntity.MissingTextTakesDefaults` | crates/schematics/src/block_entity.rs:36-48 | an absent text compound decodes to the default colour, glow 0 and no messages |
| `BlockEntity.BareSignDefaults` | crates/schematics/src/block_entity.rs:15-23 | a sign with neither text compound decodes to a yellow front and a black back, unglowing, with no messages |
| `BlockEntity.HangingSignFallsBack` | crates/schematics/src/block_entity.rs:8-32 | `minecraft:hanging_sign` is not aliased: it yields Default with that id |
| `BlockEntity.MissingTagFallsBack` | crates/schematics/src/block_entity.rs:6 | a missing or non-String `id` yields Default with the empty id |
| `Decode.IsGzip` | crates/schematics/src/decode.rs:11 | the gzip branch is taken iff the input has at least two bytes and they are 0x1F, 0x8B |
| `Decode.ShortInputIsRaw` | crates/schematics/src/decode.rs:11 | inputs shorter than two bytes never take the gzip branch and never reach the codec |
| `Decode.NbtStreamIsRaw` | crates/schematics/src/decode.rs:11 | a stream opening with an NBT tag id (0 to 12) is never taken for gzip |
| `Decode.RawInputIgnoresCodec` | crates/schematics/src/decode.rs:11-23 | on raw input the outcome does not depend on the gzip codec |
| `Decode.CompressedAndRawAgree` | crates/schematics/src/decode.rs:11-23 | a gzip input and the stream it decompresses to decode to the same outcome whenever that stream does not itself start with the gzip magic, which an NBT stream never does |
| `Decode.FromBytes` | crates/schematics/src/decode.rs:10-88 | the NBT parser reads the decompressed bytes exactly when the input is gzip, and the raw bytes otherwise. A parse failure on either branch is ParseError with an empty message. A parsed tree decodes as `FromTree` of its root compound. No outcome carries FileNotFound or UnsupportedVersion |
| `Decode.Propagate` | crates/schematics/src/decode.rs:28 | an error is returned as a Fail carrying it; a value passes through |
| `Decode.Unwrap` | crates/schematics/src/decode.rs:58 | an error becomes a Panic carrying it; a value passes through |
| `Decode.ExpectShort` | crates/schematics/src/decode.rs:32-45 | accepted only when present as a Short, giving that short; otherwise InvalidFormat("") |
| `Decode.ExpectCompound` | crates/schematics/src/decode.rs:48-51 | accepted only when present as a Compound, giving it; otherwise InvalidFormat("") |
| `Decode.ExpectList` | crates/schematics/src/decode.rs:53-56 | accepted only when present as a List, giving its elements; otherwise InvalidFormat("") |
| `Decode.ExpectByteArray` | crates/schematics/src/decode.rs:60-63 | accepted only when present as a ByteArray, giving its bytes; otherwise InvalidFormat("") |
| `Decode.ExpectString` | crates/schematics/src/decode.rs:111-114 | accepted only when present as a String, giving it; otherwise InvalidFormat("") |
| `Decode.ExpectIntArray` | crates/schematics/src/decode.rs:118-121 | accepted only when present as an IntArray, giving its ints; otherwise InvalidFormat("") |
| `Decode.Collect` | crates/schematics/src/decode.rs:92-101 | collecting mapped results succeeds iff every element succeeds, then keeps length and order; otherwise it gives the error of the first element that fails |
| `Decode.ParseVecCompound` | crates/schematics/src/decode.rs:91-102 | succeeds iff every element is a Compound that serialises, giving the JSON texts in order; otherwise the first bad element's error: ParseError for a compound that does not serialise, InvalidFormat("Expected Compound value") for a non-compound |
| `Decode.ParseCompoundBlock` | crates/schematics/src/decode.rs:104-128 | succeeds iff `Data` is a Compound, `Id` a String and `Pos` an IntArray, else InvalidFormat(""); on success `id` and `pos` are copied unchanged (no length check) and `data` is the dispatcher's result on `Data` |
| `Decode.ParseVecBlock` | crates/schematics/src/decode.rs:130-139 | succeeds iff every element is a Compound that decodes as a record, giving the records in order; otherwise the first bad element's error, always InvalidFormat |
| `Decode.FromTree` | crates/schematics/src/decode.rs:25-88 | the outcome is set by the first stage that fails. A missing or mistyped root, extent, `Blocks` or `BlockEntities` gives InvalidFormat(""). A block-entity error panics before `Data`, `Palette` and `Entities` are looked at. A missing or mistyped one of those gives InvalidFormat(""). An entity error panics before the palette's serialisation error, which is ParseError. On success the extents, voxel data, palette text, block entities and entities are exactly those read |
| `Decode.BlockEntityPanicPreemptsPalette` | crates/schematics/src/decode.rs:58-67 | a tree with a non-compound block entity and no `Palette` panics with InvalidFormat("Expected Compound value") rather than returning an error |
| `Decode.PosLengthUnchecked` | crates/schematics/src/decode.rs:118-126 | a two-component `Pos` is accepted and copied |
| `Decode.ParseBlockEntityData` | crates/schematics/src/decode.rs:143-250 | the dispatcher as decode.rs writes it equals `BlockEntity.ParseBlockEntityData` on every compound |
| `Decode.StringOr` | crates/schematics/src/decode.rs:144-147 | the String stored under the key, or the given default when the key is missing or holds another variant |
| `Decode.ByteOr` | crates/schematics/src/decode.rs:151-157 | the Byte stored under the key, or 0 when the key is missing or holds another variant |
| `Decode.CompoundOrEmpty` | crates/schematics/src/decode.rs:160-166 | the Compound stored under the key, or the empty compound when the key is missing or holds another variant |
| `Decode.LinesOr` | crates/schematics/src/decode.rs:184-194 | the message lines of the List stored under the key, or no lines when the key is missing or holds another variant |
| `Decode.TextLines` | crates/schematics/src/decode.rs:185-192 | the decode.rs message mapping equals `BlockEntity.MessageLines` on every list |

## Left out

- Gzip decompression, binary NBT parsing and JSON serialisation are foreign
  libraries. They are parameters of `Decode.FromBytes` and `Decode.FromTree`
  and are not interpreted. The JSON text itself is therefore not modelled.
- The NBT list's rule that all elements share one type is not enforced: a list is any sequence of values.
- NBT floats and doubles are kept as bit patterns, because the decoder never reads them.
- The name the NBT parser gives the root compound is discarded, as in the code.
- The `FileNotFound` and `UnsupportedVersion` error kinds are declared but never
  constructed. `Decode.FromBytes` states that they never occur.
- `block_entity_data.rs` is not a module of the crate, and its tag dispatch is
  generated by serde derive. It is not part of this model.
- The example application `examples/schematics.rs` only embeds a file and prints; it is not part of this model.
- Idempotence of decoding holds by construction: every member is a function.
