/**
 * The block-entity dispatcher (crates/schematics/src/block_entity.rs): a total
 * function from a block entity's data compound to its payload. The exact tag
 * "minecraft:sign" gives a `Sign` whose fields are each read with a default;
 * every other tag, including a missing one, gives `Default` carrying the tag.
 */
module BlockEntity {
  import opened Wrappers
  import opened Nbt
  import opened Schematics

  const SignTag: string := "minecraft:sign"
  const FrontDefaultColor: string := "yellow"
  const BackDefaultColor: string := "black"

  // The `ValueExt` accessors: the payload of one variant, or nothing.

  function AsStr(v: Value): (r: Option<string>)
    ensures r.Some? <==> v.String?
    ensures r.Some? ==> r.value == v.str
  {
    match v
    case String(s) => Some(s)
    case _ => None
  }

  function AsByte(v: Value): (r: Option<i8>)
    ensures r.Some? <==> v.Byte?
    ensures r.Some? ==> r.value == v.byteVal
  {
    match v
    case Byte(b) => Some(b)
    case _ => None
  }

  function AsCompound(v: Value): (r: Option<Compound>)
    ensures r.Some? <==> v.Compound?
    ensures r.Some? ==> r.value == v.entries
  {
    match v
    case Compound(c) => Some(c)
    case _ => None
  }

  /** `Option::and_then`. */
  function AndThen<T, U>(o: Option<T>, f: T -> Option<U>): Option<U> {
    match o
    case Some(x) => f(x)
    case None => None
  }

  /** `Option::unwrap_or`. */
  function UnwrapOr<T>(o: Option<T>, default: T): T {
    match o
    case Some(x) => x
    case None => default
  }

  /** A message line: the string itself, or "" for a value of any other variant. */
  function MessageLine(v: Value): string {
    match v
    case String(text) => text
    case _ => ""
  }

  /** The message list, element by element: `list.into_iter().map(..).collect()`. */
  function MessageLines(list: seq<Value>): (lines: seq<string>)
    ensures |lines| == |list|
    ensures forall i :: 0 <= i < |list| ==> lines[i] == (if list[i].String? then list[i].str else "")
  {
    if list == [] then [] else [MessageLine(list[0])] + MessageLines(list[1..])
  }

  /**
   * One side of a sign. A missing text compound reads as the empty compound,
   * so that every field then takes its default.
   */
  function ParseSignText(textData: Option<Compound>, defaultColor: string): (r: SignTextData)
    ensures var text := if textData.Some? then textData.value else map[];
      && r.color == (if HasString(text, "color") then text["color"].str else defaultColor)
      && r.hasGlowingText == (if HasByte(text, "has_glowing_text") then text["has_glowing_text"].byteVal else 0)
      && r.messages == (if HasList(text, "messages") then MessageLines(text["messages"].elems) else [])
  {
    var text := UnwrapOr(textData, map[]);
    var color := UnwrapOr(AndThen(Get(text, "color"), AsStr), defaultColor);
    var hasGlowingText := UnwrapOr(AndThen(Get(text, "has_glowing_text"), AsByte), 0);
    var messages :=
      match Get(text, "messages")
      case Some(List(list)) => MessageLines(list)
      case _ => [];
    SignTextData(color, hasGlowingText, messages)
  }

  /** The `id` tag the dispatch is keyed on: the string under "id", or "" if there is none. */
  function TagOf(compound: Compound): string {
    if HasString(compound, "id") then compound["id"].str else ""
  }

  /** The text compound under `key`, when there is one of that variant. */
  function TextCompound(compound: Compound, key: string): Option<Compound> {
    if HasCompound(compound, key) then Some(compound[key].entries) else None
  }

  /** `BlockEntityData::parse_block_entity_data`: total, never an error. */
  function ParseBlockEntityData(compound: Compound): (r: BlockEntityData)
    ensures r.Sign? || r.Default?
    ensures r.Sign? <==> "id" in compound && compound["id"] == String(SignTag)
    ensures r.Default? ==> r.fallback.id == TagOf(compound)
    ensures r.Sign? ==>
      && r.sign.id == SignTag
      && r.sign.isWaxed == (if HasByte(compound, "is_waxed") then compound["is_waxed"].byteVal else 0)
      && r.sign.frontText == ParseSignText(TextCompound(compound, "front_text"), FrontDefaultColor)
      && r.sign.backText == ParseSignText(TextCompound(compound, "back_text"), BackDefaultColor)
  {
    var id := UnwrapOr(AndThen(Get(compound, "id"), AsStr), "");
    if id == SignTag then
      var isWaxed := UnwrapOr(AndThen(Get(compound, "is_waxed"), AsByte), 0);
      var frontText := ParseSignText(AndThen(Get(compound, "front_text"), AsCompound), FrontDefaultColor);
      var backText := ParseSignText(AndThen(Get(compound, "back_text"), AsCompound), BackDefaultColor);
      Sign(SignBlockEntityData(backText, frontText, id, isWaxed))
    else
      Default(DefaultBlockEntityData(id))
  }

  /** A side whose text compound is missing or of another variant decodes to all defaults. */
  lemma MissingTextTakesDefaults(defaultColor: string)
    ensures ParseSignText(None, defaultColor) == SignTextData(defaultColor, 0, [])
  {
  }

  /** A sign without any text compounds: yellow front, black back, no glow, no messages. */
  lemma BareSignDefaults(compound: Compound)
    requires "id" in compound && compound["id"] == String(SignTag)
    requires !HasCompound(compound, "front_text") && !HasCompound(compound, "back_text")
    ensures ParseBlockEntityData(compound).Sign?
    ensures ParseBlockEntityData(compound).sign.frontText == SignTextData("yellow", 0, [])
    ensures ParseBlockEntityData(compound).sign.backText == SignTextData("black", 0, [])
  {
  }

  /** "minecraft:hanging_sign" is not an alias of the sign tag: it falls back to `Default`. */
  lemma HangingSignFallsBack(compound: Compound)
    requires "id" in compound && compound["id"] == String("minecraft:hanging_sign")
    ensures ParseBlockEntityData(compound) == Default(DefaultBlockEntityData("minecraft:hanging_sign"))
  {
  }

  /** A compound without a string "id" falls back to `Default` with the empty id. */
  lemma MissingTagFallsBack(compound: Compound)
    requires !HasString(compound, "id")
    ensures ParseBlockEntityData(compound) == Default(DefaultBlockEntityData(""))
  {
  }
}
