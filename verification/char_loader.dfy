/**
 * The glyph registration service: a per-font slot allocator, a per-font name
 * registry, the write into a font's glyph table, and the generic `Call` entry
 * point other plugins use to reach them.
 */
module CharLoader {
  import opened Wrappers
  import opened Host

  /** First code point of the private-use area the allocator hands out. */
  const PuaStart: int := 0xE000
  /** Largest offset whose code point stays inside U+E000..U+F8FF. */
  const MaxIndex: int := 0x18FF

  /**
   * `(char)('\uE000' + offset)`: the code unit for an offset into the private-use
   * area. The sum is cast to a 16-bit `char`, so only its low 16 bits survive.
   */
  function PrivateUseChar(offset: int): (c: Char16)
    ensures 0 <= offset < 0x2000 ==> c == PuaStart + offset
    ensures 0 <= offset <= MaxIndex ==> PuaStart <= c <= PuaStart + MaxIndex
    ensures (PuaStart + offset - c) % 0x1_0000 == 0
  {
    (PuaStart + offset) % 0x1_0000
  }

  /** Below 0x2000 offsets, later offsets give strictly larger code units. */
  lemma AllocationOrder(m: int, n: int)
    requires 0 <= m < n < 0x2000
    ensures PrivateUseChar(m) < PrivateUseChar(n)
  {
  }

  /** Fewer than 0x10000 offsets apart, two offsets never share a code unit. */
  lemma AllocationDistinct(m: int, n: int)
    requires m < n < m + 0x1_0000
    ensures PrivateUseChar(m) != PrivateUseChar(n)
  {
    var qm, qn := (PuaStart + m) / 0x1_0000, (PuaStart + n) / 0x1_0000;
    assert PuaStart + m == qm * 0x1_0000 + PrivateUseChar(m);
    assert PuaStart + n == qn * 0x1_0000 + PrivateUseChar(n);
    if qn == qm {
      assert PrivateUseChar(n) - PrivateUseChar(m) == n - m;
    } else {
      assert qn > qm;
      assert PrivateUseChar(n) - PrivateUseChar(m) == n - m - (qn - qm) * 0x1_0000 < 0;
    }
  }

  /**
   * Nothing stops the allocator at the end of the area: from the 6401st slot
   * (U+F900) until the cast wraps, every slot lies above U+F8FF.
   */
  lemma AllocationLeavesArea(n: int)
    requires MaxIndex < n < 0x2000
    ensures PrivateUseChar(MaxIndex + 1) == 0xF900
    ensures PrivateUseChar(n) > PuaStart + MaxIndex
  {
  }

  /** Offsets 0x10000 apart give the same code unit: the slots repeat from U+E000. */
  lemma AllocationWrapsAround(n: int)
    ensures PrivateUseChar(n + 0x1_0000) == PrivateUseChar(n)
    ensures PrivateUseChar(0x1_0000) == PuaStart
  {
    var q := (PuaStart + n) / 0x1_0000;
    assert PuaStart + n + 0x1_0000 == (q + 1) * 0x1_0000 + PrivateUseChar(n);
  }

  /** A positional argument of `Call`: the boxed values a caller may pass. */
  datatype Arg =
    | StringArg(text: string)
    | FontArg(font: DynamicSpriteFont)
    | TextureArg(texture: Texture2D)
    | RectangleArg(rectangle: Rectangle)
    | VectorArg(vector: Vector3)
    | CharArg(code: Char16)
    | IntArg(number: int)

  /** The exceptions `Call` can throw. */
  datatype CallError =
    | InvalidOperation(operation: Arg)  // ArgumentException: unknown operation name
    | InvalidCast(position: nat)        // an argument of the wrong type
    | IndexOutOfRange(position: nat)    // too few arguments

  /** What `Call` returns: a boxed `char` or null. */
  datatype CallValue = CharValue(code: Char16) | NullValue

  /** A decoded `Call`: the operation and its typed arguments. */
  datatype Request =
    | AddRequest(font: DynamicSpriteFont, record: SpriteCharacterData, name: Option<string>)
    | SetRequest(font: DynamicSpriteFont, slot: Char16, record: SpriteCharacterData)
    | GetRequest(font: DynamicSpriteFont, key: string)

  const AddAliases: set<string> := {"AddCharacter", "AddChar"}
  const SetAliases: set<string> := {"SetCharacter", "SetChar"}
  const GetAliases: set<string> := {"GetCharacter", "GetChar"}

  function ArgAt(args: seq<Arg>, i: nat): Result<Arg, CallError> {
    if i < |args| then Success(args[i]) else Failure(IndexOutOfRange(i))
  }

  function FontAt(args: seq<Arg>, i: nat): Result<DynamicSpriteFont, CallError> {
    var a :- ArgAt(args, i);
    if a.FontArg? then Success(a.font) else Failure(InvalidCast(i))
  }

  function TextureAt(args: seq<Arg>, i: nat): Result<Texture2D, CallError> {
    var a :- ArgAt(args, i);
    if a.TextureArg? then Success(a.texture) else Failure(InvalidCast(i))
  }

  function RectangleAt(args: seq<Arg>, i: nat): Result<Rectangle, CallError> {
    var a :- ArgAt(args, i);
    if a.RectangleArg? then Success(a.rectangle) else Failure(InvalidCast(i))
  }

  function VectorAt(args: seq<Arg>, i: nat): Result<Vector3, CallError> {
    var a :- ArgAt(args, i);
    if a.VectorArg? then Success(a.vector) else Failure(InvalidCast(i))
  }

  function CharAt(args: seq<Arg>, i: nat): Result<Char16, CallError> {
    var a :- ArgAt(args, i);
    if a.CharArg? then Success(a.code) else Failure(InvalidCast(i))
  }

  function StringAt(args: seq<Arg>, i: nat): Result<string, CallError> {
    var a :- ArgAt(args, i);
    if a.StringArg? then Success(a.text) else Failure(InvalidCast(i))
  }

  /** The glyph record built from four consecutive arguments starting at `i`. */
  function RecordAt(args: seq<Arg>, i: nat): Result<SpriteCharacterData, CallError> {
    var texture :- TextureAt(args, i);
    var glyph :- RectangleAt(args, i + 1);
    var padding :- RectangleAt(args, i + 2);
    var kerning :- VectorAt(args, i + 3);
    Success(SpriteCharacterData(texture, glyph, padding, kerning))
  }

  /** Four arguments from `i` on have the types of a glyph record's fields. */
  predicate RecordTyped(args: seq<Arg>, i: nat) {
    && i + 4 <= |args|
    && args[i].TextureArg? && args[i + 1].RectangleArg? && args[i + 2].RectangleArg? && args[i + 3].VectorArg?
  }

  /** The glyph record those four arguments hold. */
  function RecordOf(args: seq<Arg>, i: nat): SpriteCharacterData
    requires RecordTyped(args, i)
  {
    SpriteCharacterData(args[i].texture, args[i + 1].rectangle, args[i + 2].rectangle, args[i + 3].vector)
  }

  /** An add call every cast of which succeeds; a seventh argument, if any, is the name. */
  predicate WellTypedAdd(args: seq<Arg>) {
    && |args| >= 6 && args[0].StringArg? && args[0].text in AddAliases
    && args[1].FontArg? && RecordTyped(args, 2)
    && (|args| > 6 ==> args[6].StringArg?)
  }

  /** A set call every cast of which succeeds. */
  predicate WellTypedSet(args: seq<Arg>) {
    && |args| >= 7 && args[0].StringArg? && args[0].text in SetAliases
    && args[1].FontArg? && args[2].CharArg? && RecordTyped(args, 3)
  }

  /** A get call every cast of which succeeds. */
  predicate WellTypedGet(args: seq<Arg>) {
    && |args| >= 3 && args[0].StringArg? && args[0].text in GetAliases
    && args[1].FontArg? && args[2].StringArg?
  }

  /**
   * The switch of `Call` together with its argument casts, evaluated left to
   * right as C# does, so the first missing or mistyped argument is the one
   * reported.
   */
  function DecodeCall(args: seq<Arg>): (r: Result<Request, CallError>)
    ensures |args| == 0 ==> r == Failure(IndexOutOfRange(0))
    ensures 0 < |args| && !(args[0].StringArg? && args[0].text in AddAliases + SetAliases + GetAliases)
            ==> r == Failure(InvalidOperation(args[0]))
    ensures r.Success? ==> args[0].StringArg? && 3 <= |args| && args[1].FontArg? && args[1].font == r.value.font
    ensures r.Success? ==> (r.value.AddRequest? <==> args[0].text in AddAliases)
    ensures r.Success? ==> (r.value.SetRequest? <==> args[0].text in SetAliases)
    ensures r.Success? ==> (r.value.GetRequest? <==> args[0].text in GetAliases)
    ensures r.Success? && r.value.AddRequest? ==>
              6 <= |args| && if |args| > 6 then args[6].StringArg? && r.value.name == Some(args[6].text)
                                  else r.value.name == None
    ensures r.Success? && r.value.SetRequest? ==> 7 <= |args| && args[2].CharArg? && args[2].code == r.value.slot
    ensures r.Success? <==> WellTypedAdd(args) || WellTypedSet(args) || WellTypedGet(args)
    ensures WellTypedAdd(args) ==>
              r == Success(AddRequest(args[1].font, RecordOf(args, 2), if |args| > 6 then Some(args[6].text) else None))
    ensures WellTypedSet(args) ==> r == Success(SetRequest(args[1].font, args[2].code, RecordOf(args, 3)))
    ensures WellTypedGet(args) ==> r == Success(GetRequest(args[1].font, args[2].text))
  {
    if |args| == 0 then Failure(IndexOutOfRange(0))
    else if args[0].StringArg? && args[0].text in AddAliases then
      var font :- FontAt(args, 1);
      var record :- RecordAt(args, 2);
      var name :- if |args| > 6 then (var n :- StringAt(args, 6); Success(Some(n))) else Success(None);
      Success(AddRequest(font, record, name))
    else if args[0].StringArg? && args[0].text in SetAliases then
      var font :- FontAt(args, 1);
      var slot :- CharAt(args, 2);
      var record :- RecordAt(args, 3);
      Success(SetRequest(font, slot, record))
    else if args[0].StringArg? && args[0].text in GetAliases then
      var font :- FontAt(args, 1);
      var name :- StringAt(args, 2);
      Success(GetRequest(font, name))
    else
      Failure(InvalidOperation(args[0]))
  }

  /** The two names of each operation are interchangeable. */
  lemma AliasesAgree(rest: seq<Arg>)
    ensures DecodeCall([StringArg("AddChar")] + rest) == DecodeCall([StringArg("AddCharacter")] + rest)
    ensures DecodeCall([StringArg("SetChar")] + rest) == DecodeCall([StringArg("SetCharacter")] + rest)
    ensures DecodeCall([StringArg("GetChar")] + rest) == DecodeCall([StringArg("GetCharacter")] + rest)
  {
    var add, addChar := [StringArg("AddCharacter")] + rest, [StringArg("AddChar")] + rest;
    assert add[1..] == addChar[1..] == rest;
    assert add[0].text in AddAliases && addChar[0].text in AddAliases;
  }

  /** The fonts a call writes to: the one named by a well-formed call, if any. */
  function CallFonts(args: seq<Arg>): set<DynamicSpriteFont> {
    if DecodeCall(args).Success? then {DecodeCall(args).value.font} else {}
  }

  /** Installing a record is idempotent and leaves every other slot as it was. */
  lemma InstallIdempotent(table: map<Char16, SpriteCharacterData>, slot: Char16, record: SpriteCharacterData)
    ensures table[slot := record][slot := record] == table[slot := record]
    ensures table[slot := record][slot] == record
    ensures forall other | other in table && other != slot :: table[slot := record][other] == table[other]
  {
  }

  /**
   * The mod object: its per-font allocation counters and per-font name sets. Both
   * are keyed by font identity and start empty when the mod loads.
   */
  class CharLoader {
    var charCount: map<DynamicSpriteFont, nat>
    var namedChars: map<DynamicSpriteFont, map<string, Char16>>

    /** `Load`: both tables start empty. */
    constructor Load()
      ensures charCount == map[] && namedChars == map[]
    {
      charCount := map[];
      namedChars := map[];
    }

    /** How many slots the font has been given; a font never seen has 0. */
    function CharCount(font: DynamicSpriteFont): (n: nat)
      reads this
      ensures font !in charCount ==> n == 0
      ensures font in charCount ==> n == charCount[font]
    {
      if font in charCount then charCount[font] else 0
    }

    /** The name set of a font as lookups see it: empty until first created. */
    function NamedCharSet(font: DynamicSpriteFont): (names: map<string, Char16>)
      reads this
      ensures font !in namedChars ==> names == map[]
      ensures font in namedChars ==> names == namedChars[font]
    {
      if font in namedChars then namedChars[font] else map[]
    }

    /** The code unit a name is bound to for a font, or None when unbound. */
    function NamedChar(font: DynamicSpriteFont, name: string): (r: Option<Char16>)
      reads this
      ensures r.Some? <==> font in namedChars && name in namedChars[font]
      ensures r.Some? ==> r.value == namedChars[font][name]
    {
      if name in NamedCharSet(font) then Some(NamedCharSet(font)[name]) else None
    }

    /** Hands out the font's next private-use code unit and advances its counter. */
    method GetNextIndex(font: DynamicSpriteFont) returns (c: Char16)
      modifies this
      ensures c == PrivateUseChar(old(CharCount(font)))
      ensures charCount == old(charCount)[font := old(CharCount(font)) + 1]
      ensures CharCount(font) == old(CharCount(font)) + 1
      ensures forall f | f != font && old(allocated(f)) :: CharCount(f) == old(CharCount(f))
      ensures namedChars == old(namedChars)
    {
      if font !in charCount {
        charCount := charCount[font := 0];
      }
      var n := charCount[font];
      charCount := charCount[font := n + 1];
      c := PrivateUseChar(n);
    }

    /** The font's name set, created empty on first use. */
    method GetNamedCharSet(font: DynamicSpriteFont) returns (names: map<string, Char16>)
      modifies this
      ensures names == old(NamedCharSet(font))
      ensures namedChars == old(namedChars)[font := names]
      ensures forall f | old(allocated(f)) :: NamedCharSet(f) == old(NamedCharSet(f))
      ensures charCount == old(charCount)
    {
      if font !in namedChars {
        namedChars := namedChars[font := map[]];
      }
      names := namedChars[font];
    }

    /** Resolves a name for a font; creates the font's empty name set as a side effect. */
    method GetNamedChar(font: DynamicSpriteFont, name: string) returns (r: Option<Char16>)
      modifies this
      ensures r == old(NamedChar(font, name))
      ensures r.Some? <==> name in old(NamedCharSet(font))
      ensures namedChars == old(namedChars)[font := old(NamedCharSet(font))]
      ensures forall f, n | old(allocated(f)) :: NamedChar(f, n) == old(NamedChar(f, n))
      ensures charCount == old(charCount)
    {
      var names := GetNamedCharSet(font);
      r := if name in names then Some(names[name]) else None;
    }

    /**
     * Allocates the font's next slot, installs the record there and, when a
     * name is given, binds it to the slot (replacing any earlier binding).
     */
    method AddCharacter(font: DynamicSpriteFont, texture: Texture2D, glyph: Rectangle, padding: Rectangle,
                        kerning: Vector3, name: Option<string>) returns (c: Char16)
      modifies this, font
      ensures c == PrivateUseChar(old(CharCount(font)))
      ensures charCount == old(charCount)[font := old(CharCount(font)) + 1]
      ensures font.spriteCharacters
              == old(font.spriteCharacters)[c := SpriteCharacterData(texture, glyph, padding, kerning)]
      ensures namedChars == if name.None? then old(namedChars)
                            else old(namedChars)[font := old(NamedCharSet(font))[name.value := c]]
      ensures name.Some? ==> NamedChar(font, name.value) == Some(c)
      ensures forall f, n | old(allocated(f)) && (f != font || name.None? || n != name.value) :: NamedChar(f, n) == old(NamedChar(f, n))
    {
      c := GetNextIndex(font);
      font.spriteCharacters := font.spriteCharacters[c := SpriteCharacterData(texture, glyph, padding, kerning)];
      if name.Some? {
        var names := GetNamedCharSet(font);
        namedChars := namedChars[font := names[name.value := c]];
      }
    }

    /**
     * The generic entry point: decodes the operation and its arguments, then adds
     * a glyph, overwrites a chosen slot, or looks a name up.
     */
    method Call(args: seq<Arg>) returns (r: Result<CallValue, CallError>)
      modifies this, CallFonts(args)
      ensures DecodeCall(args).Failure? ==>
                r == Failure(DecodeCall(args).error) && charCount == old(charCount) && namedChars == old(namedChars)
      ensures DecodeCall(args).Success? && DecodeCall(args).value.AddRequest? ==>
                var AddRequest(font, record, name) := DecodeCall(args).value;
                var c := PrivateUseChar(old(CharCount(font)));
                && r == Success(CharValue(c))
                && charCount == old(charCount)[font := old(CharCount(font)) + 1]
                && font.spriteCharacters == old(font.spriteCharacters)[c := record]
                && namedChars == if name.None? then old(namedChars)
                                 else old(namedChars)[font := old(NamedCharSet(font))[name.value := c]]
      ensures DecodeCall(args).Success? && DecodeCall(args).value.SetRequest? ==>
                var SetRequest(font, slot, record) := DecodeCall(args).value;
                && r == Success(NullValue)
                && font.spriteCharacters == old(font.spriteCharacters)[slot := record]
                && charCount == old(charCount)
                && namedChars == old(namedChars)
      ensures DecodeCall(args).Success? && DecodeCall(args).value.GetRequest? ==>
                var GetRequest(font, name) := DecodeCall(args).value;
                && r == Success(if old(NamedChar(font, name)).Some? then CharValue(old(NamedChar(font, name)).value)
                                else NullValue)
                && font.spriteCharacters == old(font.spriteCharacters)
                && charCount == old(charCount)
                && namedChars == old(namedChars)[font := old(NamedCharSet(font))]
    {
      var request :- DecodeCall(args);
      match request
      case AddRequest(font, record, name) =>
        var c := AddCharacter(font, record.texture, record.glyph, record.padding, record.kerning, name);
        r := Success(CharValue(c));
      case SetRequest(font, slot, record) =>
        font.spriteCharacters := font.spriteCharacters[slot := record];
        r := Success(NullValue);
      case GetRequest(font, name) =>
        var c := GetNamedChar(font, name);
        r := Success(if c.Some? then CharValue(c.value) else NullValue);
    }
  }

  /**
   * Two `AddCharacter` calls on one font: the second code unit is the next one
   * after the first, and a name given to both ends up bound to the second.
   */
  method AddCharacterTwice(loader: CharLoader, font: DynamicSpriteFont, first: SpriteCharacterData,
                           second: SpriteCharacterData, name: string) returns (c1: Char16, c2: Char16)
    requires loader.CharCount(font) < 0x1FFF
    modifies loader, font
    ensures c1 == PuaStart + old(loader.CharCount(font)) && c2 == c1 + 1
    ensures loader.CharCount(font) == old(loader.CharCount(font)) + 2
    ensures font.spriteCharacters == old(font.spriteCharacters)[c1 := first][c2 := second]
    ensures loader.NamedChar(font, name) == Some(c2)
  {
    c1 := loader.AddCharacter(font, first.texture, first.glyph, first.padding, first.kerning, Some(name));
    c2 := loader.AddCharacter(font, second.texture, second.glyph, second.padding, second.kerning, Some(name));
  }

  /** The `SetCharacter` call made twice leaves the state it leaves when made once. */
  method SetCharacterTwice(loader: CharLoader, args: seq<Arg>)
    requires DecodeCall(args).Success? && DecodeCall(args).value.SetRequest?
    modifies loader, CallFonts(args)
    ensures var SetRequest(font, slot, record) := DecodeCall(args).value;
            font.spriteCharacters == old(font.spriteCharacters)[slot := record]
    ensures loader.charCount == old(loader.charCount) && loader.namedChars == old(loader.namedChars)
  {
    var r1 := loader.Call(args);
    var r2 := loader.Call(args);
    InstallIdempotent(old(DecodeCall(args).value.font.spriteCharacters), DecodeCall(args).value.slot,
                      DecodeCall(args).value.record);
  }
}
