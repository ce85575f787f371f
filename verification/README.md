# CharLoader glyph registration, modelled in Dafny

CharLoader is a tModLoader mod. It lets other mods add custom glyphs to a host
`DynamicSpriteFont` while the game runs. Each glyph gets the next free code unit
of the Unicode private-use area, counted per font and starting at U+E000. A mod
may also bind a name to the glyph, so other mods can find it without agreeing on
numbers. Other mods reach the service through the generic `Call(params object[])`
entry point. The `showchar` chat command (also `char` and `chars`) turns names,
hex offsets (`0x…`), decimal offsets and blank tokens into characters.

The model has five modules:

- `Wrappers` (wrappers.dfy): `Option` and `Result`. They stand for C# nulls and for thrown exceptions.
- `Host` (host.dfy): the host's types. `Char16` is a C# `char`, a UTF-16 code unit.
  Textures, rectangles and kerning vectors are opaque types. `SpriteCharacterData`
  is one glyph record. `DynamicSpriteFont` is a class whose glyph table
  `spriteCharacters` is a map that the service writes in place. Fonts are compared
  by identity, as the C# dictionaries do.
- `CharLoader` (char_loader.dfy): the `CharLoader` class holds the two dictionaries
  `charCount` and `namedChars` as `map` fields, keyed by font. Its methods are
  `GetNextIndex`, `GetNamedCharSet` (which creates a font's name set on first use),
  `GetNamedChar`, `AddCharacter` and `Call`. `DecodeCall` is `Call`'s switch and
  argument casts as a pure function. It evaluates the casts left to right, so a
  missing argument becomes `IndexOutOfRange`, a wrongly typed one `InvalidCast`,
  and an unknown operation name `InvalidOperation`.
- `Numerals` (numerals.dfy): `Convert.ToInt32(s, 16)` and `int.TryParse(s)` as
  parsers that return `None` where .NET throws or returns false. The hex parser
  skips one leading `+`, then an optional `0x`/`0X`, and refuses white space and
  `-`, as `Convert.ToInt32(string, 16)` does. `Digits` is a formatter, used to
  prove that parsing inverts formatting.
- `ShowCharCommand` (show_char.dfy): `Action` is the command's `for` loop, as a
  method with loop invariants. It is proved equal to `ShowChar`, a left fold of
  `Step` (one pass of the loop body as written). `ResolveToken` gives the
  meaning of one token on its own. The lemmas show that the fold sends the
  tokens' characters when every token resolves, and otherwise replies with the
  error of the last failing token.

Three behaviours of the code are easy to miss, and the model keeps each as written:

- The command does not stop at the first bad token. It reads every token and
  replies with the error of the LAST failing one (`ShowCharOutcome`).
- The command still appends a character for an out-of-range index. Nobody can
  see that character, because no text is sent once an error is recorded.
- There is no slot-exhaustion error. After 6400 allocations the allocator
  leaves the private-use area (`AllocationLeavesArea`). After 65536 it wraps
  back to U+E000 (`AllocationWrapsAround`).

## Model

| member | source | states |
|---|---|---|
| `CharLoader.PrivateUseChar` | CharLoader.cs:35 | The code unit of the cast `(char)(0xE000 + n)`. It equals 0xE000 + n for 0 <= n < 0x2000. Offsets 0..0x18FF land in U+E000..U+F8FF. It always agrees with 0xE000 + n modulo 2^16. |
| `CharLoader.AllocationOrder` | CharLoader.cs:32-36 | Below 0x2000, a later count gives a strictly larger code unit, so successive allocations on a font increase. |
| `CharLoader.AllocationDistinct` | CharLoader.cs:32-36 | Two counts fewer than 0x10000 apart never give the same code unit, so allocations on a font are pairwise distinct until the cast wraps. |
| `CharLoader.AllocationLeavesArea` | CharLoader.cs:35 | Nothing guards the counter: the 6401st slot of a font is U+F900, and every count from 0x1900 up to 0x1FFF gives a code unit above U+F8FF. |
| `CharLoader.AllocationWrapsAround` | CharLoader.cs:35 | Counts 0x10000 apart give the same code unit, for every count: after 0x10000 allocations U+E000 is handed out again. |
| `CharLoader.DecodeCall` | CharLoader.cs:45-64 | An empty argument list fails with IndexOutOfRange(0). A first argument that is not one of the six operation names fails with InvalidOperation naming that argument. A call decodes if and only if every cast of its operation succeeds. A well-typed add decodes to the font of argument 1, the record of arguments 2-5 and the name of argument 6 when present. A well-typed set decodes to the font of argument 1, the slot of argument 2 and the record of arguments 3-6. A well-typed get decodes to the font of argument 1 and the key of argument 2. |
| `CharLoader.AliasesAgree` | CharLoader.cs:46-61 | "AddChar", "SetChar" and "GetChar" decode exactly like "AddCharacter", "SetCharacter" and "GetCharacter", whatever the remaining arguments. |
| `CharLoader.InstallIdempotent` | CharLoader.cs:54 | Installing a record at a slot, once or twice, gives the same table. Reading the slot back gives the record. Every other slot keeps its entry. |
| `CharLoader.CharLoader.Load` | CharLoader.cs:24-27 | Loading starts with no counters and no name sets. |
| `CharLoader.CharLoader.CharCount` | CharLoader.cs:22 | A font that was never allocated from has count 0. Otherwise the count is the stored counter. |
| `CharLoader.CharLoader.NamedCharSet` | CharLoader.cs:37-43 | The name set lookups see: the stored set of a font that has one, and the empty set for any other font. |
| `CharLoader.CharLoader.NamedChar` | CharLoader.cs:41-43 | A name resolves exactly when the font's name set binds it, and then to the bound code unit. An unbound name gives null. |
| `CharLoader.CharLoader.GetNextIndex` | CharLoader.cs:32-36 | Returns the private-use code unit of the font's old count (0 for a new font). Raises that font's count by exactly 1. Leaves every other font's count and all name sets unchanged. |
| `CharLoader.CharLoader.GetNamedCharSet` | CharLoader.cs:37-40 | Returns the font's name set, which is empty if the font had none. Stores the set under the font. Changes what no name lookup sees, and no counter. |
| `CharLoader.CharLoader.GetNamedChar` | CharLoader.cs:41-44 | Returns the code unit the name was bound to for that font, or null. The only side effect is creating the font's empty name set. Every lookup and counter is unchanged. |
| `CharLoader.CharLoader.AddCharacter` | CharLoader.cs:65-70 | Returns the font's next slot and advances only that font's counter. Afterwards the font's table maps the slot to the new record and no other slot changes. With a name, the name resolves to the slot on that font and every other (font, name) lookup is unchanged. Without a name, the name sets are untouched. |
| `CharLoader.CharLoader.Call` | CharLoader.cs:45-64 | A call that fails to decode returns its error and changes nothing. Add behaves as AddCharacter and returns the boxed slot. Set overwrites exactly the chosen slot of the chosen font, leaves counters and names alone, and returns null. Get returns the bound code unit or null, leaves the table and counters alone, and only creates the font's empty name set. |
| `CharLoader.AddCharacterTwice` | CharLoader.cs:65-69 | Two AddCharacter calls on one font return consecutive slots 0xE000 + n and 0xE000 + n + 1. Both records are installed. A name given to both resolves to the second slot (last write wins). |
| `CharLoader.SetCharacterTwice` | CharLoader.cs:52-55 | Making the same SetCharacter call twice leaves the state that one call leaves: the slot holds the record, and counters and names are unchanged. |
| `Numerals.ToInt32` | CharLoader.cs:104 | Reads a 32-bit pattern as a signed int: the result is in the int range and equals the pattern or the pattern minus 2^32. |
| `Numerals.TryParseHex` | CharLoader.cs:102-110 | Any value parsed is a 32-bit int, read from a text that ends in a hex digit (no trailing white space or other characters). |
| `Numerals.HexPlusSign` | CharLoader.cs:104 | One leading `+` is skipped: a text and the same text with a `+` in front parse alike, when the text does not itself start with `+`. |
| `Numerals.SignedHexRoundTrip` | CharLoader.cs:104 | The hex digits of any 32-bit pattern, with or without a leading `+`, parse to its signed reading. |
| `Numerals.TryParseInt` | CharLoader.cs:81 | Any value parsed is within the 32-bit int range, from a string that starts with a sign or a digit. |
| `Numerals.HexRoundTrip` | CharLoader.cs:102-110 | Parsing the hex digits of any 32-bit pattern gives back its signed reading: the pattern itself up to 0x7FFFFFFF, negative above. |
| `Numerals.UnsignedDecimalRoundTrip` | CharLoader.cs:81 | The digits of any int from 0 to 2^31-1 parse back to it. |
| `Numerals.NegativeDecimalRoundTrip` | CharLoader.cs:81 | "-" and the digits of m parse to -m for m from 1 to 2^31, the least int included. |
| `Numerals.DecimalRoundTrip` | CharLoader.cs:81 | Parsing the decimal text of any 32-bit int gives back that int. |
| `ShowCharCommand.IsWhiteSpace` | CharLoader.cs:85 | A white-space character is never a hex digit, a `+` or a `-`. |
| `ShowCharCommand.BlankNotNumeric` | CharLoader.cs:81-86 | A token made only of white space, the empty token included, never parses as a number, so line 85's check sees every blank token that is not a name. |
| `ShowCharCommand.ParseIndex` | CharLoader.cs:81 | A numeric token (0x-hex, or else decimal) yields a 32-bit int. |
| `ShowCharCommand.Classify` | CharLoader.cs:79-88 | The branch a token takes: a registered name is taken first, with its bound code unit, whatever the token looks like. |
| `ShowCharCommand.ResolveToken` | CharLoader.cs:79-89 | A registered name always wins. Any other character shown is a space or lies in U+E000..U+F8FF. |
| `ShowCharCommand.TokenMeaning` | CharLoader.cs:81-88 | For a token that is not a name: a number shows U+E000 + index for an index in 0..0x18FF, reports the negative-index error below 0 and the out-of-range error above 0x18FF. A blank token shows a space. Any other token reports "no character found with name" and the token. |
| `ShowCharCommand.StepGrows` | CharLoader.cs:79-89 | One pass of the loop body keeps what was appended, appends at most one character and never clears the error. A pass that leaves no error has appended exactly one character. |
| `ShowCharCommand.StepError` | CharLoader.cs:79-89 | One pass of the loop body sets the error exactly when the token fails to resolve, to that token's error, and otherwise leaves it. |
| `ShowCharCommand.StepAppends` | CharLoader.cs:79-86 | One pass over a token that resolves appends exactly that token's character. |
| `ShowCharCommand.ScanLength` | CharLoader.cs:78-90 | The loop appends at most one character per token, and exactly one per token when it ends with no error. |
| `ShowCharCommand.ShowChar` | CharLoader.cs:78-100 | When the command sends text, the text has one character per token. |
| `ShowCharCommand.ScanError` | CharLoader.cs:78-90 | After the loop, the error variable holds the error of the last token that fails to resolve, or null when none fails. |
| `ShowCharCommand.ScanCharacters` | CharLoader.cs:78-90 | When every token resolves, the loop has appended exactly the tokens' own characters, one per token, in input order. |
| `ShowCharCommand.ShowCharOutcome` | CharLoader.cs:78-100 | The command sends text if and only if every token resolves, and the text is the tokens' characters in order. Otherwise it replies with the error of a failing token after which every token resolves. |
| `ShowCharCommand.HexIndex` | CharLoader.cs:81 | "0x" and the hex digits of any 32-bit pattern parse to the pattern's signed reading. |
| `ShowCharCommand.SignedHexIndex` | CharLoader.cs:81 | "0x+" and the hex digits of any 32-bit pattern parse to the same value: the hex parser skips the `+`. |
| `ShowCharCommand.HexToken` | CharLoader.cs:81-84 | An unregistered "0x" token for any 32-bit pattern shows U+E000 + its signed reading when that is in 0..0x18FF. It reports the out-of-range error above 0x18FF and the negative-index error from 0x80000000 up. |
| `ShowCharCommand.DecimalIndex` | CharLoader.cs:81 | The decimal text of any 32-bit int is not taken for a hex token and parses to that int. |
| `ShowCharCommand.DecimalToken` | CharLoader.cs:81-84 | An unregistered decimal token shows U+E000 + n for n in 0..0x18FF. A negative n reports the negative-index error. An n above 0x18FF reports the out-of-range error. |
| `ShowCharCommand.HexExample` | CharLoader.cs:81-84 | Unregistered "0x10" shows U+E010. |
| `ShowCharCommand.SignedHexExample` | CharLoader.cs:81-84 | Unregistered "0x+10" shows U+E010 too. |
| `ShowCharCommand.DecimalExample` | CharLoader.cs:81-84 | Unregistered "24" shows U+E018. |
| `ShowCharCommand.OutOfRangeExample` | CharLoader.cs:81-83 | Unregistered "6400", one past the last slot, reports the out-of-range error. |
| `ShowCharCommand.Action` | CharLoader.cs:75-101 | The loop's result is the fold `ShowChar` over the mouse-text font's names. No counter changes. The only state change is creating that font's empty name set when there is at least one token. |

## Left out

- `Instance`, `ModContent.GetInstance`, `Unload` and the `ModCommand` properties `Command` and `Type`: these are mod-host plumbing. The three command names appear only as the constant `CommandNames`.
- Chat transport (`CreateOutgoingMessage`, `SendChatMessageFromClient`, `ProcessIncomingMessage`, the `Main.netMode` choice) and the red colour of `caller.Reply`: the command's result is `Success(text)` for "send" or `Failure(message)` for "reply".
- `FontAssets.MouseText.Value`: the command's font is a parameter of `Action`.
- Rendering: textures, rectangles and kerning vectors are opaque. Of `DynamicSpriteFont`, only its glyph table is modelled.
- Null arguments and null references: `Arg` has no null case. `AddCharacter` called without a name stands for the C# null name. `IntArg` stands for any boxed value of a type `Call` does not accept.
- The text of the `ArgumentException` thrown for an unknown operation, which includes the mod's display name: `InvalidOperation` carries only the offending argument.
- `CharLoader.CharLoader.GetNamedCharSet`: returns the name set as a value, not as a live dictionary. `AddCharacter` writes the updated set back, which is the same effect as line 68's write through the reference.
- `CharLoader.CharLoader.GetNextIndex`: the counter is an unbounded `nat`. In the source, `charCount[font]++` is a 32-bit int that would overflow after 2^31 allocations.
- `Numerals.TryParseInt`: leading and trailing white space, culture-specific signs and the other `NumberStyles.Integer` rules of `int.TryParse` are not modelled. The accepted form is an optional `+`/`-` followed by decimal digits, within the 32-bit range.
- `ShowCharCommand.ParseIndex`: `StartsWith("0x")` uses a culture-sensitive comparison in .NET. The model compares the first two characters exactly.
- Tokens and names are sequences of Unicode scalar values. The characters produced are UTF-16 code units (`Char16`). Surrogate pairs inside names are not modelled.
- Concurrency: the host calls everything on one thread, and the model is sequential.
