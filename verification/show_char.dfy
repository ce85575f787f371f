/**
 * The `showchar` chat command (also registered as `char` and `chars`): resolves
 * each token to a character of the mouse-text font, by registered name, by hex
 * or decimal offset into the private-use area, or as a space for a blank token,
 * and sends the characters as one message unless some token failed.
 */
module ShowCharCommand {
  import opened Wrappers
  import opened Host
  import opened Numerals
  import CharLoader

  /** The names the command is registered under. */
  const CommandNames: set<string> := {"showchar", "char", "chars"}

  const NegativeIndexMessage: string := "Negative indices are not allowed"
  const IndexRangeMessage: string :=
    "The PUA this mod uses is U+E000\U{2013}U+F8FF, so a maximum index of 18FF (6399) is allowed"

  function UnknownNameMessage(token: string): string {
    "no character found with name " + token
  }

  /** `char.IsWhiteSpace`: the Unicode space separators, line and paragraph separators, and U+0009..U+000D, U+0085. */
  function IsWhiteSpace(c: char): (b: bool)
    ensures b ==> !IsDigit(c, 16) && c != '+' && c != '-'
  {
    || '\U{9}' <= c <= '\U{D}'
    || c == ' ' || c == '\U{85}' || c == '\U{A0}' || c == '\U{1680}'
    || '\U{2000}' <= c <= '\U{200A}'
    || c == '\U{2028}' || c == '\U{2029}' || c == '\U{202F}' || c == '\U{205F}' || c == '\U{3000}'
  }

  /** `string.IsNullOrWhiteSpace` of a token (tokens are never null here). */
  predicate IsBlank(token: string) {
    forall i | 0 <= i < |token| :: IsWhiteSpace(token[i])
  }

  /** A blank token is never numeric, so the order of the two checks does not matter. */
  lemma BlankNotNumeric(token: string)
    requires IsBlank(token)
    ensures ParseIndex(token).None?
  {
    if |token| > 0 {
      assert IsWhiteSpace(token[0]);
    }
  }

  /** A numeric token: "0x" and a hex number, or else a decimal integer. */
  function ParseIndex(token: string): (r: Option<int>)
    ensures r.Some? ==> Int32Min <= r.value <= Int32Max
  {
    if |token| >= 2 && token[0] == '0' && token[1] == 'x' && TryParseHex(token[2..]).Some? then TryParseHex(token[2..])
    else TryParseInt(token)
  }

  /** The branch of the loop a token takes. */
  datatype TokenKind = Named(code: Char16) | Numeric(index: int) | Blank | Unresolved

  /** Tokens are tried in a fixed order: registered name, number, blank. */
  function Classify(names: map<string, Char16>, token: string): (k: TokenKind)
    ensures k.Named? <==> token in names
    ensures k.Named? ==> k.code == names[token]
  {
    if token in names then Named(names[token])
    else if ParseIndex(token).Some? then Numeric(ParseIndex(token).value)
    else if IsBlank(token) then Blank
    else Unresolved
  }

  /**
   * What one token means on its own: the character it shows, or the error it
   * reports. A name always wins; a number shows its private-use slot when it is
   * in 0..0x18FF and is an error otherwise; a blank token shows a space; anything
   * else is an unknown name. Every character shown that is not a name's is a
   * space or lies in the private-use area U+E000..U+F8FF.
   */
  function ResolveToken(names: map<string, Char16>, token: string): (r: Result<Char16, string>)
    ensures token in names ==> r == Success(names[token])
    ensures r.Success? && token !in names ==>
              r.value == Space || CharLoader.PuaStart <= r.value <= CharLoader.PuaStart + CharLoader.MaxIndex
  {
    match Classify(names, token)
    case Named(c) => Success(c)
    case Numeric(index) =>
      if index < 0 then Failure(NegativeIndexMessage)
      else if index > CharLoader.MaxIndex then Failure(IndexRangeMessage)
      else Success(CharLoader.PrivateUseChar(index))
    case Blank => Success(Space)
    case Unresolved => Failure(UnknownNameMessage(token))
  }

  /**
   * The meaning of an unregistered token: a number shows its slot when in
   * 0..0x18FF and reports the negative-index or out-of-range error otherwise; a
   * blank token shows a space; anything else reports an unknown name.
   */
  lemma TokenMeaning(names: map<string, Char16>, token: string)
    requires token !in names
    ensures ParseIndex(token).Some? ==>
              var index := ParseIndex(token).value;
              ResolveToken(names, token) ==
                if index < 0 then Failure(NegativeIndexMessage)
                else if index > CharLoader.MaxIndex then Failure(IndexRangeMessage)
                else Success(CharLoader.PuaStart + index)
    ensures IsBlank(token) ==> ResolveToken(names, token) == Success(Space)
    ensures ParseIndex(token).None? && !IsBlank(token) ==>
              ResolveToken(names, token) == Failure(UnknownNameMessage(token))
  {
    if IsBlank(token) {
      BlankNotNumeric(token);
      assert ResolveToken(names, token) == Success(Space);
    } else if ParseIndex(token).None? {
      assert Classify(names, token) == Unresolved;
    } else {
      assert Classify(names, token) == Numeric(ParseIndex(token).value);
    }
  }

  /** The loop's two variables: the characters appended so far and the error last set. */
  datatype Builder = Builder(characters: seq<Char16>, error: Option<string>)

  /**
   * One pass of the loop body as written. An out-of-range index sets the error
   * and still appends its (wrapped) character; an unresolved token appends nothing.
   */
  function Step(names: map<string, Char16>, b: Builder, token: string): Builder {
    match Classify(names, token)
    case Named(c) => b.(characters := b.characters + [c])
    case Numeric(index) =>
      var error := if index < 0 then Some(NegativeIndexMessage)
                   else if index > CharLoader.MaxIndex then Some(IndexRangeMessage)
                   else b.error;
      Builder(b.characters + [CharLoader.PrivateUseChar(index)], error)
    case Blank => b.(characters := b.characters + [Space])
    case Unresolved => b.(error := Some(UnknownNameMessage(token)))
  }

  /** The loop over all tokens, in input order. */
  function Scan(names: map<string, Char16>, tokens: seq<string>): Builder {
    if tokens == [] then Builder([], None)
    else Step(names, Scan(names, tokens[..|tokens| - 1]), tokens[|tokens| - 1])
  }

  /** The command's outcome: the text it sends, or the error it replies with. */
  function ShowChar(names: map<string, Char16>, tokens: seq<string>): (r: Result<seq<Char16>, string>)
    ensures r.Success? ==> |r.value| == |tokens|
  {
    var b := Scan(names, tokens);
    ScanLength(names, tokens);
    if b.error.Some? then Failure(b.error.value) else Success(b.characters)
  }

  /** The loop appends at most one character per token, and exactly one when no error is set. */
  lemma {:induction false} ScanLength(names: map<string, Char16>, tokens: seq<string>)
    ensures |Scan(names, tokens).characters| <= |tokens|
    ensures Scan(names, tokens).error.None? ==> |Scan(names, tokens).characters| == |tokens|
  {
    if tokens != [] {
      ScanLength(names, tokens[..|tokens| - 1]);
      StepGrows(names, Scan(names, tokens[..|tokens| - 1]), tokens[|tokens| - 1]);
    }
  }

  /** Each token's meaning on its own, in input order. */
  function Resolve(names: map<string, Char16>, tokens: seq<string>): (rs: seq<Result<Char16, string>>)
    ensures |rs| == |tokens|
    ensures forall i | 0 <= i < |tokens| :: rs[i] == ResolveToken(names, tokens[i])
  {
    seq(|tokens|, i requires 0 <= i < |tokens| => ResolveToken(names, tokens[i]))
  }

  /** The error of the last failure in a sequence of results, if there is one. */
  function LastError<T>(rs: seq<Result<T, string>>): Option<string> {
    if rs == [] then None
    else if rs[|rs| - 1].Failure? then Some(rs[|rs| - 1].error)
    else LastError(rs[..|rs| - 1])
  }

  /** No error is found exactly when nothing failed; one found is that of the last failure. */
  lemma {:induction false} LastErrorIsLast<T>(rs: seq<Result<T, string>>)
    ensures LastError(rs).None? <==> forall i | 0 <= i < |rs| :: rs[i].Success?
    ensures LastError(rs).Some? ==>
              exists j | 0 <= j < |rs| ::
                && rs[j] == Failure(LastError(rs).value)
                && forall k | j < k < |rs| :: rs[k].Success?
  {
    if rs != [] {
      var prefix := rs[..|rs| - 1];
      LastErrorIsLast(prefix);
      if rs[|rs| - 1].Success? && LastError(prefix).Some? {
        var j :| 0 <= j < |prefix| && prefix[j] == Failure(LastError(prefix).value)
                 && forall k | j < k < |prefix| :: prefix[k].Success?;
        assert rs[j] == Failure(LastError(rs).value);
      }
    }
  }

  /**
   * One pass keeps what was appended and appends at most one character; it never
   * clears the error, and when it leaves no error it has appended exactly one.
   */
  lemma StepGrows(names: map<string, Char16>, b: Builder, token: string)
    ensures var next := Step(names, b, token);
            && b.characters <= next.characters && |next.characters| <= |b.characters| + 1
            && (b.error.Some? ==> next.error.Some?)
            && (next.error.None? ==> |next.characters| == |b.characters| + 1)
  {
  }

  /** One pass sets the error exactly when the token fails, to that token's error. */
  lemma StepError(names: map<string, Char16>, b: Builder, token: string)
    ensures Step(names, b, token).error ==
              if ResolveToken(names, token).Failure? then Some(ResolveToken(names, token).error) else b.error
  {
  }

  /** One pass over a token that resolves appends exactly that token's character. */
  lemma StepAppends(names: map<string, Char16>, b: Builder, token: string)
    requires ResolveToken(names, token).Success?
    ensures Step(names, b, token).characters == b.characters + [ResolveToken(names, token).value]
  {
  }

  /** The loop's error variable ends up holding the error of the last failing token. */
  lemma {:induction false} ScanError(names: map<string, Char16>, tokens: seq<string>)
    ensures Scan(names, tokens).error == LastError(Resolve(names, tokens))
  {
    if tokens != [] {
      var prefix := tokens[..|tokens| - 1];
      ScanError(names, prefix);
      StepError(names, Scan(names, prefix), tokens[|tokens| - 1]);
      assert Resolve(names, tokens)[..|tokens| - 1] == Resolve(names, prefix);
    }
  }

  /** The values of a sequence of successes, in order. */
  function Values<T>(rs: seq<Result<T, string>>): (vs: seq<T>)
    requires forall i | 0 <= i < |rs| :: rs[i].Success?
    ensures |vs| == |rs| && forall i | 0 <= i < |rs| :: vs[i] == rs[i].value
  {
    seq(|rs|, i requires 0 <= i < |rs| => rs[i].value)
  }

  /** The values of a sequence of successes grow by one at each new success. */
  lemma ValuesSnoc<T>(rs: seq<Result<T, string>>)
    requires rs != [] && forall i | 0 <= i < |rs| :: rs[i].Success?
    ensures Values(rs) == Values(rs[..|rs| - 1]) + [rs[|rs| - 1].value]
  {
  }

  /** When every token resolves, the loop has appended exactly their characters, in order. */
  lemma {:induction false} ScanCharacters(names: map<string, Char16>, tokens: seq<string>)
    requires forall i | 0 <= i < |tokens| :: Resolve(names, tokens)[i].Success?
    ensures Scan(names, tokens).characters == Values(Resolve(names, tokens))
  {
    if tokens != [] {
      var n := |tokens| - 1;
      var prefix := tokens[..n];
      var rs := Resolve(names, tokens);
      var rp := Resolve(names, prefix);
      assert rs[..n] == rp;
      ScanCharacters(names, prefix);
      StepAppends(names, Scan(names, prefix), tokens[n]);
      ValuesSnoc(rs);
    }
  }

  /**
   * The command sends text exactly when every token resolves, and the text is the
   * tokens' characters in input order; otherwise it replies with the error of the
   * last failing token.
   */
  lemma ShowCharOutcome(names: map<string, Char16>, tokens: seq<string>)
    ensures ShowChar(names, tokens).Success? <==> forall i | 0 <= i < |tokens| :: ResolveToken(names, tokens[i]).Success?
    ensures ShowChar(names, tokens).Success? ==>
              && |ShowChar(names, tokens).value| == |tokens|
              && forall i | 0 <= i < |tokens| :: ShowChar(names, tokens).value[i] == ResolveToken(names, tokens[i]).value
    ensures ShowChar(names, tokens).Failure? ==>
              exists j | 0 <= j < |tokens| ::
                && ResolveToken(names, tokens[j]) == Failure(ShowChar(names, tokens).error)
                && forall k | j < k < |tokens| :: ResolveToken(names, tokens[k]).Success?
  {
    var rs := Resolve(names, tokens);
    ScanError(names, tokens);
    LastErrorIsLast(rs);
    if ShowChar(names, tokens).Success? {
      ScanCharacters(names, tokens);
    } else {
      var j :| 0 <= j < |rs| && rs[j] == Failure(LastError(rs).value) && forall k | j < k < |rs| :: rs[k].Success?;
      assert ResolveToken(names, tokens[j]) == Failure(ShowChar(names, tokens).error);
    }
  }

  /** "0x" followed by the hex digits of a 32-bit pattern parses to the pattern's signed reading. */
  lemma HexIndex(n: nat)
    requires n < UInt32Limit
    ensures ParseIndex("0x" + HexString(n)) == Some(ToInt32(n))
  {
    assert ("0x" + HexString(n))[2..] == HexString(n);
    HexRoundTrip(n);
  }

  /** A "+" after the "0x" is skipped by the hex parser: "0x+" tokens parse as "0x" tokens do. */
  lemma SignedHexIndex(n: nat)
    requires n < UInt32Limit
    ensures ParseIndex("0x+" + HexString(n)) == Some(ToInt32(n))
  {
    assert ("0x+" + HexString(n))[2..] == "+" + HexString(n);
    SignedHexRoundTrip(n);
  }

  /**
   * An unregistered "0x" token with the hex digits of any 32-bit pattern: the
   * pattern's signed reading shows its slot when in 0..0x18FF, and otherwise
   * reports the negative-index or out-of-range error.
   */
  lemma HexToken(names: map<string, Char16>, n: nat)
    requires n < UInt32Limit && "0x" + HexString(n) !in names
    ensures ResolveToken(names, "0x" + HexString(n)) ==
              var index := ToInt32(n);
              if index < 0 then Failure(NegativeIndexMessage)
              else if index > CharLoader.MaxIndex then Failure(IndexRangeMessage)
              else Success(CharLoader.PuaStart + index)
  {
    HexIndex(n);
    TokenMeaning(names, "0x" + HexString(n));
  }

  /** The decimal text of a 32-bit integer is never taken for a hex token and parses to that integer. */
  lemma DecimalIndex(n: int)
    requires Int32Min <= n <= Int32Max
    ensures ParseIndex(DecimalString(n)) == Some(n)
  {
    var token := DecimalString(n);
    if |token| >= 2 {
      if n >= 0 {
        assert IsDigit(token[1], 10);
      } else {
        assert token[0] == '-';
      }
    }
    DecimalRoundTrip(n);
  }

  /**
   * An unregistered decimal token shows its slot when in range, and otherwise
   * reports the negative-index or out-of-range error.
   */
  lemma DecimalToken(names: map<string, Char16>, n: int)
    requires Int32Min <= n <= Int32Max && DecimalString(n) !in names
    ensures ResolveToken(names, DecimalString(n)) ==
              if n < 0 then Failure(NegativeIndexMessage)
              else if n > CharLoader.MaxIndex then Failure(IndexRangeMessage)
              else Success(CharLoader.PuaStart + n)
  {
    DecimalIndex(n);
    TokenMeaning(names, DecimalString(n));
  }

  /** The unregistered token "0x10" shows U+E010. */
  lemma HexExample(names: map<string, Char16>)
    requires "0x10" !in names
    ensures ResolveToken(names, "0x10") == Success(0xE010)
  {
    assert "0x" + HexString(16) == "0x10";
    HexToken(names, 16);
  }

  /** The unregistered token "0x+10" shows U+E010 as well: the hex parser skips the "+". */
  lemma SignedHexExample(names: map<string, Char16>)
    requires "0x+10" !in names
    ensures ResolveToken(names, "0x+10") == Success(0xE010)
  {
    assert "0x+" + HexString(16) == "0x+10";
    SignedHexIndex(16);
    TokenMeaning(names, "0x+10");
  }

  /** The unregistered token "24" shows U+E018. */
  lemma DecimalExample(names: map<string, Char16>)
    requires "24" !in names
    ensures ResolveToken(names, "24") == Success(0xE018)
  {
    assert DecimalString(24) == "24";
    DecimalToken(names, 24);
  }

  /** The unregistered token "6400" is one past the last slot and reports the range error. */
  lemma OutOfRangeExample(names: map<string, Char16>)
    requires "6400" !in names
    ensures ResolveToken(names, "6400") == Failure(IndexRangeMessage)
  {
    assert DecimalString(6400) == "6400";
    DecimalToken(names, 6400);
  }

  /**
   * `Action`: looks every token up against the mouse-text font's names (creating
   * that font's empty name set if the font has none), then sends the
   * characters or replies with the error.
   */
  method Action(loader: CharLoader.CharLoader, mouseText: DynamicSpriteFont, args: seq<string>)
    returns (r: Result<seq<Char16>, string>)
    modifies loader
    ensures r == ShowChar(old(loader.NamedCharSet(mouseText)), args)
    ensures loader.charCount == old(loader.charCount)
    ensures loader.namedChars == if args == [] then old(loader.namedChars)
                                 else old(loader.namedChars)[mouseText := old(loader.NamedCharSet(mouseText))]
  {
    ghost var names := loader.NamedCharSet(mouseText);
    var characters: seq<Char16> := [];
    var error: Option<string> := None;
    for i := 0 to |args|
      invariant Builder(characters, error) == Scan(names, args[..i])
      invariant loader.charCount == old(loader.charCount)
      invariant loader.namedChars == if i == 0 then old(loader.namedChars)
                                     else old(loader.namedChars)[mouseText := names]
    {
      assert args[..i + 1][..i] == args[..i];
      var named := loader.GetNamedChar(mouseText, args[i]);
      if named.Some? {
        characters := characters + [named.value];
      } else {
        var index := ParseIndex(args[i]);
        if index.Some? {
          if index.value < 0 {
            error := Some(NegativeIndexMessage);
          } else if index.value > CharLoader.MaxIndex {
            error := Some(IndexRangeMessage);
          }
          characters := characters + [CharLoader.PrivateUseChar(index.value)];
        } else if IsBlank(args[i]) {
          characters := characters + [Space];
        } else {
          error := Some(UnknownNameMessage(args[i]));
        }
      }
    }
    assert args[..|args|] == args;
    r := if error.Some? then Failure(error.value) else Success(characters);
  }
}
