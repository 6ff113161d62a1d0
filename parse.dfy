/**
 * The move-input parser shared by both engines: two characters, a column letter
 * `a`..`h` and a row digit `0`..`7`, read as a pair of zero-based coordinates.
 *
 * The parser tests the characters with Unicode's alphabetic and numeric classes and
 * then subtracts `b'a'` / `b'0'` from the character cast to a byte. The two classes
 * are parameters here (they are tables of the Rust standard library); the byte cast
 * keeps the low eight bits of the code point, and the subtraction wraps modulo 256
 * as in a release build.
 */
module Parse {
  import opened Wrappers

  const Size: nat := 8

  /** The one message every rejected input gets. */
  const InvalidInput: string := "Invalid input. Input must be [a-h][0-7]"

  /** `c as u8`: only the low byte of the code point is kept. */
  function LowByte(c: char): (b: nat)
    ensures b < 256
  {
    (c as int) % 256
  }

  /** `c as u8 - base` in wrapping byte arithmetic. */
  function Offset(c: char, base: char): (r: nat)
    ensures r < 256
  {
    (LowByte(c) - base as int) % 256
  }

  /** The parser's validity test, as written. */
  predicate IsValid(input: string, isAlphabetic: char -> bool, isNumeric: char -> bool) {
    |input| == 2
    && (isAlphabetic(input[0]) && Offset(input[0], 'a') < Size)
    && (isNumeric(input[1]) && Offset(input[1], '0') < Size)
  }

  /** `input_parse`, as written. */
  function InputParse(input: string, isAlphabetic: char -> bool, isNumeric: char -> bool): (r: Result<(nat, nat), string>)
    ensures r.Ok? ==> |input| == 2 && r.value.0 < Size && r.value.1 < Size
    ensures r.Ok? ==> r.value == (Offset(input[0], 'a'), Offset(input[1], '0'))
    ensures |input| != 2 ==> r == Err(InvalidInput)
    ensures r.Err? ==> r.error == InvalidInput
  {
    if !IsValid(input, isAlphabetic, isNumeric) then
      Err(InvalidInput)
    else
      Ok((Offset(input[0], 'a'), Offset(input[1], '0')))
  }

  /** The coordinates written as the two characters the parser reads. */
  function Render(x: nat, y: nat): (s: string)
    requires x < Size && y < Size
    ensures |s| == 2 && 'a' <= s[0] <= 'h' && '0' <= s[1] <= '7'
  {
    [(97 + x) as char, (48 + y) as char]
  }

  /** The parser as intended: the first character in `a`..`h`, the second in `0`..`7`. */
  function StrictParse(input: string): (r: Result<(nat, nat), string>)
    ensures r.Ok? <==> |input| == 2 && 'a' <= input[0] <= 'h' && '0' <= input[1] <= '7'
    ensures r.Ok? ==> r.value.0 < Size && r.value.1 < Size
    ensures r.Err? ==> r.error == InvalidInput
  {
    if |input| == 2 && 'a' <= input[0] <= 'h' && '0' <= input[1] <= '7' then
      Ok((input[0] as int - 97, input[1] as int - 48))
    else
      Err(InvalidInput)
  }

  /** Rendering a square and parsing it back gives the square. */
  lemma StrictParseRender(x: nat, y: nat)
    requires x < Size && y < Size
    ensures StrictParse(Render(x, y)) == Ok((x, y))
  {}

  /** Whatever the intended parser accepts is the rendering of what it returns. */
  lemma RenderStrictParse(input: string)
    requires StrictParse(input).Ok?
    ensures Render(StrictParse(input).value.0, StrictParse(input).value.1) == input
  {
    var r := Render(StrictParse(input).value.0, StrictParse(input).value.1);
    assert r[0] == input[0] && r[1] == input[1];
  }

  /** Unicode's alphabetic and numeric classes, restricted to ASCII. */
  ghost predicate AsciiClasses(isAlphabetic: char -> bool, isNumeric: char -> bool) {
    (forall c: char :: (c as int) < 128 ==> (isAlphabetic(c) <==> ('a' <= c <= 'z' || 'A' <= c <= 'Z')))
    && (forall c: char :: (c as int) < 128 ==> (isNumeric(c) <==> '0' <= c <= '9'))
  }

  predicate Ascii(input: string) {
    forall i :: 0 <= i < |input| ==> (input[i] as int) < 128
  }

  lemma AsciiColumn(c: char, isAlphabetic: char -> bool, isNumeric: char -> bool)
    requires AsciiClasses(isAlphabetic, isNumeric) && (c as int) < 128
    ensures (isAlphabetic(c) && Offset(c, 'a') < Size) <==> 'a' <= c <= 'h'
  {}

  lemma AsciiRow(c: char, isAlphabetic: char -> bool, isNumeric: char -> bool)
    requires AsciiClasses(isAlphabetic, isNumeric) && (c as int) < 128
    ensures (isNumeric(c) && Offset(c, '0') < Size) <==> '0' <= c <= '7'
  {}

  /**
   * On ASCII input the parser as written is the intended one: it accepts exactly
   * `[a-h][0-7]`, returns the letter's and the digit's offsets, and rejects
   * everything else with the one message.
   */
  lemma AsciiParse(input: string, isAlphabetic: char -> bool, isNumeric: char -> bool)
    requires AsciiClasses(isAlphabetic, isNumeric) && Ascii(input)
    ensures InputParse(input, isAlphabetic, isNumeric) == StrictParse(input)
  {
    if |input| == 2 {
      AsciiColumn(input[0], isAlphabetic, isNumeric);
      AsciiRow(input[1], isAlphabetic, isNumeric);
    }
  }

  lemma AsciiParseWhen(input: string, isAlphabetic: char -> bool, isNumeric: char -> bool)
    ensures AsciiClasses(isAlphabetic, isNumeric) && Ascii(input) ==>
      InputParse(input, isAlphabetic, isNumeric) == StrictParse(input)
  {
    if AsciiClasses(isAlphabetic, isNumeric) && Ascii(input) {
      AsciiParse(input, isAlphabetic, isNumeric);
    }
  }

  /** U+0161, LATIN SMALL LETTER S WITH CARON: alphabetic, with low byte 0x61 (`a`). */
  const SCaron: char := 0x161 as char

  /**
   * The parser as written accepts a non-ASCII letter whose low byte falls in
   * `a`..`h`: "š0" is read as the square (0, 0), which the intended parser rejects.
   */
  lemma NonAsciiLetterAccepted(isAlphabetic: char -> bool, isNumeric: char -> bool)
    requires isAlphabetic(SCaron) && isNumeric('0')
    ensures InputParse([SCaron, '0'], isAlphabetic, isNumeric) == Ok((0, 0))
    ensures StrictParse([SCaron, '0']).Err?
  {
    assert LowByte(SCaron) == 97;
  }
}
