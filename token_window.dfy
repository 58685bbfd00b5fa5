/**
 * Token-budget windowing (countTokens in index.js). When the token sequence of the
 * downloaded text is shorter than the budget the text is kept; otherwise it is rebuilt
 * by decoding the tokens one at a time, in order, until `max` of them are appended.
 * The result is never re-encoded, so nothing here bounds the token count of the
 * rebuilt text; what is stated is its shape.
 */
module TokenWindow {
  import opened SkillTypes

  /** Decode each token on its own and concatenate the pieces in token order. */
  function DecodeEach(tokens: seq<Token>, decode: seq<Token> -> string): string
    decreases |tokens|
  {
    if tokens == [] then ""
    else DecodeEach(tokens[..|tokens| - 1], decode) + decode([tokens[|tokens| - 1]])
  }

  /** How many tokens the rebuilding loop appends: none when max <= 0, else min(max, n). */
  function Appended(n: nat, max: int): nat
  {
    if max <= 0 then 0 else if max < n then max else n
  }

  /** The text after windowing, given the text, its tokens and the budget. */
  function Window(text: string, encoded: seq<Token>, decode: seq<Token> -> string, max: int): string
  {
    if |encoded| < max then text
    else DecodeEach(encoded[..Appended(|encoded|, max)], decode)
  }

  /**
   * The rebuilding loop: walk the tokens in order, stop once `max` have been
   * appended, append the decoding of each single token.
   */
  method Rebuild(encoded: seq<Token>, decode: seq<Token> -> string, max: int)
    returns (textEdited: string)
    ensures textEdited == DecodeEach(encoded[..Appended(|encoded|, max)], decode)
  {
    var i := 0;
    textEdited := "";
    for idx := 0 to |encoded|
      invariant i == idx
      invariant max <= 0 ==> i == 0
      invariant 0 < max ==> i <= max
      invariant textEdited == DecodeEach(encoded[..i], decode)
    {
      if i >= max {
        break;
      }
      var token := encoded[idx];
      assert encoded[..i + 1][..i] == encoded[..i];
      textEdited := textEdited + decode([token]);
      i := i + 1;
    }
  }

  /** Decoding token by token distributes over concatenation of token sequences. */
  lemma {:induction false} DecodeEachAppend(a: seq<Token>, b: seq<Token>, decode: seq<Token> -> string)
    ensures DecodeEach(a + b, decode) == DecodeEach(a, decode) + DecodeEach(b, decode)
    decreases |b|
  {
    if b == [] {
      assert a + b == a;
    } else {
      var init := b[..|b| - 1];
      assert (a + b)[..|a + b| - 1] == a + init;
      assert (a + b)[|a + b| - 1] == b[|b| - 1];
      DecodeEachAppend(a, init, decode);
    }
  }

  /** Decoding a token prefix yields a prefix of decoding all the tokens. */
  lemma {:induction false} DecodeEachPrefix(tokens: seq<Token>, k: nat, decode: seq<Token> -> string)
    requires k <= |tokens|
    ensures DecodeEach(tokens[..k], decode) <= DecodeEach(tokens, decode)
  {
    assert tokens == tokens[..k] + tokens[k..];
    DecodeEachAppend(tokens[..k], tokens[k..], decode);
  }

  /** Below the budget the downloaded text is handed on unchanged. */
  lemma WindowBelowBudget(text: string, encoded: seq<Token>, decode: seq<Token> -> string, max: int)
    requires |encoded| < max
    ensures Window(text, encoded, decode, max) == text
  {
  }

  /**
   * At or above the budget the window is the in-order concatenation of the single-token
   * decodings of exactly min(max, |encoded|) leading tokens (none when max <= 0), and it
   * is a prefix of decoding every token one at a time.
   */
  lemma {:induction false} WindowAtBudget(text: string, encoded: seq<Token>, decode: seq<Token> -> string, max: int)
    requires |encoded| >= max
    ensures var k := if max <= 0 then 0 else max;
      k <= |encoded| &&
      Window(text, encoded, decode, max) == DecodeEach(encoded[..k], decode) &&
      Window(text, encoded, decode, max) <= DecodeEach(encoded, decode)
  {
    DecodeEachPrefix(encoded, Appended(|encoded|, max), decode);
  }

  /** A non-positive budget always yields the empty text. */
  lemma WindowNonPositiveBudget(text: string, encoded: seq<Token>, decode: seq<Token> -> string, max: int)
    requires max <= 0
    ensures Window(text, encoded, decode, max) == ""
  {
  }

  /** Raising the budget (while still truncating) only extends the window. */
  lemma WindowMonotone(text: string, encoded: seq<Token>, decode: seq<Token> -> string, lo: int, hi: int)
    requires lo <= hi <= |encoded|
    ensures Window(text, encoded, decode, lo) <= Window(text, encoded, decode, hi)
  {
    var k := Appended(|encoded|, hi);
    var j := Appended(|encoded|, lo);
    assert encoded[..k][..j] == encoded[..j];
    DecodeEachPrefix(encoded[..k], j, decode);
  }

  /** A decoder that maps concatenation to concatenation. */
  ghost predicate Concatenative(decode: seq<Token> -> string)
  {
    forall a: seq<Token>, b: seq<Token> {:trigger decode(a + b)} :: decode(a + b) == decode(a) + decode(b)
  }

  /** For a concatenative decoder, decoding token by token equals decoding all at once. */
  lemma {:induction false} DecodeEachConcatenative(tokens: seq<Token>, decode: seq<Token> -> string)
    requires Concatenative(decode)
    ensures DecodeEach(tokens, decode) == decode(tokens)
    decreases |tokens|
  {
    if tokens == [] {
      var empty: seq<Token> := [];
      assert empty + empty == empty;
      assert decode(empty + empty) == decode(empty) + decode(empty);
      assert |decode(empty)| == 0;
    } else {
      var init := tokens[..|tokens| - 1];
      assert init + [tokens[|tokens| - 1]] == tokens;
      assert decode(init + [tokens[|tokens| - 1]]) == decode(init) + decode([tokens[|tokens| - 1]]);
      DecodeEachConcatenative(init, decode);
    }
  }

  /**
   * For a concatenative decoder that inverts encode on this text, a text with exactly
   * `max` tokens comes back from the rebuilding loop unchanged.
   */
  lemma WindowAtExactBudget(text: string, tokenizer: Tokenizer, max: int)
    requires Concatenative(tokenizer.decode)
    requires tokenizer.decode(tokenizer.encode(text)) == text
    requires |tokenizer.encode(text)| == max
    ensures Window(text, tokenizer.encode(text), tokenizer.decode, max) == text
  {
    var encoded := tokenizer.encode(text);
    assert encoded[..Appended(|encoded|, max)] == encoded;
    DecodeEachConcatenative(encoded, tokenizer.decode);
  }

  /**
   * Without that hypothesis the rebuild at exactly the budget can change the text: a
   * decoder that renders every token as '?' turns the two-token text "ab" into "??".
   */
  lemma ExactBudgetRebuildCanChange()
    ensures var decode := (tokens: seq<Token>) => seq(|tokens|, i => '?');
      Window("ab", [0, 1], decode, 2) == "??" && Window("ab", [0, 1], decode, 2) != "ab"
  {
    var decode := (tokens: seq<Token>) => seq(|tokens|, i => '?');
    var encoded: seq<Token> := [0, 1];
    assert encoded[..2] == encoded && encoded[..2][..1] == [0] && [0][..0] == [];
    assert DecodeEach([0], decode) == "?";
    assert DecodeEach(encoded, decode) == "??";
  }
}
