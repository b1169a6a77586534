/**
 * The cursor-based lexer of chapter 5: numbers, `+` and spaces; any other
 * character is an error.
 */
module Lexing {
  import opened Wrappers
  import opened Decimal

  datatype Token = Number(value: nat) | Plus

  /** `Lexer.Error`. */
  datatype LexError = InvalidCharacter(c: char)

  /** A character `lex` accepts. */
  predicate Legal(c: char) {
    IsDigit(c) || c == '+' || c == ' '
  }

  /** The length of the run of digits that starts `s`. */
  function DigitRun(s: string): (k: nat)
    ensures k <= |s| && AllDigits(s[..k]) && (k < |s| ==> !IsDigit(s[k]))
  {
    if s == [] || !IsDigit(s[0]) then 0
    else
      var k := 1 + DigitRun(s[1..]);
      assert s[..k] == [s[0]] + s[1..][..k - 1];
      k
  }

  /** Only one prefix length is an all-digit run followed by the end or a non-digit. */
  lemma {:induction false} DigitRunUnique(s: string, k: nat)
    requires k <= |s| && AllDigits(s[..k]) && (k < |s| ==> !IsDigit(s[k]))
    ensures DigitRun(s) == k
  {
    if k > 0 {
      assert s[1..][..k - 1] == s[1..k];
      DigitRunUnique(s[1..], k - 1);
    }
  }

  /** The tokens of `s`, or the first character that is not allowed. */
  function Tokens(s: string): Result<seq<Token>, LexError>
    decreases |s|
  {
    if s == [] then Ok([])
    else if IsDigit(s[0]) then
      var k := DigitRun(s);
      Cons(Number(DigitsValue(s[..k])), Tokens(s[k..]))
    else if s[0] == '+' then Cons(Plus, Tokens(s[1..]))
    else if s[0] == ' ' then Tokens(s[1..])
    else Err(InvalidCharacter(s[0]))
  }

  function Cons(t: Token, r: Result<seq<Token>, LexError>): Result<seq<Token>, LexError> {
    match r
    case Ok(ts) => Ok([t] + ts)
    case Err(e) => Err(e)
  }

  /** Tokens already emitted, followed by whatever the rest of the input yields. */
  function Prepend(ts: seq<Token>, r: Result<seq<Token>, LexError>): Result<seq<Token>, LexError> {
    match r
    case Ok(us) => Ok(ts + us)
    case Err(e) => Err(e)
  }

  lemma PrependCons(ts: seq<Token>, t: Token, r: Result<seq<Token>, LexError>)
    ensures Prepend([], r) == r
    ensures Prepend(ts, Cons(t, r)) == Prepend(ts + [t], r)
  {
    if r.Ok? {
      assert [] + r.value == r.value;
      assert ts + ([t] + r.value) == ts + [t] + r.value;
    }
  }

  /** Lexing fails exactly when some character is not allowed, and then it names the first such character. */
  lemma {:induction false} TokensError(s: string)
    ensures Tokens(s).Ok? <==> forall i :: 0 <= i < |s| ==> Legal(s[i])
    ensures Tokens(s).Err? ==> exists i :: 0 <= i < |s| && !Legal(s[i]) && s[i] == Tokens(s).error.c &&
                                          forall j :: 0 <= j < i ==> Legal(s[j])
    decreases |s|
  {
    if s != [] && Legal(s[0]) {
      var k := if IsDigit(s[0]) then DigitRun(s) else 1;
      var rest := s[k..];
      TokensError(rest);
      assert forall i :: 0 <= i < k ==> Legal(s[i]) by {
        forall i | 0 <= i < k ensures Legal(s[i]) {
          if IsDigit(s[0]) { assert s[..k][i] == s[i]; }
        }
      }
      assert forall i :: k <= i < |s| ==> s[i] == rest[i - k];
      if Tokens(s).Err? {
        var i :| 0 <= i < |rest| && !Legal(rest[i]) && rest[i] == Tokens(rest).error.c &&
                 forall j :: 0 <= j < i ==> Legal(rest[j]);
        assert s[k + i] == rest[i];
        assert forall j :: k <= j < k + i ==> Legal(s[j]) by {
          forall j | k <= j < k + i ensures Legal(s[j]) { assert s[j] == rest[j - k]; }
        }
      }
    }
  }

  /** There are never more tokens than characters. */
  lemma {:induction false} TokensFewerThanChars(s: string)
    requires Tokens(s).Ok?
    ensures |Tokens(s).value| <= |s|
    decreases |s|
  {
    if s != [] {
      if IsDigit(s[0]) {
        TokensFewerThanChars(s[DigitRun(s)..]);
      } else {
        TokensFewerThanChars(s[1..]);
      }
    }
  }

  /** The driver's sample input. */
  lemma SampleInput()
    ensures Tokens("1 2 +") == Ok([Number(1), Number(2), Plus])
  {
    assert DigitRun("1 2 +") == 1 by { DigitRunUnique("1 2 +", 1); }
    assert "1 2 +"[1..] == " 2 +";
    assert DigitRun("2 +") == 1 by { DigitRunUnique("2 +", 1); }
    assert " 2 +"[1..] == "2 +" && "2 +"[1..] == " +" && " +"[1..] == "+" && "+"[1..] == "";
    assert "1 2 +"[..1] == "1" && "2 +"[..1] == "2";
    assert "1"[..0] == "" && "2"[..0] == "";
    assert DigitsValue("1") == 1 && DigitsValue("2") == 2;
    assert Tokens("") == Ok([]);
    assert [Plus] + [] == [Plus];
    assert Tokens("+") == Cons(Plus, Tokens(""));
    assert Tokens("+") == Ok([Plus]);
    assert Tokens(" +") == Ok([Plus]);
    assert Tokens("2 +") == Cons(Number(2), Tokens(" +"));
    assert [Number(2)] + [Plus] == [Number(2), Plus];
    assert Tokens("2 +") == Ok([Number(2), Plus]);
    assert Tokens(" 2 +") == Ok([Number(2), Plus]);
    assert Tokens("1 2 +") == Cons(Number(1), Tokens(" 2 +"));
    assert [Number(1)] + [Number(2), Plus] == [Number(1), Number(2), Plus];
  }

  /** How one token is written: its decimal numeral, or `+`. */
  function TokenText(t: Token): string {
    match t
    case Number(v) => NatToString(v)
    case Plus => "+"
  }

  /** Tokens written back out, separated by single spaces. */
  function Render(ts: seq<Token>): string {
    if ts == [] then ""
    else if |ts| == 1 then TokenText(ts[0])
    else TokenText(ts[0]) + (" " + Render(ts[1..]))
  }

  /** A token's text followed by nothing or by a space lexes to that token and then whatever follows. */
  lemma LexToken(t: Token, tail: string)
    requires tail == [] || tail[0] == ' '
    ensures Tokens(TokenText(t) + tail) == Cons(t, Tokens(tail))
  {
    var h := TokenText(t);
    var s := h + tail;
    assert s[..|h|] == h && s[|h|..] == tail;
    match t
    case Number(v) =>
      DigitRunUnique(s, |h|);
      DigitsValueOfNatToString(v);
    case Plus =>
  }

  /** A space is skipped. */
  lemma LexSpace(tail: string)
    ensures Tokens(" " + tail) == Tokens(tail)
  {
    assert (" " + tail)[1..] == tail;
  }

  /** Lexing the rendering of a token list gives the list back. */
  lemma {:induction false} LexRender(ts: seq<Token>)
    ensures Tokens(Render(ts)) == Ok(ts)
    decreases |ts|
  {
    if |ts| == 1 {
      LexToken(ts[0], "");
      assert Render(ts) == TokenText(ts[0]) + "";
      assert [ts[0]] + [] == ts;
    } else if |ts| > 1 {
      var rest := Render(ts[1..]);
      LexRender(ts[1..]);
      LexSpace(rest);
      LexToken(ts[0], " " + rest);
      assert [ts[0]] + ts[1..] == ts;
    }
  }

  /** `Lexer`: the characters of the input and a cursor into them. */
  class Lexer {
    const input: string
    var position: nat

    ghost predicate Valid()
      reads this
    {
      position <= |input|
    }

    constructor (input: string)
      ensures this.input == input && position == 0 && Valid()
    {
      this.input := input;
      position := 0;
    }

    /** The character under the cursor, or None at the end; the cursor stays put. */
    method Peek() returns (c: Option<char>)
      requires Valid()
      ensures c.None? <==> position == |input|
      ensures c.Some? ==> c.value == input[position]
    {
      if !(position < |input|) {
        return None;
      }
      return Some(input[position]);
    }

    /** Move the cursor one character on; going past the end fails the assertion. */
    method Advance()
      requires Valid() && position < |input|
      modifies this
      ensures Valid() && position == old(position) + 1
    {
      position := position + 1;
    }

    /** Consume the longest run of digits under the cursor and return its value. */
    method GetNumber() returns (value: nat)
      requires Valid()
      modifies this
      ensures Valid()
      ensures position == old(position) + DigitRun(input[old(position)..])
      ensures AllDigits(input[old(position)..position])
      ensures value == DigitsValue(input[old(position)..position])
    {
      value := 0;
      var c := Peek();
      while c.Some?
        invariant Valid() && old(position) <= position
        invariant AllDigits(input[old(position)..position])
        invariant value == DigitsValue(input[old(position)..position])
        invariant c.None? <==> position == |input|
        invariant c.Some? ==> c.value == input[position]
        decreases |input| - position
      {
        if IsDigit(c.value) {
          assert input[old(position)..position + 1] == input[old(position)..position] + [c.value];
          value := 10 * value + DigitValue(c.value);
          Advance();
        } else {
          assert input[old(position)..][..position - old(position)] == input[old(position)..position];
          DigitRunUnique(input[old(position)..], position - old(position));
          return value;
        }
        c := Peek();
      }
      assert input[old(position)..][..position - old(position)] == input[old(position)..position];
      DigitRunUnique(input[old(position)..], position - old(position));
      return value;
    }

    /** Lex the rest of the input from the cursor. */
    method Lex() returns (r: Result<seq<Token>, LexError>)
      requires Valid()
      modifies this
      ensures Valid() && old(position) <= position
      ensures r == Tokens(old(input[position..]))
      ensures r.Ok? ==> position == |input|
      ensures r.Err? ==> position < |input| && input[position] == r.error.c
    {
      var tokens: seq<Token> := [];
      var c := Peek();
      PrependCons([], Plus, Tokens(input[position..]));
      while c.Some?
        invariant Valid() && old(position) <= position
        invariant Tokens(old(input[position..])) == Prepend(tokens, Tokens(input[position..]))
        invariant c.None? <==> position == |input|
        invariant c.Some? ==> c.value == input[position]
        decreases |input| - position
      {
        var rest := input[position..];
        if IsDigit(c.value) {
          var start := position;
          var value := GetNumber();
          assert rest[..DigitRun(rest)] == input[start..position];
          assert rest[DigitRun(rest)..] == input[position..];
          PrependCons(tokens, Number(value), Tokens(input[position..]));
          tokens := tokens + [Number(value)];
        } else if c.value == '+' {
          PrependCons(tokens, Plus, Tokens(rest[1..]));
          tokens := tokens + [Plus];
          Advance();
          assert rest[1..] == input[position..];
        } else if c.value == ' ' {
          Advance();
          assert rest[1..] == input[position..];
        } else {
          return Err(InvalidCharacter(c.value));
        }
        c := Peek();
      }
      assert input[position..] == [];
      assert tokens + [] == tokens;
      return Ok(tokens);
    }
  }
}
