/**
 * Reading the landscape text field: the text is split on every space and
 * every comma, each piece is parsed as a number, and the first piece that
 * does not parse becomes the message shown to the user.
 *
 * Number parsing itself (Rust's `f64::from_str`) is not part of this model:
 * it is a parameter, a partial function from a token to a number or to the
 * text of its parse error.
 */
module LandscapeInput {
  import opened Wrappers

  /** A number parser: the number a token denotes, or the reason it denotes none. */
  type NumberParser = string -> Result<real, string>

  /** The characters the landscape text is split on. */
  predicate IsDelimiter(c: char) {
    c == ' ' || c == ','
  }

  predicate DelimiterFree(token: string) {
    forall i :: 0 <= i < |token| ==> !IsDelimiter(token[i])
  }

  /** The delimiter characters of `s`, in the order they occur. */
  function Delimiters(s: string): (seps: string)
    ensures forall i :: 0 <= i < |seps| ==> IsDelimiter(seps[i])
  {
    if s == [] then []
    else (if IsDelimiter(s[0]) then [s[0]] else []) + Delimiters(s[1..])
  }

  /**
   * Splitting on every delimiter, as `str::split` with a character-set
   * pattern does: consecutive delimiters yield empty tokens, and the empty
   * text yields one empty token.
   */
  function Split(s: string): (tokens: seq<string>)
    ensures |tokens| == |Delimiters(s)| + 1
    ensures forall k :: 0 <= k < |tokens| ==> DelimiterFree(tokens[k])
  {
    if s == [] then [""]
    else
      var rest := Split(s[1..]);
      if IsDelimiter(s[0]) then [""] + rest
      else [[s[0]] + rest[0]] + rest[1..]
  }

  /** The inverse of splitting: tokens interleaved with the separators between them. */
  function Join(tokens: seq<string>, seps: string): string
    requires |tokens| == |seps| + 1
    decreases |seps|
  {
    if seps == [] then tokens[0]
    else tokens[0] + [seps[0]] + Join(tokens[1..], seps[1..])
  }

  /** Splitting loses nothing: joining the tokens back with the delimiters gives the text. */
  lemma {:induction false} JoinSplit(s: string)
    ensures Join(Split(s), Delimiters(s)) == s
  {
    if s != [] {
      var rest := Split(s[1..]);
      var seps := Delimiters(s[1..]);
      JoinSplit(s[1..]);
      if IsDelimiter(s[0]) {
        assert Split(s) == [""] + rest;
        assert Delimiters(s) == [s[0]] + seps;
        assert ([""] + rest)[1..] == rest;
        calc {
          Join(Split(s), Delimiters(s));
          "" + [s[0]] + Join(rest, seps);
          [s[0]] + s[1..];
          s;
        }
      } else {
        assert Split(s) == [[s[0]] + rest[0]] + rest[1..];
        assert Delimiters(s) == seps;
        if seps == [] {
          assert Join(rest, seps) == rest[0];
          assert [s[0]] + s[1..] == s;
        } else {
          var tail := Join(rest[1..], seps[1..]);
          assert Join(rest, seps) == rest[0] + [seps[0]] + tail;
          assert ([[s[0]] + rest[0]] + rest[1..])[1..] == rest[1..];
          calc {
            Join(Split(s), Delimiters(s));
            [s[0]] + rest[0] + [seps[0]] + tail;
            [s[0]] + (rest[0] + [seps[0]] + tail);
            [s[0]] + s[1..];
            s;
          }
        }
      }
    }
  }

  /**
   * Splitting is the only way to cut the text into delimiter-free tokens
   * separated by single delimiters: any such cut is exactly `Split`.
   */
  lemma {:induction false} SplitUnique(s: string, tokens: seq<string>, seps: string)
    requires |tokens| == |seps| + 1
    requires forall k :: 0 <= k < |tokens| ==> DelimiterFree(tokens[k])
    requires forall i :: 0 <= i < |seps| ==> IsDelimiter(seps[i])
    requires Join(tokens, seps) == s
    ensures Split(s) == tokens
    decreases |s|
  {
    if tokens[0] != [] {
      var first := tokens[0];
      assert !IsDelimiter(first[0]);
      var shorter := [first[1..]] + tokens[1..];
      assert DelimiterFree(first[1..]) by {
        forall i | 0 <= i < |first[1..]| ensures !IsDelimiter(first[1..][i]) {
          assert first[1..][i] == first[i + 1];
        }
      }
      assert forall k :: 0 <= k < |shorter| ==> DelimiterFree(shorter[k]) by {
        forall k | 0 <= k < |shorter| ensures DelimiterFree(shorter[k]) {
          if k > 0 { assert shorter[k] == tokens[k]; }
        }
      }
      if seps == [] {
        assert s == first;
        assert Join(shorter, seps) == first[1..];
      } else {
        var tail := Join(tokens[1..], seps[1..]);
        assert s == first + [seps[0]] + tail;
        assert shorter[1..] == tokens[1..];
        assert Join(shorter, seps) == first[1..] + [seps[0]] + tail;
        assert first + [seps[0]] + tail == [first[0]] + (first[1..] + [seps[0]] + tail);
      }
      assert s[0] == first[0] && s[1..] == Join(shorter, seps);
      SplitUnique(s[1..], shorter, seps);
      assert first == [s[0]] + shorter[0];
      assert shorter[1..] == tokens[1..];
      assert tokens == [first] + tokens[1..];
    } else if seps != [] {
      var tail := Join(tokens[1..], seps[1..]);
      assert s == [seps[0]] + tail;
      assert forall k :: 0 <= k < |tokens[1..]| ==> DelimiterFree(tokens[1..][k]) by {
        forall k | 0 <= k < |tokens[1..]| ensures DelimiterFree(tokens[1..][k]) {
          assert tokens[1..][k] == tokens[k + 1];
        }
      }
      assert s[1..] == tail;
      SplitUnique(s[1..], tokens[1..], seps[1..]);
      assert tokens == [""] + tokens[1..];
    }
  }

  /** The message shown for a token that is not a number. */
  function CannotParse(token: string, cause: string): string {
    "Cannot parse '" + token + "' as number: " + cause
  }

  /** All tokens must parse for there to be a landscape (`collect` into a `Result`). */
  predicate AllParse(tokens: seq<string>, parse: NumberParser) {
    forall k :: 0 <= k < |tokens| ==> parse(tokens[k]).Ok?
  }

  /** Token `k` is the first one that does not parse. */
  predicate FirstFailure(tokens: seq<string>, parse: NumberParser, k: nat) {
    k < |tokens| && parse(tokens[k]).Err? &&
    forall j :: 0 <= j < k ==> parse(tokens[j]).Ok?
  }

  /** Parses the tokens in order, stopping at the first one that fails. */
  function ParseTokens(tokens: seq<string>, parse: NumberParser): (r: Result<seq<real>, string>)
    ensures r.Ok? ==> |r.value| == |tokens|
  {
    if tokens == [] then Ok([])
    else
      match parse(tokens[0])
      case Err(cause) => Err(CannotParse(tokens[0], cause))
      case Ok(height) =>
        match ParseTokens(tokens[1..], parse)
        case Err(message) => Err(message)
        case Ok(heights) => Ok([height] + heights)
  }

  /** The parse succeeds exactly when every token parses, and then yields their numbers in order. */
  lemma {:induction false} ParseTokensOk(tokens: seq<string>, parse: NumberParser)
    ensures ParseTokens(tokens, parse).Ok? <==> AllParse(tokens, parse)
    ensures ParseTokens(tokens, parse).Ok? ==>
      |ParseTokens(tokens, parse).value| == |tokens| &&
      forall k :: 0 <= k < |tokens| ==> ParseTokens(tokens, parse).value[k] == parse(tokens[k]).value
  {
    if tokens != [] {
      ParseTokensOk(tokens[1..], parse);
      if parse(tokens[0]).Ok? && AllParse(tokens[1..], parse) {
        assert forall k :: 1 <= k < |tokens| ==> tokens[k] == tokens[1..][k - 1];
      }
      if AllParse(tokens, parse) {
        assert forall k :: 0 <= k < |tokens[1..]| ==> tokens[1..][k] == tokens[k + 1];
      }
    }
  }

  /** When some token fails, the error names the first failing token and its cause. */
  lemma {:induction false} ParseTokensFirstFailure(tokens: seq<string>, parse: NumberParser, k: nat)
    requires FirstFailure(tokens, parse, k)
    ensures ParseTokens(tokens, parse) == Err(CannotParse(tokens[k], parse(tokens[k]).error))
  {
    if k > 0 {
      assert parse(tokens[0]).Ok?;
      assert FirstFailure(tokens[1..], parse, k - 1) by {
        forall j | 0 <= j < k - 1 ensures parse(tokens[1..][j]).Ok? {
          assert tokens[1..][j] == tokens[j + 1];
        }
      }
      ParseTokensFirstFailure(tokens[1..], parse, k - 1);
    }
  }

  /** The landscape field's text as heights, or the message for its first bad token. */
  function ParseLandscape(input: string, parse: NumberParser): (r: Result<seq<real>, string>)
    ensures r.Ok? <==> AllParse(Split(input), parse)
    ensures r.Ok? ==> |r.value| == |Delimiters(input)| + 1
  {
    ParseTokensOk(Split(input), parse);
    ParseTokens(Split(input), parse)
  }

  /** An empty field is one empty token, which goes to the number parser like any other. */
  lemma EmptyInputIsOneEmptyToken(parse: NumberParser)
    ensures Split("") == [""]
    ensures parse("").Err? ==> ParseLandscape("", parse) == Err(CannotParse("", parse("").error))
  {
  }

  /** The text "a,b" is refused with a message about its first token "a". */
  lemma {:induction false} MalformedPairNamesFirstToken(parse: NumberParser)
    requires parse("a").Err?
    ensures ParseLandscape("a,b", parse) == Err(CannotParse("a", parse("a").error))
  {
    var s := "a,b";
    assert s[1..] == ",b" && ",b"[1..] == "b";
    assert Split("") == [""];
    assert "b"[1..] == "" && ["b"[0]] + "" == "b";
    assert Split("b") == ["b"];
    assert Split(",b") == ["", "b"];
    assert ["a"[0]] + "" == "a" && [""] + ["b"] == ["", "b"];
    assert Split(s) == ["a", "b"];
    ParseTokensFirstFailure(["a", "b"], parse, 0);
  }
}
