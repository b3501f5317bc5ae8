/** How the seed-data converter (convert_csv_json.py) reads one CSV cell: trimmed, then taken
    as a list, a boolean, an integer, a float or left a string. */
module CsvCells {
  import opened Common

  /** `json.loads` or `ast.literal_eval` of a cell: `None` when it raises `ValueError` or
      `SyntaxError`. */
  type Parser = string -> Option<Value>

  /** `value.startswith("[") and value.endswith("]")`. */
  predicate IsBracketed(value: string)
  {
    |value| > 0 && value[0] == '[' && value[|value| - 1] == ']'
  }

  /** `value.replace("'", '"')`. */
  function ReplaceQuotes(value: string): (r: string)
    ensures |r| == |value|
    ensures '\'' !in r
    ensures forall i :: 0 <= i < |value| && value[i] != '\'' ==> r[i] == value[i]
    ensures forall i :: 0 <= i < |value| && value[i] == '\'' ==> r[i] == '"'
  {
    seq(|value|, i requires 0 <= i < |value| => if value[i] == '\'' then '"' else value[i])
  }

  /** `value.count(c)`. */
  function Count(value: string, c: char): nat
  {
    if value == [] then 0 else Count(value[..|value| - 1], c) + (if value[|value| - 1] == c then 1 else 0)
  }

  /** `value.replace(c, "", 1)`: the first `c` removed. */
  function RemoveFirst(value: string, c: char): (r: string)
    ensures c in value ==> |r| == |value| - 1
    ensures c in value ==> r == value[..IndexOf(value, c)] + value[IndexOf(value, c) + 1..]
    ensures c !in value ==> r == value
  {
    if value == [] then []
    else if value[0] == c then
      assert IndexOf(value, c) == 0;
      assert value[..0] + value[1..] == value[1..];
      value[1..]
    else
      var tail := value[1..];
      var rest := RemoveFirst(tail, c);
      if c in tail then
        var j := IndexOf(tail, c);
        assert IndexOf(value, c) == j + 1;
        assert rest == tail[..j] + tail[j + 1..];
        assert value[..j + 1] == [value[0]] + tail[..j];
        assert value[j + 2..] == tail[j + 1..];
        [value[0]] + rest
      else
        assert value == [value[0]] + tail;
        [value[0]] + rest
  }

  /** `value.replace(".", "", 1).isdigit() and value.count(".") <= 1`. */
  predicate IsDecimal(value: string)
  {
    IsDigits(RemoveFirst(value, '.')) && Count(value, '.') <= 1
  }

  /** The classification chain of one cell: trimmed, then a bracketed value is parsed as a list
      (JSON with single quotes turned into double quotes, else a Python literal, else left as
      is), `true`/`false` in any case become booleans, digits an integer, digits with one dot a
      float (kept as its text), and anything else stays the trimmed string. */
  function Classify(raw: string, jsonLoads: Parser, literalEval: Parser): Value
  {
    ClassifyTrimmed(Strip(raw), jsonLoads, literalEval)
  }

  /** The chain after the trim. */
  function ClassifyTrimmed(value: string, jsonLoads: Parser, literalEval: Parser): Value
  {
    if IsBracketed(value) then
      match jsonLoads(ReplaceQuotes(value))
      case Some(parsed) => parsed
      case None =>
        match literalEval(value)
        case Some(parsed) => parsed
        case None => Str(value)
    else if AsciiLower(value) == "true" then Bool(true)
    else if AsciiLower(value) == "false" then Bool(false)
    else if IsDigits(value) then Int(DigitsValue(value))
    else if IsDecimal(value) then Float(value)
    else Str(value)
  }

  /** The body of the inner loop: the cell's value reassigned down the classification chain. */
  method ClassifyCell(cell: string, jsonLoads: Parser, literalEval: Parser) returns (v: Value)
    ensures v == Classify(cell, jsonLoads, literalEval)
  {
    var value := Strip(cell);
    v := Str(value);
    if IsBracketed(value) {
      var parsed := jsonLoads(ReplaceQuotes(value));
      if parsed.Some? {
        v := parsed.value;
      } else {
        var evaluated := literalEval(value);
        if evaluated.Some? {
          v := evaluated.value;
        }
      }
    } else if AsciiLower(value) == "true" {
      v := Bool(true);
    } else if AsciiLower(value) == "false" {
      v := Bool(false);
    } else if IsDigits(value) {
      v := Int(DigitsValue(value));
    } else if IsDecimal(value) {
      v := Float(value);
    }
  }

  // ---- What the conversion promises ----

  /** `strip` leaves a trimmed string alone. */
  lemma StripIdempotent(s: string)
    ensures Strip(Strip(s)) == Strip(s)
  {
    var t := Strip(s);
    assert StripLeft(t) == t;
    assert StripRight(t) == t;
  }

  /** Surrounding whitespace never matters: a cell is classified as its trimmed text. */
  lemma {:induction false} ClassifyTrims(raw: string, jsonLoads: Parser, literalEval: Parser)
    ensures Classify(raw, jsonLoads, literalEval) == Classify(Strip(raw), jsonLoads, literalEval)
  {
    StripIdempotent(raw);
  }

  /** A bracketed value is whatever a parser made of it, or the trimmed text when both fail; it
      never reaches the boolean or number branches. */
  lemma {:induction false} BracketedIsParsedOrKept(value: string, jsonLoads: Parser, literalEval: Parser)
    requires IsBracketed(value)
    ensures var v := ClassifyTrimmed(value, jsonLoads, literalEval);
      (jsonLoads(ReplaceQuotes(value)).Some? ==> v == jsonLoads(ReplaceQuotes(value)).value) &&
      (jsonLoads(ReplaceQuotes(value)).None? && literalEval(value).Some? ==> v == literalEval(value).value) &&
      (jsonLoads(ReplaceQuotes(value)).None? && literalEval(value).None? ==> v == Str(value))
  {
  }

  /** Which scalar a trimmed, unbracketed cell becomes: a boolean exactly for `true`/`false` in
      any case, an integer exactly for other digit strings, a float exactly for the remaining
      digit strings with one dot removed (and then the text has exactly one dot), and otherwise
      the text itself. */
  lemma {:induction false} ScalarCells(value: string, jsonLoads: Parser, literalEval: Parser)
    requires !IsBracketed(value)
    ensures var v := ClassifyTrimmed(value, jsonLoads, literalEval);
      (v.Bool? <==> AsciiLower(value) == "true" || AsciiLower(value) == "false") &&
      (v.Bool? ==> v.b == (AsciiLower(value) == "true")) &&
      (v.Int? <==> AsciiLower(value) != "true" && AsciiLower(value) != "false" && IsDigits(value)) &&
      (v.Int? ==> v.i == DigitsValue(value)) &&
      (v.Float? <==> AsciiLower(value) != "true" && AsciiLower(value) != "false" && !IsDigits(value) &&
                     IsDecimal(value)) &&
      (v.Float? ==> Count(value, '.') == 1 && v.literal == value) &&
      (v.Str? <==> AsciiLower(value) != "true" && AsciiLower(value) != "false" && !IsDigits(value) &&
                   !IsDecimal(value)) &&
      (v.Str? ==> v.s == value)
  {
    if IsDecimal(value) && !IsDigits(value) && Count(value, '.') == 0 {
      NoDotRemovesNothing(value);
      assert false;
    }
  }

  /** Without a dot, removing the first dot changes nothing. */
  lemma {:induction false} NoDotRemovesNothing(value: string)
    requires Count(value, '.') == 0
    ensures RemoveFirst(value, '.') == value
  {
    CountZeroMeansAbsent(value, '.');
  }

  /** A character counted zero times does not occur. */
  lemma {:induction false} CountZeroMeansAbsent(value: string, c: char)
    requires Count(value, c) == 0
    ensures c !in value
  {
    if value != [] {
      CountZeroMeansAbsent(value[..|value| - 1], c);
      assert value == value[..|value| - 1] + [value[|value| - 1]];
    }
  }

  /** `" TRUE "` is the boolean true. */
  lemma {:induction false} TrueInAnyCase(jsonLoads: Parser, literalEval: Parser)
    ensures Classify(" TRUE ", jsonLoads, literalEval) == Bool(true)
  {
    StripExample();
    TrueExample(jsonLoads, literalEval);
  }

  lemma StripExample()
    ensures Strip(" TRUE ") == "TRUE"
  {
    StripPadded("TRUE");
    assert [' '] + "TRUE" + [' '] == " TRUE ";
  }

  /** One space on each side of a word is stripped away. */
  lemma StripPadded(word: string)
    requires word != [] && !IsSpace(word[0]) && !IsSpace(word[|word| - 1])
    ensures Strip([' '] + word + [' ']) == word
  {
    var padded := [' '] + word + [' '];
    assert padded[1..] == word + [' '];
    assert StripLeft(padded) == word + [' '];
    assert (word + [' '])[..|word|] == word;
    assert StripRight(word + [' ']) == word;
  }

  lemma TrueExample(jsonLoads: Parser, literalEval: Parser)
    ensures ClassifyTrimmed("TRUE", jsonLoads, literalEval) == Bool(true)
  {
    assert AsciiLower("TRUE") == "true";
  }

  /** `"42"` is the integer 42. */
  lemma {:induction false} DigitsAreInt(jsonLoads: Parser, literalEval: Parser)
    ensures ClassifyTrimmed("42", jsonLoads, literalEval) == Int(42)
  {
    assert DigitsValue("42") == 42 by {
      assert "42"[..1] == "4";
      assert DigitsValue("4") == 4 by { assert "4"[..0] == ""; }
    }
    assert AsciiLower("42")[0] == '4';
  }

  /** `"3.5"` is a float. */
  lemma {:induction false} OneDotIsFloat(jsonLoads: Parser, literalEval: Parser)
    ensures ClassifyTrimmed("3.5", jsonLoads, literalEval) == Float("3.5")
  {
    var f := "3.5";
    assert AsciiLower(f)[0] == '3';
    assert !IsDigits(f) by { assert !IsAsciiDigit(f[1]); }
    assert RemoveFirst(f, '.') == "35" by {
      assert f[0] != '.' && f[1..][0] == '.';
      assert RemoveFirst(f[1..], '.') == f[1..][1..] == "5";
      assert RemoveFirst(f, '.') == [f[0]] + RemoveFirst(f[1..], '.');
    }
    assert Count(f, '.') == 1 by {
      assert f[..2] == "3." && f[..2][..1] == "3";
      assert Count("3", '.') == 0 by { assert "3"[..0] == ""; }
    }
  }

  /** `"1.2.3"` has two dots and stays a string. */
  lemma {:induction false} TwoDotsStayText(jsonLoads: Parser, literalEval: Parser)
    ensures ClassifyTrimmed("1.2.3", jsonLoads, literalEval) == Str("1.2.3")
  {
    var g := "1.2.3";
    assert !IsBracketed(g) by { assert g[0] == '1'; }
    assert AsciiLower(g)[0] == '1';
    assert !IsDigits(g) by { assert !IsAsciiDigit(g[1]); }
    assert !IsDecimal(g) by {
      assert IndexOf(g, '.') == 1 by {
        assert g[0] != '.' && g[1..][0] == '.';
        assert IndexOf(g[1..], '.') == 0;
      }
      var r := RemoveFirst(g, '.');
      assert r == g[..1] + g[2..];
      assert r[2] == '.';
      assert !IsAsciiDigit(r[2]);
    }
  }
}
