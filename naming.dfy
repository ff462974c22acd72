/**
 * Naming of the generated module: `snake_to_camel` and the target-name check
 * of `SIL_Operator.__init__`. Case mapping is ASCII only.
 */
module Naming {
  import opened Text
  import opened Outcomes

  /**
   * `str.title()` from a point where the previous character was (`cased`) or
   * was not a letter: a letter after a letter is lower-cased, any other
   * letter upper-cased, and every other character kept.
   */
  function TitleFrom(s: string, cased: bool): (r: string)
    ensures |r| == |s|
  {
    if |s| == 0 then ""
    else
      var c := s[0];
      [if !IsAsciiLetter(c) then c else if cased then LowerChar(c) else UpperChar(c)] + TitleFrom(s[1..], IsAsciiLetter(c))
  }

  /** `s.title()`. */
  function Title(s: string): string
  {
    TitleFrom(s, false)
  }

  /** `x.title() for x in parts`. */
  function TitleAll(parts: seq<string>): seq<string>
  {
    if |parts| == 0 then [] else [Title(parts[0])] + TitleAll(parts[1..])
  }

  /** `snake_to_camel`: the title-cased `_`-separated fields, joined with nothing between them. */
  function SnakeToCamel(s: string): string
  {
    Concat(TitleAll(Split(s, '_')))
  }

  /**
   * Character `i` of a title-cased string: a letter is upper-cased when it
   * starts the string or follows a non-letter (a digit included), and
   * lower-cased when it follows a letter; other characters are kept.
   */
  lemma {:induction false} TitleAt(s: string, cased: bool, i: nat)
    requires i < |s|
    ensures TitleFrom(s, cased)[i] ==
      if !IsAsciiLetter(s[i]) then s[i]
      else if (if i == 0 then cased else IsAsciiLetter(s[i - 1])) then LowerChar(s[i])
      else UpperChar(s[i])
  {
    if i > 0 {
      TitleAt(s[1..], IsAsciiLetter(s[0]), i - 1);
      if i > 1 {
        assert s[1..][i - 2] == s[i - 1];
      }
    }
  }

  /** Title-casing never turns a character into an underscore, nor an underscore into anything else. */
  lemma TitleKeepsUnderscore(c: char, cased: bool)
    ensures (if !IsAsciiLetter(c) then c else if cased then LowerChar(c) else UpperChar(c)) == '_' <==> c == '_'
  {
  }

  /**
   * Title-casing the `_`-fields one by one and joining them is title-casing
   * the whole string (an underscore starts a new word either way) and then
   * dropping the underscores.
   */
  lemma {:induction false} TitleFields(s: string, cased: bool)
    ensures TitleFrom(Split(s, '_')[0], cased) + Concat(TitleAll(Split(s, '_')[1..])) == RemoveChar(TitleFrom(s, cased), '_')
  {
    if |s| > 0 {
      var c := s[0];
      var rest := Split(s[1..], '_');
      var out := if !IsAsciiLetter(c) then c else if cased then LowerChar(c) else UpperChar(c);
      TitleKeepsUnderscore(c, cased);
      assert TitleFrom(s, cased) == [out] + TitleFrom(s[1..], IsAsciiLetter(c));
      if c == '_' {
        TitleFields(s[1..], false);
        assert Split(s, '_') == [""] + rest;
        assert TitleAll(rest) == [Title(rest[0])] + TitleAll(rest[1..]);
      } else {
        TitleFields(s[1..], IsAsciiLetter(c));
        var first := [c] + rest[0];
        assert Split(s, '_') == [first] + rest[1..];
        assert first[0] == c && first[1..] == rest[0];
        assert TitleFrom(first, cased) == [out] + TitleFrom(rest[0], IsAsciiLetter(c));
      }
    }
  }

  /** `snake_to_camel(s)` is `s.title()` with the underscores removed; in particular it has none. */
  lemma SnakeToCamelRemovesUnderscores(s: string)
    ensures SnakeToCamel(s) == RemoveChar(Title(s), '_')
    ensures '_' !in SnakeToCamel(s)
  {
    var parts := Split(s, '_');
    TitleFields(s, false);
    assert TitleAll(parts) == [Title(parts[0])] + TitleAll(parts[1..]);
  }

  /** The module name: the camel-cased stem followed by `SIL`. */
  function ModuleName(stem: string): (r: string)
    ensures r == RemoveChar(Title(stem), '_') + "SIL"
  {
    SnakeToCamelRemovesUnderscores(stem);
    SnakeToCamel(stem) + "SIL"
  }

  /** The `.py` check of `SIL_Operator.__init__`: the stem, or the error for any other name. */
  function TargetStem(name: string): (r: Result<string>)
    ensures r.Success? <==> EndsWith(name, ".py")
    ensures r.Success? ==> r.value + ".py" == name
    ensures r.Failure? ==> r.error == NotPythonFile(name)
  {
    if EndsWith(name, ".py") then Success(name[..|name| - 3]) else Failure(NotPythonFile(name))
  }

  /** A name with one underscore camel-cases to its two title-cased halves. */
  lemma TwoFieldCamel(w1: string, w2: string)
    requires '_' !in w1 && '_' !in w2
    ensures SnakeToCamel(w1 + "_" + w2) == Title(w1) + Title(w2)
  {
    SplitPrefix(w2, "", '_');
    assert w2 + "" == w2;
    assert Split(w2, '_') == [w2];
    var tail := "_" + w2;
    assert tail[0] == '_' && tail[1..] == w2;
    var tailParts := Split(tail, '_');
    assert tailParts == [""] + [w2];
    SplitPrefix(w1, tail, '_');
    assert w1 + "_" + w2 == w1 + tail;
    assert w1 + tailParts[0] == w1;
    var parts := Split(w1 + tail, '_');
    assert parts == [w1] + [w2];
    assert parts[1..] == [w2];
    assert TitleAll([w2]) == [Title(w2)];
    assert Concat([Title(w2)]) == Title(w2) + "";
    assert TitleAll(parts) == [Title(w1)] + [Title(w2)];
    assert Concat([Title(w1)] + [Title(w2)]) == Title(w1) + Concat([Title(w2)]);
  }

  /** A word of lower-case letters keeps its case after a letter. */
  lemma {:induction false} LowerWordAfterLetter(w: string)
    requires forall i :: 0 <= i < |w| ==> 'a' <= w[i] <= 'z'
    ensures TitleFrom(w, true) == w
  {
    if |w| > 0 {
      LowerWordAfterLetter(w[1..]);
    }
  }

  /** A word of lower-case letters title-cases to itself with the first letter capitalised. */
  lemma CapitalisedWord(w: string)
    requires |w| > 0
    requires forall i :: 0 <= i < |w| ==> 'a' <= w[i] <= 'z'
    ensures Title(w) == [UpperChar(w[0])] + w[1..]
  {
    LowerWordAfterLetter(w[1..]);
  }

  lemma SampleMatrixWords()
    ensures Title("sample") == "Sample" && Title("matrix") == "Matrix"
  {
    CapitalisedWord("sample");
    CapitalisedWord("matrix");
  }

  /** The sample target `sample_matrix.py` has the stem `sample_matrix`. */
  lemma SampleMatrixStem()
    ensures TargetStem("sample_matrix.py") == Success("sample_matrix")
  {
    assert "sample_matrix.py"[..13] == "sample_matrix";
  }

  /** The sample stem `sample_matrix` gives the module `SampleMatrixSIL`. */
  lemma SampleMatrixModuleName()
    ensures ModuleName("sample_matrix") == "SampleMatrixSIL"
  {
    SampleMatrixWords();
    assert "Sample" + "Matrix" + "SIL" == "SampleMatrixSIL";
    assert "sample" + "_" + "matrix" == "sample_matrix";
    TwoFieldCamel("sample", "matrix");
  }
}
