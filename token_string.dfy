/**
 * `parseTokenString` of the v1 transfer updater: a quantity such as
 * "12.50 EOS" is split on single spaces (JavaScript's `split(" ")`), the
 * first segment is parsed as the amount and the second is the symbol.
 */
module TokenString {
  import opened Wrappers
  import opened Types

  /** No segment contains a space. */
  predicate SpaceFree(parts: seq<string>)
  {
    forall i :: 0 <= i < |parts| ==> ' ' !in parts[i]
  }

  /** The position of the first space in `s`. */
  function FirstSpace(s: string): (i: nat)
    requires ' ' in s
    ensures i < |s| && s[i] == ' ' && ' ' !in s[..i]
  {
    if s[0] == ' ' then 0
    else
      assert s == [s[0]] + s[1..];
      var j := FirstSpace(s[1..]);
      assert s[..j + 1] == [s[0]] + s[1..][..j];
      j + 1
  }

  /**
   * The segments of `s` between single spaces. Consecutive, leading and
   * trailing spaces give empty segments; a string without a space is one
   * segment. Splitting never yields an empty list.
   */
  function Split(s: string): (parts: seq<string>)
    ensures |parts| >= 1
    ensures SpaceFree(parts)
    ensures ' ' !in s ==> parts == [s]
    ensures ' ' in s ==> |parts| >= 2
    decreases |s|
  {
    if ' ' !in s then [s]
    else
      var i := FirstSpace(s);
      [s[..i]] + Split(s[i + 1..])
  }

  /** Glues segments back together with one space between neighbours. */
  function Join(parts: seq<string>): string
    requires |parts| >= 1
  {
    if |parts| == 1 then parts[0] else parts[0] + " " + Join(parts[1..])
  }

  /** Joining a first segment in front of further segments puts one space between. */
  lemma JoinCons(first: string, rest: seq<string>)
    requires |rest| >= 1
    ensures Join([first] + rest) == first + " " + Join(rest)
  {
    assert ([first] + rest)[1..] == rest;
  }

  /** Splitting loses nothing: joining the segments gives the string back. */
  lemma {:induction false} JoinSplit(s: string)
    ensures Join(Split(s)) == s
    decreases |s|
  {
    if ' ' in s {
      var i := FirstSpace(s);
      var tail := s[i + 1..];
      JoinSplit(tail);
      JoinCons(s[..i], Split(tail));
      assert s == s[..i] + " " + tail;
    }
  }

  /** A space-free prefix followed by a space is a segment of its own. */
  lemma SplitAtSpace(a: string, t: string)
    requires ' ' !in a
    ensures Split(a + " " + t) == [a] + Split(t)
  {
    var s := a + " " + t;
    assert s[|a|] == ' ';
    assert s[..|a|] == a;
    var i := FirstSpace(s);
    assert i == |a|;
    assert s[i + 1..] == t;
  }

  /** Joining space-free segments and splitting again gives the segments back. */
  lemma {:induction false} SplitJoin(parts: seq<string>)
    requires |parts| >= 1
    requires SpaceFree(parts)
    ensures Split(Join(parts)) == parts
  {
    if |parts| > 1 {
      SplitJoin(parts[1..]);
      SplitAtSpace(parts[0], Join(parts[1..]));
      assert parts == [parts[0]] + parts[1..];
    }
  }

  /** What `parseTokenString` returns; `symbol` is `None` for `undefined`. */
  datatype TokenParse = TokenParse(amount: Amount, symbol: Option<string>)

  /**
   * The amount is the parse of the text before the first space; the symbol
   * is the segment after it and before the next space, with no trimming or
   * validation, and is absent when there is no space at all.
   */
  function ParseTokenString(tokenString: string): (r: TokenParse)
    ensures r.symbol == None <==> ' ' !in tokenString
    ensures ' ' !in tokenString ==> r.amount == ParseFloatOf(tokenString)
  {
    var parts := Split(tokenString);
    TokenParse(ParseFloatOf(parts[0]), if |parts| >= 2 then Some(parts[1]) else None)
  }

  /**
   * A quantity "<amount> <symbol>" followed by nothing or by text that starts
   * with another space parses to exactly that amount text and symbol.
   */
  lemma ParseTokenStringOf(amountText: string, symbol: string, tail: string)
    requires ' ' !in amountText && ' ' !in symbol
    requires tail == "" || tail[0] == ' '
    ensures ParseTokenString(amountText + " " + symbol + tail)
         == TokenParse(ParseFloatOf(amountText), Some(symbol))
  {
    assert amountText + " " + symbol + tail == amountText + " " + (symbol + tail);
    SplitAtSpace(amountText, symbol + tail);
    if tail == "" {
      assert symbol + tail == symbol;
    } else {
      assert symbol + tail == symbol + " " + tail[1..];
      SplitAtSpace(symbol, tail[1..]);
    }
  }

  /**
   * Three quantities: a well-formed one, one whose numeric part is not a
   * number (the amount is whatever `parseFloat` makes of "abc"; the symbol
   * is still taken), and one without a symbol.
   */
  lemma ParseExamples()
    ensures ParseTokenString("12.50 EOS") == TokenParse(ParseFloatOf("12.50"), Some("EOS"))
    ensures ParseTokenString("abc EOS") == TokenParse(ParseFloatOf("abc"), Some("EOS"))
    ensures ParseTokenString("12.50") == TokenParse(ParseFloatOf("12.50"), None)
  {
    ParseTokenStringOf("12.50", "EOS", "");
    assert "12.50" + " " + "EOS" + "" == "12.50 EOS";
    ParseTokenStringOf("abc", "EOS", "");
    assert "abc" + " " + "EOS" + "" == "abc EOS";
  }
}
