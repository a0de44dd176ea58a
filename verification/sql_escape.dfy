/** The SQL literal writer of the script that turns the standard grids into INSERT
    statements: NULL, the two booleans, and every other value quoted with its quotes
    doubled. */
module SqlEscape {
  import opened Wrappers

  /** What `escape_sql` is given: None, a boolean, or any other value through its text
      (`str(value)`, taken as given). */
  datatype SqlValue = Null | Bool(b: bool) | Other(text: string)

  /** The text with every quote doubled (`replace("'", "''")`). */
  function DoubleQuotes(s: string): (r: string)
    ensures |r| == |s| + QuoteCount(s)
  {
    if s == [] then []
    else (if s[0] == '\'' then "''" else [s[0]]) + DoubleQuotes(s[1..])
  }

  function QuoteCount(s: string): nat
  {
    if s == [] then 0 else (if s[0] == '\'' then 1 else 0) + QuoteCount(s[1..])
  }

  /** `escape_sql`. */
  function EscapeSql(v: SqlValue): (r: string)
    ensures v.Null? ==> r == "NULL"
    ensures v.Bool? ==> r == if v.b then "true" else "false"
    ensures v.Other? ==> |r| == |v.text| + 2 + QuoteCount(v.text) && r[0] == '\'' && r[|r| - 1] == '\''
  {
    match v
    case Null => "NULL"
    case Bool(b) => if b then "true" else "false"
    case Other(text) => "'" + DoubleQuotes(text) + "'"
  }

  /** Reading an escaped text back: each doubled quote becomes one. */
  function CollapseQuotes(s: string): string
  {
    if s == [] then []
    else if |s| >= 2 && s[0] == '\'' && s[1] == '\'' then "'" + CollapseQuotes(s[2..])
    else [s[0]] + CollapseQuotes(s[1..])
  }

  lemma {:induction false} CollapseDoubled(s: string)
    ensures CollapseQuotes(DoubleQuotes(s)) == s
  {
    if s != [] {
      var rest := DoubleQuotes(s[1..]);
      CollapseDoubled(s[1..]);
      if s[0] == '\'' {
        assert DoubleQuotes(s) == "''" + rest;
        assert ("''" + rest)[2..] == rest;
      } else {
        assert DoubleQuotes(s) == [s[0]] + rest;
        assert ([s[0]] + rest)[1..] == rest;
      }
    }
  }

  /** Round trip: dropping the outer quotes and collapsing the doubled ones gives the
      value's text back. */
  lemma UnescapeRoundTrip(text: string)
    ensures var e := EscapeSql(Other(text)); CollapseQuotes(e[1..|e| - 1]) == text
  {
    var e := EscapeSql(Other(text));
    assert e[1..|e| - 1] == DoubleQuotes(text);
    CollapseDoubled(text);
  }

  /** Different values are written differently. */
  lemma EscapeInjective(a: SqlValue, b: SqlValue)
    requires EscapeSql(a) == EscapeSql(b)
    ensures a == b
  {
    if a.Other? && b.Other? {
      UnescapeRoundTrip(a.text);
      UnescapeRoundTrip(b.text);
    }
  }

  /** How a SQL reader ends a quoted literal: scanning from i, a doubled quote stands
      for a quote and a single one closes the literal. */
  function ClosingQuote(s: string, i: nat): (r: Option<nat>)
    ensures r.Some? ==> i <= r.value < |s| && s[r.value] == '\''
    decreases |s| - i
  {
    if i >= |s| then None
    else if s[i] == '\'' then
      (if i + 1 < |s| && s[i + 1] == '\'' then ClosingQuote(s, i + 2) else Some(i))
    else ClosingQuote(s, i + 1)
  }

  /** A quoted value cannot end its literal early: the reader closes it at the last
      quote, whatever quotes the text holds. */
  lemma LiteralClosesAtEnd(text: string)
    ensures var e := EscapeSql(Other(text)); ClosingQuote(e, 1) == Some(|e| - 1)
  {
    ClosesAfterDoubled("'", text);
    assert EscapeSql(Other(text)) == "'" + DoubleQuotes(text) + "'";
  }

  lemma {:induction false} ClosesAfterDoubled(p: string, s: string)
    ensures ClosingQuote(p + DoubleQuotes(s) + "'", |p|) == Some(|p| + |DoubleQuotes(s)|)
    decreases |s|
  {
    var whole := p + DoubleQuotes(s) + "'";
    if s == [] {
      assert whole == p + "'";
    } else {
      var head := if s[0] == '\'' then "''" else [s[0]];
      assert DoubleQuotes(s) == head + DoubleQuotes(s[1..]);
      assert whole == (p + head) + DoubleQuotes(s[1..]) + "'";
      ClosesAfterDoubled(p + head, s[1..]);
      if s[0] == '\'' {
        assert whole[|p|] == '\'' && whole[|p| + 1] == '\'';
      } else {
        assert whole[|p|] == s[0];
      }
    }
  }
}
