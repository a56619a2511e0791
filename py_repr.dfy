/** Python's `repr` of a string, as `str()` of a list writes each item:
    the choice of quote, the escapes, and reading the text back. */
module PyRepr {
  /** The quote `repr` puts around `x`: a double quote when `x` holds a
      single quote but no double quote, a single quote otherwise. */
  function ReprDelimiter(x: string): (d: char)
    ensures d == '"' <==> '\'' in x && '"' !in x
    ensures d == '"' || d == '\''
  {
    if '\'' in x && '"' !in x then '"' else '\''
  }

  /** A lower-case hexadecimal digit. */
  function HexDigit(n: nat): char
    requires n < 16
  {
    if n < 10 then ('0' as int + n) as char else ('a' as int + n - 10) as char
  }

  /** The value of a hexadecimal digit `HexDigit` writes, or 0. */
  function HexValue(c: char): nat {
    if '0' <= c <= '9' then c as int - '0' as int
    else if 'a' <= c <= 'f' then c as int - 'a' as int + 10
    else 0
  }

  /** How `repr` writes the character `c` between quotes `d`: a backslash
      and the quote in use are escaped, tab, newline and carriage return get
      their short escapes, the other ASCII control characters `\xhh`. */
  function ReprChar(c: char, d: char): (r: string)
    ensures |r| >= 1
    ensures ',' in r <==> c == ','
    ensures r[0] == c || r[0] == '\\'
  {
    if c == '\\' then "\\\\"
    else if c == d then ['\\', d]
    else if c == '\t' then "\\t"
    else if c == '\n' then "\\n"
    else if c == '\r' then "\\r"
    else if c < ' ' || c as int == 0x7F then ['\\', 'x', HexDigit(c as int / 16), HexDigit(c as int % 16)]
    else [c]
  }

  /** The characters of `x` as `repr` writes them between quotes `d`. */
  function ReprBody(x: string, d: char): (r: string)
    ensures |r| >= |x|
    ensures ',' in r <==> ',' in x
    decreases |x|
  {
    if x == [] then []
    else
      var head := ReprChar(x[0], d);
      var rest := ReprBody(x[1..], d);
      assert x == [x[0]] + x[1..];
      assert forall c :: c in head + rest <==> c in head || c in rest;
      head + rest
  }

  /** `repr` of a string: the body between the delimiters. */
  function Quote(x: string): (r: string)
    ensures |r| >= |x| + 2
    ensures r[0] == r[|r| - 1] == ReprDelimiter(x)
    ensures ',' in r <==> ',' in x
  {
    var d := ReprDelimiter(x);
    var r := [d] + ReprBody(x, d) + [d];
    assert forall c :: c in r <==> c == d || c in ReprBody(x, d);
    r
  }

  /** Reading a `repr` body back: an escape stands for the character it
      names, any other character for itself. */
  function Unrepr(s: string): string
    decreases |s|
  {
    if s == [] then []
    else if s[0] == '\\' && |s| >= 4 && s[1] == 'x' then [(HexValue(s[2]) * 16 + HexValue(s[3])) as char] + Unrepr(s[4..])
    else if s[0] == '\\' && |s| >= 2 then
      [if s[1] == 't' then '\t' else if s[1] == 'n' then '\n' else if s[1] == 'r' then '\r' else s[1]] + Unrepr(s[2..])
    else [s[0]] + Unrepr(s[1..])
  }

  /** One written character reads back as itself. */
  lemma UnreprChar(c: char, d: char, rest: string)
    requires d == '"' || d == '\''
    ensures Unrepr(ReprChar(c, d) + rest) == [c] + Unrepr(rest)
  {
    var r := ReprChar(c, d);
    if c == '\\' || c == d || c == '\t' || c == '\n' || c == '\r' {
      assert (r + rest)[2..] == rest;
    } else if c < ' ' || c as int == 0x7F {
      assert (r + rest)[4..] == rest;
    } else {
      assert (r + rest)[1..] == rest;
    }
  }

  /** Whatever quote is in use, `Unrepr` undoes `ReprBody`: no two strings
      have the same `repr`. */
  lemma {:induction false} UnreprBody(x: string, d: char)
    requires d == '"' || d == '\''
    ensures Unrepr(ReprBody(x, d)) == x
    decreases |x|
  {
    if x != [] {
      UnreprBody(x[1..], d);
      UnreprChar(x[0], d, ReprBody(x[1..], d));
    }
  }

  /** `repr` tells seats apart: two seats with the same `repr` are equal. */
  lemma QuoteInjective(x: string, y: string)
    requires Quote(x) == Quote(y)
    ensures x == y
  {
    var d := ReprDelimiter(x);
    assert d == Quote(y)[0] == ReprDelimiter(y);
    var q := Quote(x);
    assert q[1..|q| - 1] == ReprBody(x, d);
    assert Quote(y)[1..|q| - 1] == ReprBody(y, d);
    UnreprBody(x, d);
    UnreprBody(y, d);
  }

  /** A seat holding a single quote is written between double quotes and
      left unescaped. */
  lemma QuoteSingleQuoteExample()
    ensures Quote("A'1") == "\"A'1\""
  {
    assert "A'1"[1] == '\'' && '"' !in "A'1";
    assert ReprBody("1", '"') == "1";
    assert ReprBody("'1", '"') == "'1";
  }

  /** A backslash in a seat is doubled. */
  lemma QuoteBackslashExample()
    ensures Quote("A\\1") == "'A\\\\1'"
  {
    assert '\'' !in "A\\1";
    assert ReprBody("1", '\'') == "1";
    assert ReprBody("\\1", '\'') == "\\\\1";
  }
}
