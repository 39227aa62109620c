/**
 * The text of the CSV file: every cell wrapped in double quotes with each
 * embedded quote doubled (section 2 of RFC 4180, rules 5 to 7), cells joined
 * by `,` and rows by `\n` (where rule 1 of that section asks for CRLF).
 *
 * `ParseRows` reads such a text back the way RFC 4180 prescribes for quoted
 * fields; the round-trip lemmas show that the quoting loses nothing, even
 * for cells that hold quotes, commas or line breaks.
 */
module CsvText {
  import opened Wrappers

  /** `text.replace(/"/g, '""')` */
  function Escape(s: string): (r: string)
    ensures |r| >= |s|
    decreases |s|
  {
    if s == [] then []
    else (if s[0] == '"' then "\"\"" else [s[0]]) + Escape(s[1..])
  }

  /** `` `"${text with quotes doubled}"` `` */
  function Quote(s: string): (r: string)
    ensures |r| >= 2 && r[0] == '"' && r[|r| - 1] == '"'
  {
    "\"" + Escape(s) + "\""
  }

  /** `cells.map(quote).join(",")` */
  function Line(cells: seq<string>): (r: string)
    ensures r == [] <==> cells == []
    ensures cells != [] ==> r[0] == '"' && r[|r| - 1] == '"'
    decreases |cells|
  {
    if cells == [] then []
    else if |cells| == 1 then Quote(cells[0])
    else Quote(cells[0]) + "," + Line(cells[1..])
  }

  /** `rows.map(line).join("\n")` */
  function Content(rows: seq<seq<string>>): (r: string)
    ensures rows != [] && rows[0] != [] ==> r != [] && r[0] == '"'
    ensures rows != [] && rows[|rows| - 1] != [] ==> r != [] && r[|r| - 1] == '"'
    decreases |rows|
  {
    if rows == [] then []
    else if |rows| == 1 then Line(rows[0])
    else Line(rows[0]) + "\n" + Content(rows[1..])
  }

  // ---------------------------------------------------------------------
  // Reading the text back

  /** The inside of a quoted field, up to its closing quote, where `""`
      stands for one quote: the text and what follows the closing quote. */
  function ReadQuoted(t: string): (r: Option<(string, string)>)
    ensures r.Some? ==> |r.value.1| < |t|
    decreases |t|
  {
    if t == [] then None
    else if t[0] == '"' then
      if |t| >= 2 && t[1] == '"' then
        match ReadQuoted(t[2..])
        case None => None
        case Some((a, rest)) => Some(("\"" + a, rest))
      else Some(([], t[1..]))
    else
      match ReadQuoted(t[1..])
      case None => None
      case Some((a, rest)) => Some(([t[0]] + a, rest))
  }

  /** One quoted field at the start of `t`. */
  function ParseField(t: string): (r: Option<(string, string)>)
    ensures r.Some? ==> |r.value.1| < |t|
  {
    if t != [] && t[0] == '"' then ReadQuoted(t[1..]) else None
  }

  /** The fields of one line, separated by commas, and what follows it. */
  function ParseCells(t: string): (r: Option<(seq<string>, string)>)
    ensures r.Some? ==> |r.value.1| < |t|
    decreases |t|
  {
    match ParseField(t)
    case None => None
    case Some((f, rest)) =>
      if rest != [] && rest[0] == ',' then
        match ParseCells(rest[1..])
        case None => None
        case Some((fs, after)) => Some(([f] + fs, after))
      else Some(([f], rest))
  }

  /** The lines of a whole text, separated by line feeds. */
  function ParseRows(t: string): Option<seq<seq<string>>>
    decreases |t|
  {
    match ParseCells(t)
    case None => None
    case Some((cells, rest)) =>
      if rest == [] then Some([cells])
      else if rest[0] == '\n' then
        match ParseRows(rest[1..])
        case None => None
        case Some(rows) => Some([cells] + rows)
      else None
  }

  // ---------------------------------------------------------------------
  // Round trips

  /** Collapsing the doubled quotes up to the closing quote gives the cell
      back, and reading stops right after that quote. */
  lemma {:induction false} ReadEscaped(s: string, rest: string)
    requires rest == [] || rest[0] != '"'
    ensures ReadQuoted(Escape(s) + ("\"" + rest)) == Some((s, rest))
    decreases |s|
  {
    var close := "\"" + rest;
    if s == [] {
      assert Escape(s) + close == close;
      assert close[1..] == rest;
    } else {
      var c, tail := s[0], s[1..];
      var u := Escape(tail) + close;
      ReadEscaped(tail, rest);
      EscapeCons(s);
      Associate3(if c == '"' then "\"\"" else [c], Escape(tail), close);
      if c == '"' {
        ReadQuote(u, tail, rest);
        assert "\"" + tail == s;
      } else {
        ReadPlain(c, u, tail, rest);
        assert [c] + tail == s;
      }
    }
  }

  lemma EscapeCons(s: string)
    requires s != []
    ensures Escape(s) == (if s[0] == '"' then "\"\"" else [s[0]]) + Escape(s[1..])
  {
  }

  lemma Associate3(a: string, b: string, c: string)
    ensures a + b + c == a + (b + c)
  {
  }

  lemma ReadQuote(u: string, a: string, rest: string)
    requires ReadQuoted(u) == Some((a, rest))
    ensures ReadQuoted("\"\"" + u) == Some(("\"" + a, rest))
  {
    assert ("\"\"" + u)[2..] == u;
  }

  lemma ReadPlain(c: char, u: string, a: string, rest: string)
    requires c != '"' && ReadQuoted(u) == Some((a, rest))
    ensures ReadQuoted([c] + u) == Some(([c] + a, rest))
  {
    assert ([c] + u)[1..] == u;
  }

  /** Stripping the outer quotes and collapsing `""` recovers the cell. */
  lemma QuoteRoundTrip(s: string, rest: string)
    requires rest == [] || rest[0] != '"'
    ensures ParseField(Quote(s) + rest) == Some((s, rest))
  {
    var t := Quote(s) + rest;
    assert t[1..] == Escape(s) + ("\"" + rest);
    ReadEscaped(s, rest);
  }

  /** A line of at least one cell reads back as its cells, up to the line
      feed or the end of the text that follows it. */
  lemma {:induction false} LineRoundTrip(cells: seq<string>, rest: string)
    requires cells != []
    requires rest == [] || rest[0] == '\n'
    ensures ParseCells(Line(cells) + rest) == Some((cells, rest))
    decreases |cells|
  {
    var c := cells[0];
    if |cells| == 1 {
      assert Line(cells) == Quote(c);
      QuoteRoundTrip(c, rest);
      LastCell(Quote(c) + rest, c, rest);
      assert cells == [c];
    } else {
      var tail := cells[1..];
      var more := Line(tail) + rest;
      LineCons(cells, rest);
      QuoteRoundTrip(c, "," + more);
      LineRoundTrip(tail, rest);
      NextCell(Quote(c) + ("," + more), c, more, tail, rest);
      assert [c] + tail == cells;
    }
  }

  lemma LineCons(cells: seq<string>, rest: string)
    requires |cells| > 1
    ensures Line(cells) + rest == Quote(cells[0]) + ("," + (Line(cells[1..]) + rest))
  {
    var q, l := Quote(cells[0]), Line(cells[1..]);
    assert Line(cells) == q + "," + l;
    Associate(q, ",", l, rest);
  }

  lemma Associate(a: string, b: string, c: string, d: string)
    ensures a + b + c + d == a + (b + (c + d))
  {
  }

  lemma LastCell(t: string, f: string, rest: string)
    requires ParseField(t) == Some((f, rest))
    requires rest == [] || rest[0] == '\n'
    ensures ParseCells(t) == Some(([f], rest))
  {
  }

  lemma NextCell(t: string, f: string, more: string, fs: seq<string>, after: string)
    requires ParseField(t) == Some((f, "," + more))
    requires ParseCells(more) == Some((fs, after))
    ensures ParseCells(t) == Some(([f] + fs, after))
  {
    assert ("," + more)[1..] == more;
  }

  /** A text of rows that each have at least one cell reads back as exactly
      those rows. */
  lemma {:induction false} ContentRoundTrip(rows: seq<seq<string>>)
    requires rows != []
    requires forall k :: 0 <= k < |rows| ==> rows[k] != []
    ensures ParseRows(Content(rows)) == Some(rows)
    decreases |rows|
  {
    if |rows| == 1 {
      var cells := rows[0];
      LineRoundTrip(cells, []);
      assert Content(rows) == Line(cells) + [];
      LastRow(Content(rows), cells);
      assert rows == [cells];
    } else {
      var tail := rows[1..];
      var more := Content(tail);
      ContentCons(rows);
      LineRoundTrip(rows[0], "\n" + more);
      ContentRoundTrip(tail);
      NextRow(Content(rows), rows[0], more, tail);
      assert [rows[0]] + tail == rows;
    }
  }

  lemma ContentCons(rows: seq<seq<string>>)
    requires |rows| > 1
    ensures Content(rows) == Line(rows[0]) + ("\n" + Content(rows[1..]))
  {
    var l, c := Line(rows[0]), Content(rows[1..]);
    assert Content(rows) == l + "\n" + c;
    Associate(l, "\n", c, []);
    assert c + [] == c;
  }

  lemma LastRow(t: string, cells: seq<string>)
    requires ParseCells(t) == Some((cells, []))
    ensures ParseRows(t) == Some([cells])
  {
  }

  lemma NextRow(t: string, cells: seq<string>, more: string, rows: seq<seq<string>>)
    requires ParseCells(t) == Some((cells, "\n" + more))
    requires ParseRows(more) == Some(rows)
    ensures ParseRows(t) == Some([cells] + rows)
  {
    assert ("\n" + more)[1..] == more;
  }
}
