/** Comma-separated lines as the two CSV exports write them: a cell is
    written as is or wrapped in double quotes, and cells are joined by
    commas. `Fields` is the reading of such a line, by which a quoted cell
    is one field even when it holds commas; the exports are proved to read
    back as the values they were built from. */
module Csv {
  import opened Text

  datatype Cell = Plain(text: string) | Quoted(text: string)

  function Render(c: Cell): string {
    match c
    case Plain(s) => s
    case Quoted(s) => "\"" + s + "\""
  }

  /** A cell that reads back as itself: a plain cell holds neither commas
      nor quotes, a quoted one no quotes. */
  predicate Readable(c: Cell) {
    '"' !in c.text && (c.Plain? ==> ',' !in c.text)
  }

  function Texts(cells: seq<Cell>): (r: seq<string>)
    ensures |r| == |cells| && forall i :: 0 <= i < |cells| ==> r[i] == cells[i].text
  {
    seq(|cells|, i requires 0 <= i < |cells| => cells[i].text)
  }

  /** The line for `cells`: their renderings joined by commas. */
  function RenderRow(cells: seq<Cell>): string {
    Join(seq(|cells|, i requires 0 <= i < |cells| => Render(cells[i])), ",")
  }

  /** The fields of a line: a field that opens with a quote runs to the next
      quote; any other field runs to the next comma. */
  function Fields(line: string): (fs: seq<string>)
    ensures |fs| >= 1
    decreases |line|
  {
    if |line| > 0 && line[0] == '"' && '"' in line[1..] then
      var j := IndexOf(line[1..], '"') + 1;
      var after := line[j + 1..];
      if after != [] && after[0] == ',' then [line[1..j]] + Fields(after[1..])
      else [line[1..j]]
    else if ',' in line then
      var i := IndexOf(line, ',');
      [line[..i]] + Fields(line[i + 1..])
    else [line]
  }

  lemma FieldsOfPlain(s: string, rest: string)
    requires '"' !in s && ',' !in s
    ensures Fields(s) == [s]
    ensures Fields(s + "," + rest) == [s] + Fields(rest)
  {
    var line := s + "," + rest;
    assert line[|s|] == ',' && line[..|s|] == s;
    IndexOfFirst(line, ',', |s|);
    assert line[|s| + 1..] == rest;
    if |s| > 0 {
      assert s[0] == line[0];
    }
  }

  lemma FieldsOfQuotedAlone(s: string)
    requires '"' !in s
    ensures Fields("\"" + s + "\"") == [s]
  {
    var q := "\"" + s + "\"";
    assert q[1..] == s + "\"";
    assert (s + "\"")[..|s|] == s;
    IndexOfFirst(s + "\"", '"', |s|);
    assert q[1..|s| + 1] == s;
    assert q[|s| + 2..] == [];
  }

  lemma FieldsOfQuoted(s: string, rest: string)
    requires '"' !in s
    ensures Fields("\"" + s + "\"" + "," + rest) == [s] + Fields(rest)
  {
    var line := "\"" + s + "\"" + "," + rest;
    assert line[1..] == s + "\"" + "," + rest;
    assert line[1..][..|s|] == s;
    IndexOfFirst(line[1..], '"', |s|);
    assert line[1..|s| + 1] == s;
    assert line[|s| + 2..] == "," + rest;
    assert line[|s| + 2..][1..] == rest;
  }

  /** One readable cell read from the front of a line. */
  lemma FieldsOfCell(c: Cell, rest: string)
    requires Readable(c)
    ensures Fields(Render(c)) == [c.text]
    ensures Fields(Render(c) + "," + rest) == [c.text] + Fields(rest)
  {
    match c
    case Plain(s) => FieldsOfPlain(s, rest);
    case Quoted(s) => FieldsOfQuotedAlone(s); FieldsOfQuoted(s, rest);
  }

  lemma RenderRowCons(cells: seq<Cell>)
    requires |cells| >= 2
    ensures RenderRow(cells) == Render(cells[0]) + "," + RenderRow(cells[1..])
  {
    var rendered := seq(|cells|, i requires 0 <= i < |cells| => Render(cells[i]));
    var tail := seq(|cells| - 1, i requires 0 <= i < |cells| - 1 => Render(cells[1..][i]));
    assert rendered[1..] == tail;
  }

  lemma TextsCons(cells: seq<Cell>)
    requires |cells| >= 1
    ensures Texts(cells) == [cells[0].text] + Texts(cells[1..])
  {
  }

  lemma FieldsOfRowStep(cells: seq<Cell>)
    requires |cells| >= 2 && Readable(cells[0])
    requires Fields(RenderRow(cells[1..])) == Texts(cells[1..])
    ensures Fields(RenderRow(cells)) == Texts(cells)
  {
    RenderRowCons(cells);
    FieldsOfCell(cells[0], RenderRow(cells[1..]));
    TextsCons(cells);
  }

  /** A row of readable cells reads back as their texts. */
  lemma {:induction false} FieldsOfRow(cells: seq<Cell>)
    requires |cells| >= 1
    requires forall i :: 0 <= i < |cells| ==> Readable(cells[i])
    ensures Fields(RenderRow(cells)) == Texts(cells)
  {
    if |cells| == 1 {
      FieldsOfCell(cells[0], "");
      assert RenderRow(cells) == Render(cells[0]);
      TextsCons(cells);
    } else {
      FieldsOfRow(cells[1..]);
      FieldsOfRowStep(cells);
    }
  }

  /** A line break appears in a row only when a cell holds one. */
  lemma RowAvoids(cells: seq<Cell>, c: char)
    requires c != ',' && c != '"'
    requires forall i :: 0 <= i < |cells| ==> c !in cells[i].text
    ensures c !in RenderRow(cells)
  {
    var rendered := seq(|cells|, i requires 0 <= i < |cells| => Render(cells[i]));
    forall k | 0 <= k < |rendered| ensures c !in rendered[k] {
      assert c !in cells[k].text;
    }
    JoinAvoids(rendered, ",", c);
  }
}
