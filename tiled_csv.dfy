// tiled/tiled.go, NewGame: the tile layer of a Tiled map is CSV text, one
// line per map row and one comma-separated tile id per cell. The loader trims
// the text, splits it into lines, drops one trailing comma from each line,
// splits the line on commas and parses every item with strconv.Atoi,
// panicking on the first item that is not an integer. The string functions
// are Go's strings and strconv semantics on code points; Go `int` is taken to
// be 64 bits.
module TiledCsv {
  import opened Engine

  /** Why the demo panics: a layer item that is not an integer, a tile outside the layer, or a tile id with no image. */
  datatype Panic =
    | NotAnInteger(line: string, item: string)
    | IndexOutOfRange(x: int, y: int)
    | NilImage(tile: int)

  datatype Result<T> = Ok(value: T) | Failure(error: Panic)

  /** unicode.IsSpace, which strings.TrimSpace trims. */
  predicate IsSpace(c: char)
  {
    || c == '\t' || c == '\n' || c == '\U{0B}' || c == '\U{0C}' || c == '\r' || c == ' '
    || c == '\U{85}' || c == '\U{A0}' || c == '\U{1680}' || ('\U{2000}' <= c <= '\U{200A}')
    || c == '\U{2028}' || c == '\U{2029}' || c == '\U{202F}' || c == '\U{205F}' || c == '\U{3000}'
  }

  /** s without its leading white space: a suffix of s, and only white space is dropped. */
  function TrimLeft(s: string): (r: string)
    ensures |r| <= |s| && r == s[|s| - |r|..]
    ensures r == [] || !IsSpace(r[0])
    ensures forall i :: 0 <= i < |s| - |r| ==> IsSpace(s[i])
    decreases |s|
  {
    if s != [] && IsSpace(s[0]) then TrimLeft(s[1..]) else s
  }

  /** s without its trailing white space: a prefix of s, and only white space is dropped. */
  function TrimRight(s: string): (r: string)
    ensures |r| <= |s| && r == s[..|r|]
    ensures r == [] || !IsSpace(r[|r| - 1])
    ensures forall i :: |r| <= i < |s| ==> IsSpace(s[i])
    decreases |s|
  {
    if s != [] && IsSpace(s[|s| - 1]) then TrimRight(s[..|s| - 1]) else s
  }

  /** strings.TrimSpace: neither end of the result is white space. */
  function TrimSpace(s: string): (r: string)
    ensures r == [] || (!IsSpace(r[0]) && !IsSpace(r[|r| - 1]))
  {
    var t := TrimLeft(s);
    var r := TrimRight(t);
    assert r != [] ==> r[0] == t[0];
    r
  }

  /** Text that already starts and ends with something other than white space is left as it is. */
  lemma TrimSpaceKeeps(s: string)
    requires s == [] || (!IsSpace(s[0]) && !IsSpace(s[|s| - 1]))
    ensures TrimSpace(s) == s
  {
    assert TrimLeft(s) == s;
    assert TrimRight(s) == s;
  }

  /** The first position of c in s. */
  function IndexOf(s: string, c: char): (i: nat)
    requires c in s
    ensures i < |s| && s[i] == c && c !in s[..i]
  {
    if s[0] == c then 0 else 1 + IndexOf(s[1..], c)
  }

  /** strings.Join with a one-character separator. */
  function Join(parts: seq<string>, sep: char): string
    requires |parts| >= 1
  {
    if |parts| == 1 then parts[0] else parts[0] + [sep] + Join(parts[1..], sep)
  }

  /**
   * strings.Split with a one-character separator: at least one part (the
   * empty string splits into one empty part), no part holds the separator,
   * and joining the parts gives back s.
   */
  function Split(s: string, sep: char): (r: seq<string>)
    ensures |r| >= 1
    ensures forall i :: 0 <= i < |r| ==> sep !in r[i]
    ensures Join(r, sep) == s
    decreases |s|
  {
    if sep !in s then [s]
    else
      var i := IndexOf(s, sep);
      var rest := Split(s[i + 1..], sep);
      assert s == s[..i] + [sep] + s[i + 1..];
      assert ([s[..i]] + rest)[1..] == rest;
      [s[..i]] + rest
  }

  /** The first separator after a part that holds none is the one right after it. */
  lemma {:induction false} IndexOfAfter(p: string, c: char, rest: string)
    requires c !in p
    ensures c in p + [c] + rest && IndexOf(p + [c] + rest, c) == |p|
    decreases |p|
  {
    var s := p + [c] + rest;
    assert s[|p|] == c;
    if p != [] {
      assert s[1..] == p[1..] + [c] + rest;
      IndexOfAfter(p[1..], c, rest);
    }
  }

  /** Splitting undoes joining, when no part holds the separator. */
  lemma {:induction false} SplitJoin(parts: seq<string>, sep: char)
    requires |parts| >= 1 && forall i :: 0 <= i < |parts| ==> sep !in parts[i]
    ensures Split(Join(parts, sep), sep) == parts
    decreases |parts|
  {
    if |parts| > 1 {
      var p, tail := parts[0], Join(parts[1..], sep);
      var s := p + [sep] + tail;
      assert Join(parts, sep) == s;
      IndexOfAfter(p, sep, tail);
      assert s[..|p|] == p && s[|p| + 1..] == tail;
      SplitJoin(parts[1..], sep);
    }
  }

  /** strings.TrimSuffix with a one-character suffix: at most that one character is dropped. */
  function TrimSuffix(s: string, c: char): (r: string)
    ensures r + [c] == s || (r == s && (s == [] || s[|s| - 1] != c))
  {
    if s != [] && s[|s| - 1] == c then s[..|s| - 1] else s
  }

  const MaxInt: int := 0x7FFF_FFFF_FFFF_FFFF
  const MinInt: int := -0x8000_0000_0000_0000

  predicate IsDigit(c: char) { '0' <= c <= '9' }

  predicate AllDigits(s: string) { forall i :: 0 <= i < |s| ==> IsDigit(s[i]) }

  /** The number a run of decimal digits spells. */
  function Value(s: string): nat
    requires AllDigits(s)
    decreases |s|
  {
    if s == [] then 0 else Value(s[..|s| - 1]) * 10 + (s[|s| - 1] as int - '0' as int)
  }

  /**
   * strconv.Atoi: an optional sign and at least one decimal digit, nothing
   * else (no spaces, no underscores), and a value that fits in 64 bits.
   */
  function Atoi(s: string): (r: Option<int>)
    ensures s == [] ==> r.None?
    ensures (exists i :: 0 < i < |s| && !IsDigit(s[i])) ==> r.None?
    ensures |s| > 0 && !IsDigit(s[0]) && s[0] != '+' && s[0] != '-' ==> r.None?
    ensures r.Some? ==> MinInt <= r.value <= MaxInt
  {
    if s == [] then None
    else
      var digits := if s[0] == '+' || s[0] == '-' then s[1..] else s;
      if digits == [] || !AllDigits(digits) then None
      else
        var v: int := if s[0] == '-' then 0 - Value(digits) else Value(digits);
        if MinInt <= v <= MaxInt then Some(v) else None
  }

  function DigitChar(d: nat): (c: char)
    requires d < 10
    ensures IsDigit(c) && c as int - '0' as int == d
  {
    ('0' as int + d) as char
  }

  /** The decimal digits of n, most significant first, without leading zeros. */
  function Digits(n: nat): (r: string)
    ensures |r| >= 1 && AllDigits(r) && Value(r) == n
    decreases n
  {
    if n < 10 then [DigitChar(n)]
    else
      var r := Digits(n / 10) + [DigitChar(n % 10)];
      assert r[..|r| - 1] == Digits(n / 10);
      r
  }

  /** strconv.Itoa. */
  function Itoa(n: int): (r: string)
    ensures r != [] && (IsDigit(r[0]) || r[0] == '-') && IsDigit(r[|r| - 1])
    ensures forall i :: 0 <= i < |r| ==> IsDigit(r[i]) || r[i] == '-'
  {
    if n < 0 then "-" + Digits(-n) else Digits(n)
  }

  /** Atoi reads back what Itoa writes, for every 64-bit value. */
  lemma AtoiItoa(n: int)
    requires MinInt <= n <= MaxInt
    ensures Atoi(Itoa(n)) == Some(n)
  {
    if n < 0 {
      assert Itoa(n)[1..] == Digits(-n);
    }
  }

  /** One item of a line: its value, or the panic Atoi's error causes. */
  function ParseItem(line: string, item: string): (r: Result<int>)
    ensures r.Ok? <==> Atoi(item).Some?
    ensures r.Ok? ==> Atoi(item) == Some(r.value)
    ensures r.Failure? ==> r.error == NotAnInteger(line, item)
  {
    match Atoi(item)
    case None => Failure(NotAnInteger(line, item))
    case Some(v) => Ok(v)
  }

  /** Each item of a line parsed on its own. */
  function ParseItems(line: string, items: seq<string>): (rs: seq<Result<int>>)
    ensures |rs| == |items| && forall i :: 0 <= i < |items| ==> rs[i] == ParseItem(line, items[i])
    decreases |items|
  {
    if items == [] then [] else [ParseItem(line, items[0])] + ParseItems(line, items[1..])
  }

  /** One line of the layer: one trailing comma dropped, then split on commas and parsed. */
  function ParseRow(line: string): Result<seq<int>>
  {
    Collect(ParseItems(line, Split(TrimSuffix(line, ','), ',')))
  }

  /**
   * Results gathered in order: every value when all succeed, otherwise the
   * first failure.
   */
  function Collect<T>(rs: seq<Result<T>>): (r: Result<seq<T>>)
    ensures r.Ok? <==> forall i :: 0 <= i < |rs| ==> rs[i].Ok?
    ensures r.Ok? ==> |r.value| == |rs| && forall i :: 0 <= i < |rs| ==> rs[i] == Ok(r.value[i])
    ensures r.Failure? ==> exists i :: 0 <= i < |rs| && rs[i] == Failure(r.error) && forall j :: 0 <= j < i ==> rs[j].Ok?
    decreases |rs|
  {
    if rs == [] then Ok([])
    else
      var n := |rs| - 1;
      var front := Collect(rs[..n]);
      assert forall i :: 0 <= i < n ==> rs[..n][i] == rs[i];
      if front.Failure? then front
      else if rs[n].Failure? then Failure(rs[n].error)
      else Ok(front.value + [rs[n].value])
  }

  /** Once a prefix fails, gathering the whole sequence fails the same way. */
  lemma {:induction false} CollectPrefixFails<T>(rs: seq<Result<T>>, k: nat)
    requires k <= |rs| && Collect(rs[..k]).Failure?
    ensures Collect(rs) == Collect(rs[..k])
    decreases |rs| - k
  {
    if k < |rs| {
      var n := |rs| - 1;
      assert rs[..n][..k] == rs[..k];
      CollectPrefixFails(rs[..n], k);
    } else {
      assert rs[..k] == rs;
    }
  }

  /** Gathering one more result: it either fails with that result's error or appends its value. */
  lemma CollectStep<T>(rs: seq<Result<T>>, i: nat)
    requires i < |rs| && Collect(rs[..i]).Ok?
    ensures Collect(rs[..i + 1]) ==
      if rs[i].Failure? then Failure(rs[i].error) else Ok(Collect(rs[..i]).value + [rs[i].value])
  {
    assert rs[..i + 1][..i] == rs[..i];
  }

  /** Each line parsed on its own. */
  function ParseRows(lines: seq<string>): (rs: seq<Result<seq<int>>>)
    ensures |rs| == |lines| && forall i :: 0 <= i < |lines| ==> rs[i] == ParseRow(lines[i])
    decreases |lines|
  {
    if lines == [] then [] else [ParseRow(lines[0])] + ParseRows(lines[1..])
  }

  /** MapLayer as NewGame builds it from the layer's text: its lines parsed in order, the first bad one aborting. */
  function ParseLayer(text: string): Result<seq<seq<int>>>
  {
    Collect(ParseRows(Split(TrimSpace(text), '\n')))
  }

  /** The loader: the trimmed layer text split into lines, and the lines loaded in order. */
  method LoadLayer(text: string) returns (r: Result<seq<seq<int>>>)
    ensures r == ParseLayer(text)
  {
    var lines := Split(TrimSpace(text), '\n');
    r := LoadLines(lines);
  }

  /**
   * The loader's outer loop: one new row per line; the first line holding an
   * item that Atoi rejects aborts the load.
   */
  method LoadLines(lines: seq<string>) returns (r: Result<seq<seq<int>>>)
    ensures r == Collect(ParseRows(lines))
  {
    ghost var rows := ParseRows(lines);
    var layer: seq<seq<int>> := [];
    var i := 0;
    while i < |lines|
      invariant 0 <= i <= |lines|
      invariant Collect(rows[..i]) == Ok(layer)
    {
      var row := LoadRow(lines[i]);
      assert row == rows[i];
      CollectStep(rows, i);
      if row.Failure? {
        CollectPrefixFails(rows, i + 1);
        return Failure(row.error);
      }
      layer := layer + [row.value];
      i := i + 1;
    }
    assert rows[..i] == rows;
    return Ok(layer);
  }

  /**
   * The loader's inner loop over one line: one trailing comma dropped, the
   * rest split on commas, each item parsed and appended in order.
   */
  method LoadRow(line: string) returns (r: Result<seq<int>>)
    ensures r == ParseRow(line)
  {
    var items := Split(TrimSuffix(line, ','), ',');
    ghost var results := ParseItems(line, items);
    var row: seq<int> := [];
    var k := 0;
    while k < |items|
      invariant 0 <= k <= |items|
      invariant Collect(results[..k]) == Ok(row)
    {
      var v := Atoi(items[k]);
      assert results[k] == ParseItem(line, items[k]);
      CollectStep(results, k);
      if v.None? {
        CollectPrefixFails(results, k + 1);
        return Failure(NotAnInteger(line, items[k]));
      }
      row := row + [v.value];
      k := k + 1;
    }
    assert results[..k] == results;
    return Ok(row);
  }

  /** The ids of one row as text, in order. */
  function ItoaAll(row: seq<int>): (r: seq<string>)
    ensures |r| == |row| && forall i :: 0 <= i < |row| ==> r[i] == Itoa(row[i])
    decreases |row|
  {
    if row == [] then [] else [Itoa(row[0])] + ItoaAll(row[1..])
  }

  /** One row as Tiled writes it: the ids separated by commas. */
  function FormatRow(row: seq<int>): string
  {
    if row == [] then "" else Join(ItoaAll(row), ',')
  }

  /** The texts of a grid's rows, in order. */
  function RowTexts(grid: seq<seq<int>>): (r: seq<string>)
    ensures |r| == |grid| && forall i :: 0 <= i < |grid| ==> r[i] == FormatRow(grid[i])
    decreases |grid|
  {
    if grid == [] then [] else [FormatRow(grid[0])] + RowTexts(grid[1..])
  }

  /** Lines of a CSV layer: every text but the last gets a trailing comma. */
  function Terminated(texts: seq<string>): (r: seq<string>)
    ensures |r| == |texts|
    ensures forall i :: 0 <= i < |texts| - 1 ==> r[i] == texts[i] + [',']
    ensures |texts| >= 1 ==> r[|texts| - 1] == texts[|texts| - 1]
    decreases |texts|
  {
    if |texts| <= 1 then texts
    else [texts[0] + [',']] + Terminated(texts[1..])
  }

  /** The lines of a layer as Tiled writes it: every row but the last ends in a comma. */
  function FormatLines(grid: seq<seq<int>>): seq<string>
  {
    Terminated(RowTexts(grid))
  }

  /** A layer's text as Tiled writes it. */
  function FormatLayer(grid: seq<seq<int>>): string
    requires |grid| >= 1
  {
    Join(FormatLines(grid), '\n')
  }

  /** At least one row, and no row empty. */
  predicate RowsFilled(grid: seq<seq<int>>)
  {
    |grid| >= 1 && forall i :: 0 <= i < |grid| ==> |grid[i]| >= 1
  }

  /** A grid Tiled can write and the loader can read: at least one row, no empty row, and 64-bit ids. */
  predicate Writable(grid: seq<seq<int>>)
  {
    && RowsFilled(grid)
    && (forall i, j :: 0 <= i < |grid| && 0 <= j < |grid[i]| ==> MinInt <= grid[i][j] <= MaxInt)
  }

  /** A character that no part holds and that is not the separator is not in the joined text. */
  lemma {:induction false} NotInJoin(parts: seq<string>, sep: char, c: char)
    requires |parts| >= 1 && c != sep && forall i :: 0 <= i < |parts| ==> c !in parts[i]
    ensures c !in Join(parts, sep)
    decreases |parts|
  {
    if |parts| > 1 {
      NotInJoin(parts[1..], sep, c);
    }
  }

  /** The joined text starts with the first part's first character and ends with the last part's last one. */
  lemma {:induction false} JoinEnds(parts: seq<string>, sep: char)
    requires |parts| >= 1 && forall i :: 0 <= i < |parts| ==> parts[i] != []
    ensures Join(parts, sep) != []
    ensures Join(parts, sep)[0] == parts[0][0]
    ensures Join(parts, sep)[|Join(parts, sep)| - 1] == parts[|parts| - 1][|parts[|parts| - 1]| - 1]
    decreases |parts|
  {
    if |parts| > 1 {
      JoinEnds(parts[1..], sep);
    }
  }

  /** The text of an id is not empty and holds neither a newline nor a comma. */
  lemma ItoaParts(row: seq<int>)
    ensures forall i :: 0 <= i < |row| ==>
      var p := ItoaAll(row)[i]; p != [] && '\n' !in p && ',' !in p
  {
    forall i | 0 <= i < |row|
      ensures var p := ItoaAll(row)[i]; p != [] && '\n' !in p && ',' !in p
    {
      var p := Itoa(row[i]);
      assert forall k :: 0 <= k < |p| ==> p[k] != '\n' && p[k] != ',';
    }
  }

  /** A row's text holds no newline, and starts and ends with an id's characters. */
  lemma FormatRowShape(row: seq<int>)
    requires |row| >= 1
    ensures '\n' !in FormatRow(row)
    ensures FormatRow(row) != [] && IsDigit(FormatRow(row)[|FormatRow(row)| - 1])
    ensures IsDigit(FormatRow(row)[0]) || FormatRow(row)[0] == '-'
  {
    var parts := ItoaAll(row);
    ItoaParts(row);
    NotInJoin(parts, ',', '\n');
    JoinEnds(parts, ',');
  }

  /** Splitting a row's text on commas gives back the ids' texts. */
  lemma SplitFormatRow(row: seq<int>)
    requires |row| >= 1
    ensures Split(FormatRow(row), ',') == ItoaAll(row)
  {
    ItoaParts(row);
    SplitJoin(ItoaAll(row), ',');
  }

  /** All results succeed, so gathering them gives their values. */
  lemma CollectAllOk<T>(rs: seq<Result<T>>, vs: seq<T>)
    requires |rs| == |vs| && forall i :: 0 <= i < |rs| ==> rs[i] == Ok(vs[i])
    ensures Collect(rs) == Ok(vs)
  {
    var r := Collect(rs);
    assert r.value == vs;
  }

  /** The ids of a row's text parse back to the row. */
  lemma ParseFormattedRow(row: seq<int>, line: string)
    requires |row| >= 1 && forall j :: 0 <= j < |row| ==> MinInt <= row[j] <= MaxInt
    ensures Collect(ParseItems(line, ItoaAll(row))) == Ok(row)
  {
    var rs := ParseItems(line, ItoaAll(row));
    forall j | 0 <= j < |row|
      ensures rs[j] == Ok(row[j])
    {
      AtoiItoa(row[j]);
    }
    CollectAllOk(rs, row);
  }

  /** Dropping the trailing comma of a line gives back its text, when the text itself does not end in one. */
  lemma TrimComma(t: string, comma: bool)
    requires t != [] && t[|t| - 1] != ','
    ensures TrimSuffix(if comma then t + [','] else t, ',') == t
  {
    if comma {
      assert (t + [','])[..|t|] == t;
    }
  }

  /** Each written line loads as its row. */
  lemma ParseFormattedLine(grid: seq<seq<int>>, i: nat)
    requires Writable(grid) && i < |grid|
    ensures ParseRow(FormatLines(grid)[i]) == Ok(grid[i])
  {
    var line := FormatLines(grid)[i];
    var text := RowTexts(grid)[i];
    assert line == if i < |grid| - 1 then text + [','] else text;
    assert text == FormatRow(grid[i]);
    FormatRowShape(grid[i]);
    TrimComma(text, i < |grid| - 1);
    SplitFormatRow(grid[i]);
    ParseFormattedRow(grid[i], line);
  }

  /** Text split into lines: at least one line, none empty and none holding a newline. */
  predicate Lines(lines: seq<string>)
  {
    |lines| >= 1 && forall i :: 0 <= i < |lines| ==> '\n' !in lines[i] && lines[i] != []
  }

  /** The text of a row as the layer needs it: not empty, no newline, and no white space at either end. */
  predicate RowText(t: string)
  {
    t != [] && '\n' !in t && !IsSpace(t[0]) && !IsSpace(t[|t| - 1])
  }

  /** Digits and the minus sign are not white space. */
  lemma NumberCharNotSpace(c: char)
    requires IsDigit(c) || c == '-'
    ensures !IsSpace(c)
  {
  }

  /** A filled row's text is a row text. */
  lemma FormatRowText(row: seq<int>)
    requires |row| >= 1
    ensures RowText(FormatRow(row))
  {
    var t := FormatRow(row);
    FormatRowShape(row);
    NumberCharNotSpace(t[0]);
    NumberCharNotSpace(t[|t| - 1]);
  }

  /** Lines that hold no newline, joined into text that needs no trimming, split back into those lines. */
  lemma JoinedLines(lines: seq<string>)
    requires Lines(lines)
    requires !IsSpace(lines[0][0]) && !IsSpace(lines[|lines| - 1][|lines[|lines| - 1]| - 1])
    ensures Split(TrimSpace(Join(lines, '\n')), '\n') == lines
  {
    JoinEnds(lines, '\n');
    TrimSpaceKeeps(Join(lines, '\n'));
    SplitJoin(lines, '\n');
  }

  /** A row text with or without its trailing comma is a line that starts and ends with something other than white space. */
  lemma CommaLine(t: string, comma: bool)
    requires RowText(t)
    ensures var l := if comma then t + [','] else t;
      l != [] && '\n' !in l && l[0] == t[0] && !IsSpace(l[|l| - 1])
  {
  }

  /** Row texts with their commas added are lines, and their joined text splits back into them. */
  lemma TerminatedLines(texts: seq<string>)
    requires |texts| >= 1 && forall i :: 0 <= i < |texts| ==> RowText(texts[i])
    ensures Lines(Terminated(texts))
    ensures Split(TrimSpace(Join(Terminated(texts), '\n')), '\n') == Terminated(texts)
  {
    var lines := Terminated(texts);
    forall i | 0 <= i < |texts|
      ensures '\n' !in lines[i] && lines[i] != []
    {
      CommaLine(texts[i], i < |texts| - 1);
    }
    CommaLine(texts[0], 0 < |texts| - 1);
    CommaLine(texts[|texts| - 1], false);
    assert Lines(lines) && !IsSpace(lines[0][0]);
    assert |lines| == |texts| && lines[|lines| - 1] == texts[|texts| - 1];
    JoinedLines(lines);
  }

  /** The written text needs no trimming and splits back into its lines. */
  lemma FormatLayerLines(grid: seq<seq<int>>)
    requires RowsFilled(grid)
    ensures Split(TrimSpace(FormatLayer(grid)), '\n') == FormatLines(grid)
  {
    var texts := RowTexts(grid);
    forall i | 0 <= i < |grid|
      ensures RowText(texts[i])
    {
      FormatRowText(grid[i]);
    }
    TerminatedLines(texts);
  }

  /**
   * The loader reads back exactly what Tiled writes: the CSV text of any
   * writable grid, trailing commas and all, loads as that grid.
   */
  lemma ParseFormat(grid: seq<seq<int>>)
    requires Writable(grid)
    ensures ParseLayer(FormatLayer(grid)) == Ok(grid)
  {
    FormatLayerLines(grid);
    var rows := ParseRows(FormatLines(grid));
    forall i | 0 <= i < |grid|
      ensures rows[i] == Ok(grid[i])
    {
      ParseFormattedLine(grid, i);
    }
    CollectAllOk(rows, grid);
  }
}
