/** CSV export (server/services/export.ts, `generateCSV`): the first line is
    the keys of the first row, unquoted and joined by ","; every row then
    gives one line of quoted fields, one per header, with each '"' in a
    value doubled, in the manner of section 2 of RFC 4180 but with "\n"
    between records where the RFC has CRLF. */
module Export {
  import opened Wrappers
  import opened Objects

  /** One row object: its keys in `Object.keys` order, each with the string
      `'' + value` makes of its value. */
  type Row = seq<(string, string)>

  /** The string form of the row's value for `key`; a key the row lacks reads as "undefined". */
  function Lookup(row: Row, key: string): (v: string)
    ensures (exists i :: 0 <= i < |row| && row[i].0 == key) ==> exists i :: 0 <= i < |row| && row[i] == (key, v)
    ensures (forall i :: 0 <= i < |row| ==> row[i].0 != key) ==> v == "undefined"
  {
    if row == [] then "undefined"
    else if row[0].0 == key then row[0].1
    else Lookup(row[1..], key)
  }

  /** The strings `xs` with `sep` between neighbours. */
  function Join(xs: seq<string>, sep: char): string
  {
    if xs == [] then ""
    else if |xs| == 1 then xs[0]
    else xs[0] + [sep] + Join(xs[1..], sep)
  }

  /** `v` with every double quote doubled. */
  function Escape(v: string): string
  {
    if v == [] then ""
    else (if v[0] == '"' then "\"\"" else [v[0]]) + Escape(v[1..])
  }

  /** A data field: the escaped value between double quotes. */
  function Quote(v: string): string
  {
    "\"" + Escape(v) + "\""
  }

  /** The values of one row, in header order. */
  function Values(headers: seq<string>, row: Row): (vs: seq<string>)
    ensures |vs| == |headers| && forall j :: 0 <= j < |headers| ==> vs[j] == Lookup(row, headers[j])
  {
    seq(|headers|, j requires 0 <= j < |headers| => Lookup(row, headers[j]))
  }

  /** Each value escaped and put between double quotes. */
  function Quoted(vs: seq<string>): (qs: seq<string>)
    ensures |qs| == |vs| && forall j :: 0 <= j < |vs| ==> qs[j] == Quote(vs[j])
  {
    seq(|vs|, j requires 0 <= j < |vs| => Quote(vs[j]))
  }

  /** One data line. */
  function Record(headers: seq<string>, row: Row): string
  {
    Join(Quoted(Values(headers, row)), ',')
  }

  /** The lines `csvRows` collects: the header line, then one line per row. */
  function Lines(data: seq<Row>): (ls: seq<string>)
    requires data != []
    ensures |ls| == |data| + 1
  {
    [Join(Keys(data[0]), ',')] + seq(|data|, i requires 0 <= i < |data| => Record(Keys(data[0]), data[i]))
  }

  /** What `generateCSV(data)` returns. */
  function Csv(data: seq<Row>): string
  {
    if data == [] then "" else Join(Lines(data), '\n')
  }

  /** `generateCSV`: the header line, then a line pushed per row, joined. */
  method GenerateCsv(data: seq<Row>) returns (csv: string)
    ensures csv == Csv(data)
    ensures data == [] ==> csv == ""
  {
    if |data| == 0 {
      return "";
    }
    var headers := Keys(data[0]);
    var csvRows := [Join(headers, ',')];
    for i := 0 to |data|
      invariant csvRows == Lines(data)[..i + 1]
    {
      var values := Quoted(Values(headers, data[i]));
      csvRows := csvRows + [Join(values, ',')];
    }
    assert csvRows == Lines(data);
    csv := Join(csvRows, '\n');
  }

  /** csvRows holds one header line and one line per row: the header line is
      the first row's keys, and line i + 1 holds row i's values, quoted, in
      header order. */
  lemma LinesShape(data: seq<Row>)
    requires data != []
    ensures |Lines(data)| == |data| + 1
    ensures Lines(data)[0] == Join(Keys(data[0]), ',')
    ensures forall i :: 0 <= i < |data| ==> Lines(data)[i + 1] == Join(Quoted(Values(Keys(data[0]), data[i])), ',')
  {
  }

  // ---------------------------------------------------------------------
  // reading the text back

  /** After an opening quote: the field's value up to its closing quote, and
      what follows that quote; `""` stands for one '"'. */
  function ReadQuoted(s: string): (r: Option<(string, string)>)
    ensures r.Some? ==> |r.value.1| < |s|
    decreases |s|
  {
    if s == [] then None
    else if s[0] == '"' then
      if |s| >= 2 && s[1] == '"' then
        match ReadQuoted(s[2..])
        case None => None
        case Some((v, rest)) => Some(("\"" + v, rest))
      else Some(("", s[1..]))
    else
      match ReadQuoted(s[1..])
      case None => None
      case Some((v, rest)) => Some(([s[0]] + v, rest))
  }

  /** A quoted field and what follows it. */
  function ReadField(s: string): (r: Option<(string, string)>)
    ensures r.Some? ==> |r.value.1| < |s|
  {
    if s == [] || s[0] != '"' then None else ReadQuoted(s[1..])
  }

  /** Quoted fields separated by ",", and what follows the last. */
  function ReadFields(s: string): (r: Option<(seq<string>, string)>)
    ensures r.Some? ==> |r.value.1| < |s|
    decreases |s|
  {
    match ReadField(s)
    case None => None
    case Some((v, rest)) =>
      if rest != [] && rest[0] == ',' then
        match ReadFields(rest[1..])
        case None => None
        case Some((vs, rest')) => Some(([v] + vs, rest'))
      else Some(([v], rest))
  }

  /** Lines of quoted fields separated by "\n", to the end of the text. */
  function ReadRecords(s: string): Option<seq<seq<string>>>
    decreases |s|
  {
    match ReadFields(s)
    case None => None
    case Some((vs, rest)) =>
      if rest == [] then Some([vs])
      else if rest[0] == '\n' then
        match ReadRecords(rest[1..])
        case None => None
        case Some(rs) => Some([vs] + rs)
      else None
  }

  /** The text before the first c, and the text after it if there is one. */
  function SplitAt(s: string, c: char): (r: (string, Option<string>))
    ensures r.1.Some? ==> |r.1.value| < |s|
  {
    if s == [] then ("", None)
    else if s[0] == c then ("", Some(s[1..]))
    else
      var r := SplitAt(s[1..], c);
      ([s[0]] + r.0, r.1)
  }

  /** The pieces of s between the occurrences of c. */
  function SplitAll(s: string, c: char): seq<string>
    decreases |s|
  {
    var r := SplitAt(s, c);
    match r.1
    case None => [r.0]
    case Some(rest) => [r.0] + SplitAll(rest, c)
  }

  /** A reader for the text `generateCSV` writes: an unquoted header line,
      then the quoted records. */
  function ReadCsv(s: string): Option<(seq<string>, seq<seq<string>>)>
  {
    var r := SplitAt(s, '\n');
    match r.1
    case None => None
    case Some(rest) =>
      match ReadRecords(rest)
      case None => None
      case Some(rs) => Some((SplitAll(r.0, ','), rs))
  }

  predicate Free(s: string, c: char)
  {
    forall i :: 0 <= i < |s| ==> s[i] != c
  }

  // ---------------------------------------------------------------------
  // round trip

  /** Un-doubling the quotes of an escaped value and stopping at the
      closing quote gives the value back. */
  lemma {:induction false} ReadEscaped(v: string, rest: string)
    requires rest == [] || rest[0] != '"'
    ensures ReadQuoted(Escape(v) + "\"" + rest) == Some((v, rest))
  {
    var s := Escape(v) + "\"" + rest;
    if v == [] {
      assert s == "\"" + rest;
    } else {
      var tail := Escape(v[1..]) + "\"" + rest;
      ReadEscaped(v[1..], rest);
      if v[0] == '"' {
        assert s == "\"\"" + tail;
        assert s[2..] == tail;
        assert "\"" + v[1..] == v;
      } else {
        assert s == [v[0]] + tail;
        assert s[1..] == tail;
        assert [v[0]] + v[1..] == v;
      }
    }
  }

  /** A quoted field reads back as its value. */
  lemma ReadQuote(v: string, rest: string)
    requires rest == [] || rest[0] != '"'
    ensures ReadField(Quote(v) + rest) == Some((v, rest))
  {
    var s := Quote(v) + rest;
    assert s[1..] == Escape(v) + "\"" + rest;
    ReadEscaped(v, rest);
  }

  /** One record reads back as its values, as long as it is followed by
      the end of the text or of the line. */
  lemma {:induction false} ReadRecordFields(vs: seq<string>, rest: string)
    requires |vs| > 0
    requires rest == [] || rest[0] == '\n'
    ensures ReadFields(Join(Quoted(vs), ',') + rest) == Some((vs, rest))
  {
    var qs := Quoted(vs);
    if |vs| == 1 {
      ReadQuote(vs[0], rest);
      assert [vs[0]] == vs;
    } else {
      var more := Join(qs[1..], ',') + rest;
      assert qs[1..] == Quoted(vs[1..]);
      ReadRecordFields(vs[1..], rest);
      assert Join(qs, ',') + rest == Quote(vs[0]) + ([','] + more);
      ReadQuote(vs[0], [','] + more);
      assert ([','] + more)[1..] == more;
      assert [vs[0]] + vs[1..] == vs;
    }
  }

  /** The data lines read back as the rows' values. */
  lemma {:induction false} ReadAllRecords(vss: seq<seq<string>>)
    requires |vss| > 0
    requires forall i :: 0 <= i < |vss| ==> |vss[i]| > 0
    ensures ReadRecords(Join(seq(|vss|, i requires 0 <= i < |vss| => Join(Quoted(vss[i]), ',')), '\n')) == Some(vss)
  {
    var ls := seq(|vss|, i requires 0 <= i < |vss| => Join(Quoted(vss[i]), ','));
    if |vss| == 1 {
      ReadRecordFields(vss[0], []);
      assert Join(ls, '\n') == Join(Quoted(vss[0]), ',') + [];
      assert [vss[0]] == vss;
    } else {
      var more := Join(ls[1..], '\n');
      assert ls[1..] == seq(|vss[1..]|, i requires 0 <= i < |vss[1..]| => Join(Quoted(vss[1..][i]), ','));
      ReadAllRecords(vss[1..]);
      assert Join(ls, '\n') == Join(Quoted(vss[0]), ',') + (['\n'] + more);
      ReadRecordFields(vss[0], ['\n'] + more);
      assert (['\n'] + more)[1..] == more;
      assert [vss[0]] + vss[1..] == vss;
    }
  }

  /** Joining stops short of c when no piece holds c and c is not the
      separator. */
  lemma {:induction false} JoinFree(xs: seq<string>, sep: char, c: char)
    requires sep != c
    requires forall i :: 0 <= i < |xs| ==> Free(xs[i], c)
    ensures Free(Join(xs, sep), c)
  {
    if |xs| > 1 {
      JoinFree(xs[1..], sep, c);
    }
  }

  lemma {:induction false} SplitAtFree(a: string, c: char, b: Option<string>)
    requires Free(a, c)
    ensures SplitAt(a + (if b.Some? then [c] + b.value else []), c) == (a, b)
  {
    var s := a + (if b.Some? then [c] + b.value else []);
    if a == [] {
      assert s == (if b.Some? then [c] + b.value else []);
      if b.Some? {
        assert s[1..] == b.value;
      }
    } else {
      SplitAtFree(a[1..], c, b);
      assert s[1..] == a[1..] + (if b.Some? then [c] + b.value else []);
      assert [a[0]] + a[1..] == a;
    }
  }

  /** The header line splits back into the keys when no key contains ",". */
  lemma {:induction false} SplitJoin(ks: seq<string>)
    requires |ks| > 0
    requires forall i :: 0 <= i < |ks| ==> Free(ks[i], ',')
    ensures SplitAll(Join(ks, ','), ',') == ks
  {
    if |ks| == 1 {
      SplitAtFree(ks[0], ',', None);
      assert ks[0] + [] == ks[0];
    } else {
      SplitJoin(ks[1..]);
      SplitAtFree(ks[0], ',', Some(Join(ks[1..], ',')));
      assert Join(ks, ',') == ks[0] + ([','] + Join(ks[1..], ','));
      assert [ks[0]] + ks[1..] == ks;
    }
  }

  /** Reading the text back gives the first row's keys and, for every row,
      its values in header order, provided there is at least one key and no
      key holds "," or a line break (the header line is not quoted). */
  lemma CsvRoundTrip(data: seq<Row>)
    requires data != []
    requires |data[0]| > 0
    requires forall i :: 0 <= i < |data[0]| ==> Free(data[0][i].0, ',') && Free(data[0][i].0, '\n')
    ensures ReadCsv(Csv(data)) ==
      Some((Keys(data[0]), seq(|data|, i requires 0 <= i < |data| => Values(Keys(data[0]), data[i]))))
  {
    var ks := Keys(data[0]);
    var body := Join(Lines(data)[1..], '\n');
    CsvSplit(data);
    ReadBody(data);
    JoinFree(ks, ',', '\n');
    SplitAtFree(Join(ks, ','), '\n', Some(body));
    SplitJoin(ks);
  }

  lemma CsvSplit(data: seq<Row>)
    requires data != []
    ensures Csv(data) == Join(Keys(data[0]), ',') + (['\n'] + Join(Lines(data)[1..], '\n'))
  {
  }

  lemma ReadBody(data: seq<Row>)
    requires data != [] && |data[0]| > 0
    ensures ReadRecords(Join(Lines(data)[1..], '\n'))
         == Some(seq(|data|, i requires 0 <= i < |data| => Values(Keys(data[0]), data[i])))
  {
    var ks := Keys(data[0]);
    var vss := seq(|data|, i requires 0 <= i < |data| => Values(ks, data[i]));
    assert Lines(data)[1..] == seq(|vss|, i requires 0 <= i < |vss| => Join(Quoted(vss[i]), ','));
    ReadAllRecords(vss);
  }
}
