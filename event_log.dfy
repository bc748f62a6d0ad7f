/** The event store as the assistant sees it (`utils.logger` is not part of
    this model): an ordered sequence of rows in insertion order, the bounded
    listing of it, and the XML rendering of a listing (`logs_to_xml`). */
module EventLog {
  import opened Values

  /** One stored event: `(id, name, note, timestamp, extra)`, the column
      order `list_logs` returns. */
  datatype Row = Row(id: nat, name: Value, note: Value, ts: string, extra: Value)

  /** Each row's id is above the one before it. */
  predicate Ascending(rows: seq<Row>) {
    forall k :: 0 < k < |rows| ==> rows[k - 1].id < rows[k].id
  }

  /** Ids increasing from each row to the next are increasing overall, so
      they are unique. */
  lemma AscendingIds(rows: seq<Row>, i: nat, j: nat)
    requires Ascending(rows) && i < j < |rows|
    ensures rows[i].id < rows[j].id
    decreases j - i
  {
    if i + 1 < j {
      AscendingIds(rows, i + 1, j);
    }
  }

  /** A row whose id is above the last one keeps the store ascending. */
  lemma AscendingSnoc(rows: seq<Row>, row: Row)
    requires Ascending(rows) && (rows != [] ==> rows[|rows| - 1].id < row.id)
    ensures Ascending(rows + [row])
  {
    var rs := rows + [row];
    forall k | 0 < k < |rs|
      ensures rs[k - 1].id < rs[k].id
    {
      if k < |rows| {
        assert rs[k - 1] == rows[k - 1] && rs[k] == rows[k];
      }
    }
  }

  /** Both `logs_to_xml` and the export read `list_logs(1000)`. */
  const ListLimit: nat := 1000

  /** `list_logs(limit)`: at most `limit` rows, the most recent ones, in
      insertion order. Listing does not change the store. */
  function ListLogs(rows: seq<Row>, limit: nat): (r: seq<Row>)
    ensures |r| == if |rows| <= limit then |rows| else limit
    ensures r == rows[|rows| - |r|..]
  {
    if |rows| <= limit then rows else rows[|rows| - limit..]
  }

  /** The five lines `logs_to_xml` writes for one row. */
  function OpenLine(r: Row): string {
    "  <event id=\"" + NatText(r.id) + "\" timestamp=\"" + r.ts + "\">\n"
  }

  function NameLine(r: Row): string {
    "    <name>" + Text(r.name) + "</name>\n"
  }

  function NoteLine(r: Row): string {
    "    <note>" + Text(r.note) + "</note>\n"
  }

  function ExtraLine(r: Row): string {
    "    <extra>" + Text(r.extra) + "</extra>\n"
  }

  const CloseLine := "  </event>\n"

  /** The `<event>` element written for one row. */
  function EventXml(r: Row): string {
    OpenLine(r) + NameLine(r) + NoteLine(r) + ExtraLine(r) + CloseLine
  }

  /** The strings of `parts` written one after the other. */
  function Concat(parts: seq<string>): string {
    if parts == [] then "" else Concat(parts[..|parts| - 1]) + parts[|parts| - 1]
  }

  lemma {:induction false} ConcatAppend(a: seq<string>, b: seq<string>)
    ensures Concat(a + b) == Concat(a) + Concat(b)
    decreases |b|
  {
    if b == [] {
      assert a + b == a;
    } else {
      var b' := b[..|b| - 1];
      assert (a + b)[..|a + b| - 1] == a + b';
      ConcatAppend(a, b');
    }
  }

  /** One `<event>` element per row, in row order. */
  function Blocks(rows: seq<Row>): (bs: seq<string>)
    ensures |bs| == |rows|
  {
    seq(|rows|, i requires 0 <= i < |rows| => EventXml(rows[i]))
  }

  /** The `<event>` elements of the rows, one after the other. */
  function EventsXml(rows: seq<Row>): string {
    Concat(Blocks(rows))
  }

  /** The document `logs_to_xml` returns for a listing: a `<logs>` root
      around the events, with no newline after the closing tag. */
  function Xml(rows: seq<Row>): string {
    "<logs>\n" + EventsXml(rows) + "</logs>"
  }

  /** The document opens with `<logs>` and a newline, closes with
      `</logs>`, and holds the events and nothing else in between. */
  lemma XmlShape(rows: seq<Row>)
    ensures var x := Xml(rows);
            && |x| >= 14
            && x[..7] == "<logs>\n" && x[|x| - 7..] == "</logs>"
            && x[7..|x| - 7] == EventsXml(rows)
  {
    var x := Xml(rows);
    assert x[..7] == "<logs>\n";
    assert x[7..|x| - 7] == EventsXml(rows);
  }

  /** Each element starts with the row's id, written so that it reads back,
      and its timestamp. */
  lemma EventXmlHeader(r: Row)
    ensures EventXml(r)[..|OpenLine(r)|] == OpenLine(r)
    ensures OpenLine(r) == "  <event id=\"" + NatText(r.id) + "\" timestamp=\"" + r.ts + "\">\n"
    ensures ParseDigits(NatText(r.id)) == r.id
  {
    ParseNatText(r.id);
    var rest := NameLine(r) + NoteLine(r) + ExtraLine(r) + CloseLine;
    assert EventXml(r) == OpenLine(r) + rest;
  }

  lemma BlocksAppend(a: seq<Row>, b: seq<Row>)
    ensures Blocks(a + b) == Blocks(a) + Blocks(b)
  {
    var l, r := Blocks(a + b), Blocks(a) + Blocks(b);
    assert |l| == |r|;
    forall k | 0 <= k < |l| ensures l[k] == r[k] {
      if k < |a| {
        assert (a + b)[k] == a[k];
      } else {
        assert (a + b)[k] == b[k - |a|];
      }
    }
  }

  lemma EventsXmlAppend(a: seq<Row>, b: seq<Row>)
    ensures EventsXml(a + b) == EventsXml(a) + EventsXml(b)
  {
    BlocksAppend(a, b);
    ConcatAppend(Blocks(a), Blocks(b));
  }

  lemma EventsXmlSingle(r: Row)
    ensures EventsXml([r]) == EventXml(r)
  {
    var bs := Blocks([r]);
    assert bs == [EventXml(r)];
    assert bs[..0] == [];
    assert Concat(bs) == Concat([]) + EventXml(r);
    assert "" + EventXml(r) == EventXml(r);
  }

  /** Concatenation regrouped, stated over plain sequences so that the
      solver need not look inside the pieces. */
  lemma Regroup3<T>(x: seq<T>, a: seq<T>, b: seq<T>)
    ensures x + a + b == x + (a + b)
  {
  }

  lemma Regroup6<T>(x: seq<T>, a: seq<T>, b: seq<T>, c: seq<T>, d: seq<T>, e: seq<T>)
    ensures x + a + b + c + d + e == x + (a + b + c + d + e)
  {
  }

  lemma EventsXmlEmpty()
    ensures EventsXml([]) == ""
  {
    assert Blocks([]) == [];
  }

  /** Rendering one more row appends its element. */
  lemma EventsXmlSnoc(rows: seq<Row>, i: nat)
    requires i < |rows|
    ensures EventsXml(rows[..i + 1]) == EventsXml(rows[..i]) + EventXml(rows[i])
  {
    assert rows[..i + 1] == rows[..i] + [rows[i]];
    EventsXmlAppend(rows[..i], [rows[i]]);
    EventsXmlSingle(rows[i]);
  }

  /** Exactly one element per row, in row order: the rendering of row `i`
      stands between those of the rows before it and after it. */
  lemma XmlBlockOfRow(rows: seq<Row>, i: nat)
    requires i < |rows|
    ensures EventsXml(rows) == EventsXml(rows[..i]) + EventXml(rows[i]) + EventsXml(rows[i + 1..])
  {
    assert rows == rows[..i] + [rows[i]] + rows[i + 1..];
    EventsXmlAppend(rows[..i] + [rows[i]], rows[i + 1..]);
    EventsXmlAppend(rows[..i], [rows[i]]);
    EventsXmlSingle(rows[i]);
  }
}
