/**
  Ad records as the ads-archive endpoint returns them, and the flattening of
  each record into one CSV row that save_results writes (app.py:145-186).
  The fetcher never looks inside a record; only the CSV export does.
*/
module Ads {

  /** A field of an ad record: a JSON string or a JSON array of strings. */
  datatype Value = Str(s: string) | Strs(items: seq<string>)

  /** One ad record: field name to value, in the shape of a decoded JSON object. */
  type Record = map<string, Value>

  /** The header row of the CSV file, as cells. */
  const HeaderCells: seq<Value> :=
    [Str("Page Name"), Str("Creation Time"), Str("Link Title"),
     Str("Link Description"), Str("Ad Body"), Str("Snapshot URL")]

  /** The record field each CSV column is read from, column by column. */
  const Columns: seq<string> :=
    ["page_name", "ad_creation_time", "ad_creative_link_titles",
     "ad_creative_link_descriptions", "ad_creative_bodies", "ad_snapshot_url"]

  /** Columns 2 to 4 hold list fields, joined into one cell. */
  predicate IsListColumn(j: nat) {
    2 <= j <= 4
  }

  /** Python's `", ".join(items)`. */
  function Join(items: seq<string>): string
  {
    if |items| == 0 then ""
    else if |items| == 1 then items[0]
    else items[0] + ", " + Join(items[1..])
  }

  /**
    Python's `s.split(", ")`: the cuts are made left to right at each
    occurrence of the separator. It is what a reader of a joined cell
    applies to get the list back.
  */
  function Split(s: string): (parts: seq<string>)
    ensures |parts| >= 1
    decreases |s|
  {
    if |s| == 0 then [""]
    else if |s| >= 2 && s[0] == ',' && s[1] == ' ' then [""] + Split(s[2..])
    else
      var rest := Split(s[1..]);
      [[s[0]] + rest[0]] + rest[1..]
  }

  /** No item of a list carries a comma, so the separator cannot occur inside one. */
  predicate CommaFree(items: seq<string>) {
    forall i :: 0 <= i < |items| ==> ',' !in items[i]
  }

  /** What Python yields when it iterates a value: the items of a list, the characters of a string. */
  function Elements(v: Value): seq<string>
  {
    match v
    case Strs(items) => items
    case Str(s) => seq(|s|, i requires 0 <= i < |s| => [s[i]])
  }

  /** `ad.get(key, '')`. */
  function Field(ad: Record, key: string): Value
  {
    if key in ad then ad[key] else Str("")
  }

  /** `', '.join(ad.get(key, []))`. */
  function JoinedField(ad: Record, key: string): string
  {
    if key in ad then Join(Elements(ad[key])) else ""
  }

  /** The row written for one ad (app.py:177-184), before the CSV writer turns cells into text. */
  function Row(ad: Record): (row: seq<Value>)
    ensures |row| == |HeaderCells|
  {
    [ Field(ad, "page_name"),
      Field(ad, "ad_creation_time"),
      Str(JoinedField(ad, "ad_creative_link_titles")),
      Str(JoinedField(ad, "ad_creative_link_descriptions")),
      Str(JoinedField(ad, "ad_creative_bodies")),
      Field(ad, "ad_snapshot_url") ]
  }

  /**
    The rows save_results hands to the CSV writer, in order: the header row,
    then one row per ad (app.py:173-185). Every row is as wide as the header.
  */
  method CsvTable(ads: seq<Record>) returns (table: seq<seq<Value>>)
    ensures |table| == |ads| + 1
    ensures table[0] == HeaderCells
    ensures forall i :: 0 <= i < |ads| ==> table[i + 1] == Row(ads[i])
    ensures forall i :: 0 <= i < |table| ==> |table[i]| == |HeaderCells|
  {
    table := [HeaderCells];
    for k := 0 to |ads|
      invariant |table| == k + 1
      invariant table[0] == HeaderCells
      invariant forall i :: 0 <= i < k ==> table[i + 1] == Row(ads[i])
      invariant forall i :: 0 <= i < |table| ==> |table[i]| == |HeaderCells|
    {
      table := table + [Row(ads[k])];
    }
  }

  /** Each cell of a row: missing fields give an empty cell, list fields are joined, the rest are copied. */
  lemma RowCells(ad: Record, j: nat)
    requires j < |HeaderCells|
    ensures Columns[j] !in ad ==> Row(ad)[j] == Str("")
    ensures Columns[j] in ad && !IsListColumn(j) ==> Row(ad)[j] == ad[Columns[j]]
    ensures Columns[j] in ad && IsListColumn(j) ==> Row(ad)[j] == Str(Join(Elements(ad[Columns[j]])))
  {
  }

  /** Splitting a comma-free item followed by the separator peels off that item. */
  lemma {:induction false} SplitAfterItem(item: string, rest: string)
    requires ',' !in item
    ensures Split(item + ", " + rest) == [item] + Split(rest)
    decreases |item|
  {
    var s := item + ", " + rest;
    if item == [] {
      assert s == ", " + rest;
      assert s[2..] == rest;
    } else {
      assert s[1..] == item[1..] + ", " + rest;
      SplitAfterItem(item[1..], rest);
      assert [s[0]] + item[1..] == item;
    }
  }

  /** A comma-free string is a single part. */
  lemma {:induction false} SplitSingle(item: string)
    requires ',' !in item
    ensures Split(item) == [item]
    decreases |item|
  {
    if item != [] {
      SplitSingle(item[1..]);
      assert [item[0]] + item[1..] == item;
    }
  }

  /** Joining a non-empty list of comma-free items loses nothing: splitting the cell gives the list back. */
  lemma {:induction false} SplitJoin(items: seq<string>)
    requires |items| >= 1 && CommaFree(items)
    ensures Split(Join(items)) == items
    decreases |items|
  {
    if |items| == 1 {
      SplitSingle(items[0]);
    } else {
      SplitJoin(items[1..]);
      SplitAfterItem(items[0], Join(items[1..]));
      assert [items[0]] + items[1..] == items;
    }
  }

  /** A list column of a row can be split back into the ad's list when its items carry no comma. */
  lemma ListCellRoundTrip(ad: Record, j: nat, items: seq<string>)
    requires j < |HeaderCells| && IsListColumn(j)
    requires Columns[j] in ad && ad[Columns[j]] == Strs(items)
    requires |items| >= 1 && CommaFree(items)
    ensures Row(ad)[j].Str? && Split(Row(ad)[j].s) == items
  {
    RowCells(ad, j);
    SplitJoin(items);
  }

  /** A string where a list is expected is joined character by character, as Python iterates it. */
  lemma StringInListColumn(ad: Record, j: nat)
    requires j < |HeaderCells| && IsListColumn(j)
    requires Columns[j] in ad && ad[Columns[j]] == Str("ab")
    ensures Row(ad)[j] == Str("a, b")
  {
    RowCells(ad, j);
    assert Elements(Str("ab")) == ["a", "b"];
  }
}
