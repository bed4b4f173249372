/**
 * The aggregator (`Wrangler.__init__`): turns the three record lists into one
 * table. Each list is flattened and projected to the given columns, each row
 * is tagged with its kind, and the three blocks are concatenated: tweets, then
 * retweets, then quoted tweets. Date parsing of `created_at` is not modelled.
 */
module Wrangler {
  import opened Wrappers
  import opened JsonValues

  /** A table cell: a value, or the missing value (NaN) of a record lacking a column its frame has. */
  datatype Cell = Value(v: Json) | Missing

  type Row = map<string, Cell>

  /** The position of the first dot in a column name. */
  function FirstDot(col: string): (i: nat)
    requires '.' in col
    ensures i < |col| && col[i] == '.'
    ensures '.' !in col[..i]
  {
    if col[0] == '.' then 0
    else
      assert col == [col[0]] + col[1..];
      var i := 1 + FirstDot(col[1..]);
      assert col[..i] == [col[0]] + col[1..][..i - 1];
      i
  }

  /** A dotted column name split into the nested object's key and the key inside it. */
  function SplitColumn(col: string): (r: Option<(string, string)>)
    ensures r.None? <==> '.' !in col
    ensures r.Some? ==> col == r.value.0 + "." + r.value.1 && '.' !in r.value.0
  {
    if '.' in col then
      var i := FirstDot(col);
      assert col == col[..i] + "." + col[i + 1..];
      Some((col[..i], col[i + 1..]))
    else None
  }

  /**
   * The value the column `col` holds once `json_normalize` has flattened a
   * record one level down: a nested object under `user` gives the columns
   * `user.name`, `user.screen_name`, ...; an object is no column itself.
   * None when the flattened record has no such column.
   */
  function ColumnOf(rec: Record, col: string): Option<Json>
  {
    if col in rec && !rec[col].JObject? then Some(rec[col])
    else
      match SplitColumn(col)
      case None => None
      case Some((parent, child)) =>
        if parent in rec && rec[parent].JObject? && child in rec[parent].fields
           && !rec[parent].fields[child].JObject?
        then Some(rec[parent].fields[child])
        else None
  }

  /** A column of the frame `json_normalize(records)`: some record has it. */
  predicate InFrame(records: seq<Record>, col: string)
  {
    exists i :: 0 <= i < |records| && ColumnOf(records[i], col).Some?
  }

  /** Whether `columns[i]` is the first of `columns` that the frame of `records` lacks. */
  predicate FirstAbsent(records: seq<Record>, columns: seq<string>, i: int)
  {
    0 <= i < |columns| && !InFrame(records, columns[i]) && forall j :: 0 <= j < i ==> InFrame(records, columns[j])
  }

  /** The first of `columns` the frame lacks, which the selection `[columns]` reports as a KeyError. */
  function MissingColumn(records: seq<Record>, columns: seq<string>): (r: Option<string>)
    ensures r.None? <==> forall c :: c in columns ==> InFrame(records, c)
    ensures r.Some? ==> r.value in columns && !InFrame(records, r.value)
    ensures r.Some? ==> exists i :: FirstAbsent(records, columns, i) && columns[i] == r.value
  {
    if columns == [] then None
    else if !InFrame(records, columns[0]) then
      assert FirstAbsent(records, columns, 0);
      Some(columns[0])
    else
      var rest := MissingColumn(records, columns[1..]);
      assert forall c :: c in columns ==> c == columns[0] || c in columns[1..];
      if rest.Some? then
        var i :| FirstAbsent(records, columns[1..], i) && columns[1..][i] == rest.value;
        assert FirstAbsent(records, columns, i + 1);
        rest
      else rest
  }

  /** One record's row of the selected frame: its value or NaN in each column. */
  function ProjectRow(rec: Record, columns: seq<string>): Row
  {
    map c | c in columns :: match ColumnOf(rec, c) case Some(v) => Value(v) case None => Missing
  }

  /** `pd.json_normalize(records)[columns]`. */
  function Project(records: seq<Record>, columns: seq<string>): Result<seq<Row>, Error>
  {
    match MissingColumn(records, columns)
    case Some(c) => Err(KeyError(c))
    case None => Ok(seq(|records|, i requires 0 <= i < |records| => ProjectRow(records[i], columns)))
  }

  /** `df['kind'] = [kind for i in range(df.shape[0])]`. */
  function Tag(rows: seq<Row>, kind: string): seq<Row>
  {
    seq(|rows|, i requires 0 <= i < |rows| => rows[i]["kind" := Value(JString(kind))])
  }

  /** The row a record becomes in the final table. */
  function TableRow(rec: Record, columns: seq<string>, kind: string): Row
  {
    ProjectRow(rec, columns)["kind" := Value(JString(kind))]
  }

  /** `Wrangler.__init__` up to the date parsing: the table `self.tweets`. */
  function Wrangle(tweets: seq<Record>, retweets: seq<Record>, quoted: seq<Record>, columns: seq<string>)
    : Result<seq<Row>, Error>
  {
    match Project(tweets, columns)
    case Err(e) => Err(e)
    case Ok(t) =>
      match Project(retweets, columns)
      case Err(e) => Err(e)
      case Ok(r) =>
        match Project(quoted, columns)
        case Err(e) => Err(e)
        case Ok(q) => Ok(Tag(t, "Tweet") + Tag(r, "Retweet") + Tag(q, "Quoted"))
  }

  /** Whether every one of `columns` is a column of all three frames. */
  predicate AllFramesHave(tweets: seq<Record>, retweets: seq<Record>, quoted: seq<Record>, columns: seq<string>)
  {
    forall c :: c in columns ==> InFrame(tweets, c) && InFrame(retweets, c) && InFrame(quoted, c)
  }

  /**
   * The table is built exactly when every column is found in all three
   * frames; otherwise a KeyError names a column one of the frames lacks.
   */
  lemma WrangleSucceedsIff(tweets: seq<Record>, retweets: seq<Record>, quoted: seq<Record>, columns: seq<string>)
    ensures Wrangle(tweets, retweets, quoted, columns).Ok? <==> AllFramesHave(tweets, retweets, quoted, columns)
    ensures Wrangle(tweets, retweets, quoted, columns).Err? ==>
      var e := Wrangle(tweets, retweets, quoted, columns).error;
      e.KeyError? && e.key in columns &&
      (!InFrame(tweets, e.key) || !InFrame(retweets, e.key) || !InFrame(quoted, e.key))
  {
  }

  /** An empty list has an empty frame, so it makes the selection of any column fail. */
  lemma EmptyListFails(tweets: seq<Record>, retweets: seq<Record>, quoted: seq<Record>, columns: seq<string>)
    requires columns != []
    requires tweets == [] || retweets == [] || quoted == []
    ensures Wrangle(tweets, retweets, quoted, columns).Err?
  {
    WrangleSucceedsIff(tweets, retweets, quoted, columns);
    assert columns[0] in columns;
  }

  /** The rows a list of records becomes in the table, one per record, in order. */
  function Rows(records: seq<Record>, columns: seq<string>, kind: string): seq<Row>
  {
    seq(|records|, i requires 0 <= i < |records| => TableRow(records[i], columns, kind))
  }

  /** Selecting the columns and then tagging gives each record's table row, in the records' order. */
  lemma TaggedFrame(records: seq<Record>, columns: seq<string>, kind: string)
    requires Project(records, columns).Ok?
    ensures Tag(Project(records, columns).value, kind) == Rows(records, columns, kind)
  {
  }

  /**
   * Block order: the table is the tweets' rows, then the retweets' rows,
   * then the quoted tweets' rows, each block in its list's order; so lists
   * of sizes a, b and c give a + b + c rows.
   */
  lemma WrangleBlocks(tweets: seq<Record>, retweets: seq<Record>, quoted: seq<Record>, columns: seq<string>)
    requires Wrangle(tweets, retweets, quoted, columns).Ok?
    ensures Wrangle(tweets, retweets, quoted, columns).value ==
      Rows(tweets, columns, "Tweet") + Rows(retweets, columns, "Retweet") + Rows(quoted, columns, "Quoted")
    ensures |Wrangle(tweets, retweets, quoted, columns).value| == |tweets| + |retweets| + |quoted|
  {
    TaggedFrame(tweets, columns, "Tweet");
    TaggedFrame(retweets, columns, "Retweet");
    TaggedFrame(quoted, columns, "Quoted");
  }

  /** Every row built from a list carries the list's kind. */
  lemma RowsKind(records: seq<Record>, columns: seq<string>, kind: string)
    ensures forall i :: 0 <= i < |records| ==>
      "kind" in Rows(records, columns, kind)[i] && Rows(records, columns, kind)[i]["kind"] == Value(JString(kind))
  {
  }

  /** The kind a row of the table is tagged with: "Tweet", "Retweet" and "Quoted" in three consecutive blocks. */
  lemma WrangleKinds(tweets: seq<Record>, retweets: seq<Record>, quoted: seq<Record>, columns: seq<string>)
    requires Wrangle(tweets, retweets, quoted, columns).Ok?
    ensures var table := Wrangle(tweets, retweets, quoted, columns).value;
      forall i :: 0 <= i < |table| ==>
        ("kind" in table[i] &&
         table[i]["kind"] == Value(JString(
           if i < |tweets| then "Tweet"
           else if i < |tweets| + |retweets| then "Retweet"
           else "Quoted")))
  {
    WrangleBlocks(tweets, retweets, quoted, columns);
    var t := Rows(tweets, columns, "Tweet");
    var r := Rows(retweets, columns, "Retweet");
    var q := Rows(quoted, columns, "Quoted");
    RowsKind(tweets, columns, "Tweet");
    RowsKind(retweets, columns, "Retweet");
    RowsKind(quoted, columns, "Quoted");
    KindsOfBlocks(t, r, q, "Tweet", "Retweet", "Quoted");
  }

  /** Whether every row of `rows` is tagged with `kind`. */
  predicate AllTagged(rows: seq<Row>, kind: string)
  {
    forall i :: 0 <= i < |rows| ==> "kind" in rows[i] && rows[i]["kind"] == Value(JString(kind))
  }

  /** Three blocks of uniformly tagged rows, concatenated, are tagged block by block. */
  lemma KindsOfBlocks(t: seq<Row>, r: seq<Row>, q: seq<Row>, a: string, b: string, c: string)
    requires AllTagged(t, a) && AllTagged(r, b) && AllTagged(q, c)
    ensures forall i :: 0 <= i < |t + r + q| ==>
      ("kind" in (t + r + q)[i] &&
       (t + r + q)[i]["kind"] == Value(JString(if i < |t| then a else if i < |t| + |r| then b else c)))
  {
    var table := t + r + q;
    forall i | 0 <= i < |table|
      ensures "kind" in table[i] && table[i]["kind"] == Value(JString(if i < |t| then a else if i < |t| + |r| then b else c))
    {
      if i < |t| {
        assert table[i] == t[i];
      } else if i < |t| + |r| {
        assert table[i] == r[i - |t|];
      } else {
        assert table[i] == q[i - |t| - |r|];
      }
    }
  }

  /**
   * Every row has exactly the selected columns plus `kind`, and each selected
   * column holds the flattened record's value, or NaN where that record lacks it.
   */
  lemma TableRowShape(rec: Record, columns: seq<string>, kind: string)
    ensures TableRow(rec, columns, kind).Keys == KeySet(columns) + {"kind"}
    ensures forall c :: c in columns && c != "kind" ==>
      TableRow(rec, columns, kind)[c] == (if ColumnOf(rec, c).Some? then Value(ColumnOf(rec, c).value) else Missing)
  {
  }

  /** A nested field named with a dot is read from inside the nested object of the record. */
  lemma DottedColumnReadsNested(rec: Record, parent: string, child: string)
    requires '.' !in parent
    requires parent + "." + child !in rec
    requires parent in rec && rec[parent].JObject?
    requires child in rec[parent].fields && !rec[parent].fields[child].JObject?
    ensures ColumnOf(rec, parent + "." + child) == Some(rec[parent].fields[child])
  {
    var col := parent + "." + child;
    assert col[|parent|] == '.';
    assert col[..|parent|] == parent;
    var i := FirstDot(col);
    assert col[i + 1..] == child;
  }
}
