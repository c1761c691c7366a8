/**
 * `populateTable`: the first ten records of the selected store array become an
 * HTML table whose headers are the first record's keys (first `_` turned into
 * a space, then upper-cased) and whose cells are the records' values, with
 * null/undefined shown as `-` and strings over 50 characters cut to 50 plus `...`.
 */
module Table {
  import opened JsBuiltins
  import opened Records

  /** The JavaScript values a record field holds. */
  datatype Value = Null | Undefined | Str(s: string) | Num(n: real)

  /** A JavaScript object literal: its keys in insertion order, with their values. */
  type Record = seq<(string, Value)>

  const MaxRows: nat := 10
  const MaxCellLength: nat := 50
  const Ellipsis: string := "..."
  const Placeholder: string := "-"

  /** `Object.keys(record)`. */
  function Keys(r: Record): seq<string> {
    seq(|r|, i requires 0 <= i < |r| => r[i].0)
  }

  /** `record[key]`: the value stored under `key`, or `undefined`. */
  function Lookup(r: Record, key: string): Value {
    if r == [] then Undefined else if r[0].0 == key then r[0].1 else Lookup(r[1..], key)
  }

  lemma {:induction false} LookupFinds(r: Record, i: nat)
    requires i < |r| && forall k :: 0 <= k < i ==> r[k].0 != r[i].0
    ensures Lookup(r, r[i].0) == r[i].1
  {
    if i > 0 {
      assert r[0].0 != r[i].0;
      LookupFinds(r[1..], i - 1);
    }
  }

  lemma {:induction false} LookupMissing(r: Record, key: string)
    requires key !in Keys(r)
    ensures Lookup(r, key) == Undefined
  {
    if r != [] {
      assert Keys(r)[0] == r[0].0;
      assert Keys(r[1..]) == Keys(r)[1..];
      LookupMissing(r[1..], key);
    }
  }

  function Min(a: nat, b: nat): nat {
    if a <= b then a else b
  }

  /** The per-cell rule: null/undefined shown as `-`, long strings truncated, everything else unchanged. */
  function FormatCell(v: Value): (r: Value)
    ensures r.Str? || r.Num?
    ensures (v.Null? || v.Undefined?) ==> r == Str(Placeholder)
    ensures v.Str? ==> r.Str? && Min(|v.s|, MaxCellLength) <= |r.s| <= MaxCellLength + |Ellipsis|
    ensures v.Str? ==> r.s[..Min(|v.s|, MaxCellLength)] == v.s[..Min(|v.s|, MaxCellLength)]
    ensures v.Str? && |v.s| > MaxCellLength ==> r.s == v.s[..MaxCellLength] + Ellipsis
    ensures v.Num? || (v.Str? && |v.s| <= MaxCellLength) ==> r == v
  {
    match v
    case Null => Str(Placeholder)
    case Undefined => Str(Placeholder)
    case Str(s) => if |s| > MaxCellLength then Str(s[..MaxCellLength] + Ellipsis) else v
    case Num(_) => v
  }

  /** `header.replace('_', ' ').toUpperCase()`. */
  function HeaderText(key: string): string {
    ToUpper(ReplaceFirst(key, '_', ' '))
  }

  /** Each header character is the key's, upper-cased, except that the first `_` alone becomes a space. */
  lemma HeaderTextSpec(key: string)
    ensures |HeaderText(key)| == |key|
    ensures forall i :: 0 <= i < |key| ==>
      HeaderText(key)[i] == if key[i] == '_' && '_' !in key[..i] then ' ' else UpperChar(key[i])
  {
    ReplaceFirstSpec(key, '_', ' ');
  }

  /** What `${value}` shows; numbers are rendered by `numberText`. */
  function DisplayText(v: Value, numberText: real -> string): string {
    match v
    case Null => "null"
    case Undefined => "undefined"
    case Str(s) => s
    case Num(n) => numberText(n)
  }

  function CellText(v: Value, numberText: real -> string): string {
    DisplayText(FormatCell(v), numberText)
  }

  /** The table as shown: header texts and, per record, one cell text per header. */
  datatype TableView = TableView(headers: seq<string>, cells: seq<seq<string>>)

  function HeaderTexts(keys: seq<string>): seq<string> {
    seq(|keys|, j requires 0 <= j < |keys| => HeaderText(keys[j]))
  }

  function RowTexts(row: Record, keys: seq<string>, numberText: real -> string): seq<string> {
    seq(|keys|, j requires 0 <= j < |keys| => CellText(Lookup(row, keys[j]), numberText))
  }

  function View(data: seq<Record>, numberText: real -> string): TableView
    requires |data| > 0
  {
    var keys := Keys(data[0]);
    TableView(HeaderTexts(keys), seq(|data|, i requires 0 <= i < |data| => RowTexts(data[i], keys, numberText)))
  }

  /** The view has one header per key of the first record and one cell per header in every row. */
  lemma ViewShape(data: seq<Record>, numberText: real -> string)
    requires |data| > 0
    ensures var v := View(data, numberText);
      && |v.headers| == |data[0]| && |v.cells| == |data|
      && (forall i :: 0 <= i < |data| ==> |v.cells[i]| == |v.headers|)
      && (forall j :: 0 <= j < |data[0]| ==> v.headers[j] == HeaderText(data[0][j].0))
      && (forall i, j :: 0 <= i < |data| && 0 <= j < |data[0]| ==>
            var x := Lookup(data[i], data[0][j].0);
            (x.Null? || x.Undefined? ==> v.cells[i][j] == Placeholder)
            && (x.Str? ==> |v.cells[i][j]| <= MaxCellLength + |Ellipsis|))
  {
  }

  function HeaderCells(hs: seq<string>): string {
    if hs == [] then "" else HeaderCells(hs[..|hs| - 1]) + "<th>" + hs[|hs| - 1] + "</th>"
  }

  function RowCells(cs: seq<string>): string {
    if cs == [] then "" else RowCells(cs[..|cs| - 1]) + "<td>" + cs[|cs| - 1] + "</td>"
  }

  function BodyRows(rows: seq<seq<string>>): string {
    if rows == [] then "" else BodyRows(rows[..|rows| - 1]) + "<tr>" + RowCells(rows[|rows| - 1]) + "</tr>"
  }

  function Html(v: TableView): string {
    "<thead><tr>" + HeaderCells(v.headers) + "</tr></thead><tbody>" + BodyRows(v.cells) + "</tbody>"
  }

  /** The header loop: one `<th>` per key. */
  method HeaderHtml(keys: seq<string>) returns (html: string)
    ensures html == HeaderCells(HeaderTexts(keys))
  {
    ghost var texts := HeaderTexts(keys);
    html := "";
    var j := 0;
    while j < |keys|
      invariant 0 <= j <= |keys|
      invariant html == HeaderCells(texts[..j])
    {
      assert texts[..j + 1][..j] == texts[..j];
      html := html + "<th>" + HeaderText(keys[j]) + "</th>";
      j := j + 1;
    }
    assert texts[..j] == texts;
  }

  /** The cell loop for one record: one `<td>` per header key. */
  method RowHtml(row: Record, keys: seq<string>, numberText: real -> string) returns (html: string)
    ensures html == RowCells(RowTexts(row, keys, numberText))
  {
    ghost var texts := RowTexts(row, keys, numberText);
    html := "";
    var j := 0;
    while j < |keys|
      invariant 0 <= j <= |keys|
      invariant html == RowCells(texts[..j])
    {
      assert texts[..j + 1][..j] == texts[..j];
      var value := FormatCell(Lookup(row, keys[j]));
      html := html + "<td>" + DisplayText(value, numberText) + "</td>";
      j := j + 1;
    }
    assert texts[..j] == texts;
  }

  /** The `tableHTML +=` loops of `populateTable`. */
  method BuildHtml(data: seq<Record>, numberText: real -> string) returns (html: string)
    requires |data| > 0
    ensures html == Html(View(data, numberText))
  {
    ghost var view := View(data, numberText);
    var keys := Keys(data[0]);
    var headerHtml := HeaderHtml(keys);
    var body := "";
    var i := 0;
    while i < |data|
      invariant 0 <= i <= |data|
      invariant body == BodyRows(view.cells[..i])
    {
      assert view.cells[..i + 1][..i] == view.cells[..i];
      var rowHtml := RowHtml(data[i], keys, numberText);
      body := body + "<tr>" + rowHtml + "</tr>";
      i := i + 1;
    }
    assert view.cells[..i] == view.cells;
    html := "<thead><tr>" + headerHtml + "</tr></thead><tbody>" + body + "</tbody>";
  }

  function NullableText(v: Option<string>): Value {
    match v
    case None => Null
    case Some(s) => Str(s)
  }

  function NullableNumber(v: Option<real>): Value {
    match v
    case None => Null
    case Some(n) => Num(n)
  }

  /** A session object as the generator builds it, keys in literal order. */
  function SessionRecord(s: Session): Record {
    [("session_id", Str(s.sessionId)),
     ("user_id", Str(s.userId)),
     ("device_type", Str(s.deviceType)),
     ("session_start_time", Str(s.sessionStartTime)),
     ("referrer_url", Str(s.referrerUrl)),
     ("is_activated", Num(s.isActivated as real)),
     ("source", Str(s.source)),
     ("campaign_id", NullableText(s.campaignId))]
  }

  function SpendRecord(r: SpendRow): Record {
    [("date", Str(r.date)),
     ("source", Str(r.source)),
     ("campaign_id", Str(r.campaignId)),
     ("campaign_name", Str(r.campaignName)),
     ("adset_id", Str(r.adsetId)),
     ("adset_name", Str(r.adsetName)),
     ("ad_id", Str(r.adId)),
     ("ad_name", Str(r.adName)),
     ("spend", Num(r.spend))]
  }

  function AttributionRecord(r: AttributionRow): Record {
    [("user_id", Str(r.userId)),
     ("activation_session_start_time", Str(r.activationSessionStartTime)),
     ("first_touch_attribution_source", Str(r.firstTouchAttributionSource)),
     ("first_touch_campaign_id", NullableText(r.firstTouchCampaignId)),
     ("last_touch_attribution_source", Str(r.lastTouchAttributionSource)),
     ("last_touch_campaign_id", NullableText(r.lastTouchCampaignId)),
     ("cost_per_activation", NullableNumber(r.costPerActivation))]
  }

  /**
   * The `switch (tableName)` of `populateTable`: the first ten records of the named
   * array, or nothing (`data` left undefined) for any other name.
   */
  function TableData(tableName: string, sessions: seq<Session>, spend: seq<SpendRow>,
                     results: seq<AttributionRow>): Option<seq<Record>>
  {
    if tableName == "sessions" then
      var shown := Take(sessions, MaxRows);
      Some(seq(|shown|, i requires 0 <= i < |shown| => SessionRecord(shown[i])))
    else if tableName == "campaign_spend" then
      var shown := Take(spend, MaxRows);
      Some(seq(|shown|, i requires 0 <= i < |shown| => SpendRecord(shown[i])))
    else if tableName == "attribution_results" then
      var shown := Take(results, MaxRows);
      Some(seq(|shown|, i requires 0 <= i < |shown| => AttributionRecord(shown[i])))
    else
      None
  }

  /**
   * At most ten rows are selected, they are the first records of the named array in
   * order, and only the three known table names select anything.
   */
  lemma TableDataFirstTen(tableName: string, sessions: seq<Session>, spend: seq<SpendRow>,
                          results: seq<AttributionRow>)
    ensures var d := TableData(tableName, sessions, spend, results);
      && (d.Some? <==> tableName in ["sessions", "campaign_spend", "attribution_results"])
      && (d.Some? ==> |d.value| <= MaxRows)
      && (tableName == "sessions" ==>
            |d.value| == Min(|sessions|, MaxRows)
            && forall i :: 0 <= i < |d.value| ==> d.value[i] == SessionRecord(sessions[i]))
      && (tableName == "campaign_spend" ==>
            |d.value| == Min(|spend|, MaxRows)
            && forall i :: 0 <= i < |d.value| ==> d.value[i] == SpendRecord(spend[i]))
      && (tableName == "attribution_results" ==>
            |d.value| == Min(|results|, MaxRows)
            && forall i :: 0 <= i < |d.value| ==> d.value[i] == AttributionRecord(results[i]))
  {
  }

  /** A key whose first `_` follows `head` heads its column as `HEAD TAIL`, upper-cased, with the rest of its underscores kept. */
  lemma HeaderAtFirstUnderscore(head: string, tail: string)
    requires '_' !in head
    ensures HeaderText(head + ['_'] + tail) == ToUpper(head) + [' '] + ToUpper(tail)
  {
    ReplaceFirstAfterPrefix(head, tail, '_', ' ');
    ToUpperAppend(head + [' '], tail);
    ToUpperAppend(head, [' ']);
  }

  /** Only the first underscore of a key becomes a space: `session_start_time` heads its column as `SESSION START_TIME`. */
  lemma SessionStartTimeHeader(key: string)
    requires key == "session_start_time"
    ensures HeaderText(key) == "SESSION START_TIME"
  {
    assert key == "session" + ['_'] + "start_time";
    HeaderAtFirstUnderscore("session", "start_time");
    assert ToUpper("session") == "SESSION";
    assert ToUpper("start_time") == "START_TIME";
  }
}
