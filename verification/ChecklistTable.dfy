// From a rectangular table with a header row to records by column name.
module ChecklistTable {
  import opened Wrappers
  import opened PyStrings

  datatype Rejected = Rejected

  type Record = map<string, string>

  function StripAll(cells: seq<string>): seq<string> {
    seq(|cells|, i requires 0 <= i < |cells| => Strip(cells[i]))
  }

  predicate Blank(values: seq<string>) {
    forall i :: 0 <= i < |values| ==> Strip(values[i]) == ""
  }

  function Members(items: seq<string>): set<string> { set x | x in items }

  predicate HeadersOk(headers: seq<string>, expected: set<string>) {
    NoRepeats(headers) && Members(headers) == expected
  }

  predicate RowOk(headers: seq<string>, values: seq<string>) {
    !Blank(values) && |values| == |headers|
  }

  predicate Accepted(table: seq<seq<string>>, expected: set<string>) {
    && table != [] && HeadersOk(StripAll(table[0]), expected)
    && forall i :: 1 <= i < |table| ==> RowOk(StripAll(table[0]), table[i])
  }

  /** `dict(zip(headers, values))`. */
  function Zip(headers: seq<string>, values: seq<string>): Record
    requires |headers| == |values|
  {
    if headers == [] then map[]
    else
      var n := |headers| - 1;
      Zip(headers[..n], values[..n])[headers[n] := values[n]]
  }

  /** `_table_to_records`: a refusal, or one record for each data row in order. */
  method TableToRecords(table: seq<seq<string>>, expected: set<string>) returns (r: Result<seq<Record>, Rejected>)
    requires table != []
    ensures r.Ok? <==> Accepted(table, expected)
    ensures r.Ok? ==> |r.value| == |table| - 1
    ensures r.Ok? ==> forall i :: 1 <= i < |table| ==>
              |table[i]| == |table[0]| && r.value[i - 1] == Zip(StripAll(table[0]), table[i])
  {
    hide Zip, Blank;
    var headers := StripAll(table[0]);
    if !NoRepeats(headers) || Members(headers) != expected {
      return Err(Rejected);
    }
    var records: seq<Record> := [];
    for i := 1 to |table|
      invariant |records| == i - 1
      invariant forall k :: 1 <= k < i ==> RowOk(headers, table[k]) && records[k - 1] == Zip(headers, table[k])
    {
      if Blank(table[i]) || |table[i]| != |headers| {
        return Err(Rejected);
      }
      records := records + [Zip(headers, table[i])];
    }
    return Ok(records);
  }

  // ---------------------------------------------------------------- column order

  /** The record maps each header to the value in its column. */
  ghost predicate Maps(record: Record, headers: seq<string>, values: seq<string>)
    requires |headers| == |values|
  {
    forall i :: 0 <= i < |headers| ==> headers[i] in record && record[headers[i]] == values[i]
  }

  lemma MapsSnoc(record: Record, headers: seq<string>, values: seq<string>)
    requires headers != [] && |headers| == |values| && NoRepeats(headers)
    requires Maps(record, headers[..|headers| - 1], values[..|headers| - 1])
    ensures Maps(record[headers[|headers| - 1] := values[|headers| - 1]], headers, values)
  {
    var n := |headers| - 1;
    forall i | 0 <= i < n ensures headers[i] in record && record[headers[i]] == values[i] && headers[i] != headers[n] {
      assert headers[..n][i] == headers[i] && values[..n][i] == values[i];
    }
  }

  /** With distinct headers the record maps each header to the value in its column, and holds nothing else. */
  lemma {:induction false} ZipColumns(headers: seq<string>, values: seq<string>)
    requires |headers| == |values| && NoRepeats(headers)
    ensures Zip(headers, values).Keys == Members(headers)
    ensures Maps(Zip(headers, values), headers, values)
  {
    hide Maps, NoRepeats, Members;
    if headers == [] {
      assert Maps(map[], [], []) && Members([]) == {} by { NoColumns(); }
    } else {
      var n := |headers| - 1;
      HeadersSnoc(headers);
      ZipColumns(headers[..n], values[..n]);
      MapsSnoc(Zip(headers[..n], values[..n]), headers, values);
    }
  }

  lemma HeadersSnoc(headers: seq<string>)
    requires headers != []
    ensures NoRepeats(headers) ==> NoRepeats(headers[..|headers| - 1])
    ensures Members(headers) == Members(headers[..|headers| - 1]) + {headers[|headers| - 1]}
  {
    assert headers == headers[..|headers| - 1] + [headers[|headers| - 1]];
  }

  lemma NoColumns()
    ensures Maps(map[], [], []) && Members([]) == {}
  {
  }

  /** A rearrangement of `n` columns. */
  ghost predicate Rearrangement(order: seq<nat>, n: nat) {
    && |order| == n
    && (forall i :: 0 <= i < n ==> order[i] < n)
    && (forall i, j :: 0 <= i < j < n ==> order[i] != order[j])
    && forall k :: 0 <= k < n ==> k in order
  }

  function Rearrange(row: seq<string>, order: seq<nat>): seq<string>
    requires forall i :: 0 <= i < |order| ==> order[i] < |row|
  {
    seq(|order|, i requires 0 <= i < |order| => row[order[i]])
  }

  lemma RearrangedMembers(row: seq<string>, order: seq<nat>)
    requires Rearrangement(order, |row|)
    ensures Members(Rearrange(row, order)) == Members(row)
    ensures NoRepeats(row) ==> NoRepeats(Rearrange(row, order))
  {
    var moved := Rearrange(row, order);
    forall x | x in row ensures x in moved {
      var k :| 0 <= k < |row| && row[k] == x;
      assert k in order;
      var i :| 0 <= i < |order| && order[i] == k;
      assert moved[i] == x;
    }
    if NoRepeats(row) {
      forall i, j | 0 <= i < j < |moved| ensures moved[i] != moved[j] {
        assert order[i] != order[j];
        if order[i] < order[j] {
          assert row[order[i]] != row[order[j]];
        } else {
          assert row[order[j]] != row[order[i]];
        }
      }
    }
  }

  /** Moving the columns of a table about, header and data alike, leaves every record as it was. */
  lemma ColumnOrderIrrelevant(headers: seq<string>, values: seq<string>, order: seq<nat>)
    requires |headers| == |values| && NoRepeats(headers) && Rearrangement(order, |headers|)
    ensures Zip(Rearrange(headers, order), Rearrange(values, order)) == Zip(headers, values)
  {
    hide Zip;
    var movedHeaders, movedValues := Rearrange(headers, order), Rearrange(values, order);
    RearrangedMembers(headers, order);
    ZipColumns(headers, values);
    ZipColumns(movedHeaders, movedValues);
    SameRecord(Zip(headers, values), Zip(movedHeaders, movedValues), headers, values, order);
  }

  lemma SameRecord(record: Record, moved: Record, headers: seq<string>, values: seq<string>, order: seq<nat>)
    requires |headers| == |values| && Rearrangement(order, |headers|)
    requires record.Keys == moved.Keys == Members(headers)
    requires Maps(record, headers, values) && Maps(moved, Rearrange(headers, order), Rearrange(values, order))
    ensures record == moved
  {
    hide NoRepeats;
    forall key | key in record ensures moved[key] == record[key] {
      var k :| 0 <= k < |headers| && headers[k] == key;
      assert k in order;
      var i :| 0 <= i < |order| && order[i] == k;
      assert Rearrange(headers, order)[i] == key;
    }
  }
}
