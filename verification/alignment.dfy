/** Alignment of the input record with the classifier's column list
    (app2.py:160-164): every listed column the record lacks is added with
    value 0, then the columns are selected in list order, which drops every
    record key the list does not name. */
module Alignment {
  import opened Encoding

  /** The column names of a schema, as a set. */
  function Columns(schema: seq<string>): set<string> {
    set c | c in schema
  }

  ghost predicate Distinct(schema: seq<string>) {
    forall i, j :: 0 <= i < j < |schema| ==> schema[i] != schema[j]
  }

  /** What the aligned row holds in a column named `col`. */
  function Cell(r: Record, col: string): Value {
    if col in r then r[col] else Zero
  }

  /** The aligned row: position `i` holds the record's value for the `i`-th
      schema column, or 0 when the record has no such key. */
  function Reindex(r: Record, schema: seq<string>): (row: seq<Value>)
    ensures |row| == |schema|
    ensures forall i :: 0 <= i < |schema| && schema[i] in r ==> row[i] == r[schema[i]]
    ensures forall i :: 0 <= i < |schema| && schema[i] !in r ==> row[i] == Zero
  {
    if schema == [] then [] else [Cell(r, schema[0])] + Reindex(r, schema[1..])
  }

  /** The fill loop of app2.py:160-162: the frame gains every missing schema
      column, with value 0, and keeps every column it had. */
  method FillMissing(r: Record, schema: seq<string>) returns (frame: Record)
    ensures frame.Keys == r.Keys + Columns(schema)
    ensures forall k :: k in r ==> frame[k] == r[k]
    ensures forall k :: k in frame && k !in r ==> frame[k] == Zero
  {
    frame := r;
    var i := 0;
    while i < |schema|
      invariant 0 <= i <= |schema|
      invariant frame.Keys == r.Keys + Columns(schema[..i])
      invariant forall k :: k in r ==> frame[k] == r[k]
      invariant forall k :: k in frame && k !in r ==> frame[k] == Zero
    {
      assert schema[..i + 1] == schema[..i] + [schema[i]];
      assert Columns(schema[..i + 1]) == Columns(schema[..i]) + {schema[i]};
      if schema[i] !in frame {
        frame := frame[schema[i] := Zero];
      }
      i := i + 1;
    }
    assert schema[..i] == schema;
  }

  /** Column selection `frame[schema]` on a frame that has every schema
      column. */
  function Select(frame: Record, schema: seq<string>): (row: seq<Value>)
    requires Columns(schema) <= frame.Keys
    ensures |row| == |schema|
    ensures forall i :: 0 <= i < |schema| ==> row[i] == frame[schema[i]]
  {
    seq(|schema|, i requires 0 <= i < |schema| => frame[schema[i]])
  }

  /** app2.py:160-164 as written: fill, then select. The result is the
      reindexed row. */
  method Align(r: Record, schema: seq<string>) returns (row: seq<Value>)
    ensures row == Reindex(r, schema)
  {
    var frame := FillMissing(r, schema);
    row := Select(frame, schema);
  }

  /** The aligned row seen as a record keyed by the (distinct) schema
      columns, the shape of the frame handed to the scaler. */
  function RowRecord(schema: seq<string>, row: seq<Value>): (aligned: Record)
    requires |row| == |schema| && Distinct(schema)
    ensures aligned.Keys == Columns(schema)
    ensures forall i :: 0 <= i < |schema| ==> aligned[schema[i]] == row[i]
  {
    map i | 0 <= i < |schema| :: schema[i] := row[i]
  }

  /** The aligned record has exactly the schema's columns: keys outside the
      schema are dropped, present ones keep their value, missing ones are 0. */
  lemma AlignedRecordColumns(r: Record, schema: seq<string>)
    requires Distinct(schema)
    ensures var aligned := RowRecord(schema, Reindex(r, schema));
      && aligned.Keys == Columns(schema)
      && (forall k :: k in r && k !in Columns(schema) ==> k !in aligned)
      && (forall k :: k in aligned && k in r ==> aligned[k] == r[k])
      && (forall k :: k in aligned && k !in r ==> aligned[k] == Zero)
  {
    var aligned := RowRecord(schema, Reindex(r, schema));
    forall k | k in aligned
      ensures aligned[k] == Cell(r, k)
    {
      var i :| 0 <= i < |schema| && schema[i] == k;
    }
  }

  /** The row depends only on the record's values for the schema columns:
      any key outside the schema may be added or removed. */
  lemma {:induction false} ReindexIgnoresOtherKeys(r1: Record, r2: Record, schema: seq<string>)
    requires forall c :: c in schema ==> Cell(r1, c) == Cell(r2, c)
    ensures Reindex(r1, schema) == Reindex(r2, schema)
  {
    if schema != [] {
      ReindexIgnoresOtherKeys(r1, r2, schema[1..]);
    }
  }

  /** Aligning an already aligned record against the same schema gives it
      back unchanged. */
  lemma ReindexIdempotent(r: Record, schema: seq<string>)
    requires Distinct(schema)
    ensures Reindex(RowRecord(schema, Reindex(r, schema)), schema) == Reindex(r, schema)
  {
    AlignedRecordColumns(r, schema);
  }
}
