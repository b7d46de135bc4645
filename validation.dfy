/**
 * Input checks of the newer package (`pypostester.utils.validation`): the required
 * columns of a close or position frame, sorting by `time`, and the equality of the
 * timestamp sets of the two frames.
 *
 * A frame is modelled row by row: its column names, and for each row its `time` stamp
 * (integer seconds) and its other fields. Converting a pandas frame is not modelled.
 */
module Validation {
  import opened Outcomes
  import opened PyDict
  import opened Sorting
  import PyValues

  datatype Row = Row(time: int, fields: map<string, real>)

  datatype InputFrame = InputFrame(columns: seq<string>, rows: seq<Row>)

  /** Why a `ValidationError` was raised. */
  datatype Reason =
    | UnknownDataType(dataType: string)
    | MissingColumns(missing: seq<string>)
    | Misaligned

  /** A `ValidationError`, or another exception that escapes unconverted. */
  datatype Failure = Invalid(reason: Reason) | Raised(fault: PyValues.Fault)

  /** The `REQUIRED_COLUMNS` table. */
  const RequiredColumns: map<string, seq<string>> :=
    map["close" := ["time", "close"], "position" := ["time", "position"]]

  function TimeKey(r: Row): int {
    r.time
  }

  /** The required columns the frame lacks, in the order they are required. */
  function Missing(required: seq<string>, columns: seq<string>): (m: seq<string>)
    ensures forall c :: c in m <==> c in required && c !in columns
    ensures |m| <= |required|
  {
    if |required| == 0 then []
    else (if required[0] in columns then [] else [required[0]]) + Missing(required[1..], columns)
  }

  /** `validate_and_convert_input`: the frame must carry the columns its data type
      requires; it is then returned sorted by `time`. Every failure inside, including
      an unknown data type, surfaces as a `ValidationError`. */
  function ValidateAndConvertInput(df: InputFrame, dataType: string): (r: Result<InputFrame, Failure>)
    ensures r.Ok? <==> dataType in RequiredColumns && Missing(RequiredColumns[dataType], df.columns) == []
    ensures r.Err? ==> r.error.Invalid?
    ensures dataType !in RequiredColumns ==> r == Err(Invalid(UnknownDataType(dataType)))
    ensures dataType in RequiredColumns && Missing(RequiredColumns[dataType], df.columns) != [] ==>
      r == Err(Invalid(MissingColumns(Missing(RequiredColumns[dataType], df.columns))))
    ensures r.Ok? ==> r.value.columns == df.columns
    ensures r.Ok? ==> SortedBy(r.value.rows, TimeKey)
    ensures r.Ok? ==> multiset(r.value.rows) == multiset(df.rows)
    ensures r.Ok? ==> r.value.rows == SortBy(df.rows, TimeKey)
    ensures r.Ok? && SortedBy(df.rows, TimeKey) ==> r.value == df
  {
    if dataType !in RequiredColumns then Err(Invalid(UnknownDataType(dataType)))
    else
      var missing := Missing(RequiredColumns[dataType], df.columns);
      if missing != [] then Err(Invalid(MissingColumns(missing)))
      else if IsSortedBy(df.rows, TimeKey) then
        SortBySortedIsIdentity(df.rows, TimeKey);
        Ok(df)
      else Ok(InputFrame(df.columns, SortBy(df.rows, TimeKey)))
  }

  /** `set(df["time"])`. */
  function TimeSet(rows: seq<Row>): set<int> {
    set r | r in rows :: r.time
  }

  /** `validate_time_alignment`: the two frames must carry the same set of timestamps;
      how often each appears does not matter. A frame without a `time` column makes
      polars raise its own error, which is not converted. */
  function ValidateTimeAlignment(close: InputFrame, position: InputFrame): (r: Result<(), Failure>)
    ensures "time" in close.columns && "time" in position.columns ==>
      (r.Ok? <==> TimeSet(close.rows) == TimeSet(position.rows))
    ensures r.Err? && r.error.Invalid? ==> r.error.reason == Misaligned
    ensures "time" !in close.columns || "time" !in position.columns ==>
      r == Err(Raised(PyValues.ColumnNotFound("time")))
  {
    if "time" !in close.columns || "time" !in position.columns then
      Err(Raised(PyValues.ColumnNotFound("time")))
    else if TimeSet(close.rows) != TimeSet(position.rows) then Err(Invalid(Misaligned))
    else Ok(())
  }

  /** A close frame holding only a `time` column is rejected for its missing `close` column. */
  lemma CloseColumnRequired(rows: seq<Row>)
    ensures ValidateAndConvertInput(InputFrame(["time"], rows), "close")
      == Err(Invalid(MissingColumns(["close"])))
  {
    var required: seq<string> := ["time", "close"];
    assert "close" in RequiredColumns && RequiredColumns["close"] == required;
    assert required[1..] == ["close"];
    assert "close" !in ["time"];
    assert Missing(["close"], ["time"]) == ["close"] + Missing([], ["time"]);
    assert Missing(required, ["time"]) == [] + Missing(["close"], ["time"]);
    assert Missing(required, ["time"]) == ["close"];
    var df := InputFrame(["time"], rows);
    assert Missing(RequiredColumns["close"], df.columns) == ["close"];
  }

  /** Duplicate timestamps do not matter to alignment; only the set of stamps does. */
  lemma DuplicatesIgnored(close: InputFrame, position: InputFrame, k: nat)
    requires "time" in close.columns && "time" in position.columns
    requires k < |position.rows|
    requires ValidateTimeAlignment(close, position).Ok?
    ensures ValidateTimeAlignment(close, InputFrame(position.columns, position.rows + [position.rows[k]])).Ok?
  {
    var more := position.rows + [position.rows[k]];
    assert TimeSet(more) == TimeSet(position.rows) by {
      assert forall row :: row in more ==> row in position.rows;
    }
  }

  /** Dropping the last row of a position frame whose timestamps are all distinct
      leaves the frames misaligned. */
  lemma DroppingLastRowMisaligns(close: InputFrame, position: InputFrame)
    requires "time" in close.columns && "time" in position.columns
    requires |position.rows| > 0 && close.rows == position.rows
    requires forall i, j :: 0 <= i < j < |position.rows| ==> position.rows[i].time != position.rows[j].time
    ensures ValidateTimeAlignment(close, InputFrame(position.columns, position.rows[..|position.rows| - 1]))
      == Err(Invalid(Misaligned))
  {
    var n := |position.rows|;
    var last := position.rows[n - 1];
    var shorter := position.rows[..n - 1];
    assert last.time in TimeSet(close.rows);
    assert last.time !in TimeSet(shorter);
  }
}
