/** The JSON values that `to_json` builds as Python dictionaries and lists, and the conversion
    of matrices to and from nested lists (numpy's `tolist`). */
module Json {
  import opened Failures
  import opened Matrices

  /** A JSON document. Integers and floating-point numbers are kept apart, as Python's `json`
      module keeps `int` and `float` apart. */
  datatype Json =
    | JNull
    | JBool(flag: bool)
    | JInt(whole: int)
    | JNum(num: real)
    | JStr(str: string)
    | JArr(items: seq<Json>)
    | JObj(fields: map<string, Json>)

  /** A row of reals as a list of numbers. */
  function RowToJson(v: seq<real>): (j: Json)
    ensures j.JArr? && |j.items| == |v|
    ensures forall k :: 0 <= k < |v| ==> j.items[k] == JNum(v[k])
  {
    JArr(seq(|v|, k requires 0 <= k < |v| => JNum(v[k])))
  }

  /** A list of `cols` numbers read back as a row; anything else is malformed. */
  function RowFromJson(j: Json, cols: nat): (r: Result<seq<real>>)
    ensures r.Ok? <==> j.JArr? && |j.items| == cols && forall k :: 0 <= k < cols ==> j.items[k].JNum?
    ensures r.Ok? ==> |r.value| == cols && forall k :: 0 <= k < cols ==> r.value[k] == j.items[k].num
    ensures r.Err? ==> r.error == MalformedJson
  {
    if j.JArr? && |j.items| == cols && forall k :: 0 <= k < cols ==> j.items[k].JNum? then
      Ok(seq(cols, k requires 0 <= k < cols => j.items[k].num))
    else
      Err(MalformedJson)
  }

  /** `tolist()`: a matrix as a list of its rows. */
  function MatrixToJson(m: Matrix): (j: Json)
    requires m.Valid()
    ensures j.JArr? && |j.items| == m.rows
    ensures forall i :: 0 <= i < m.rows ==> j.items[i] == RowToJson(m.at[i])
  {
    JArr(seq(m.rows, i requires 0 <= i < m.rows => RowToJson(m.at[i])))
  }

  /** A list of rows of `cols` numbers each, read back as a matrix. The column count is passed
      in because a list with no rows does not record it. */
  function MatrixFromJson(j: Json, cols: nat): (r: Result<Matrix>)
    ensures r.Ok? <==> j.JArr? && forall i :: 0 <= i < |j.items| ==> RowFromJson(j.items[i], cols).Ok?
    ensures r.Ok? ==> r.value.Valid() && r.value.rows == |j.items| && r.value.cols == cols
    ensures r.Ok? ==> forall i :: 0 <= i < |j.items| ==> r.value.at[i] == RowFromJson(j.items[i], cols).value
    ensures r.Err? ==> r.error == MalformedJson
  {
    if j.JArr? && forall i :: 0 <= i < |j.items| ==> RowFromJson(j.items[i], cols).Ok? then
      Ok(Matrix(|j.items|, cols,
        seq(|j.items|, i requires 0 <= i < |j.items| => RowFromJson(j.items[i], cols).value)))
    else
      Err(MalformedJson)
  }

  /** Reading back a written matrix, given its column count, restores it exactly. */
  lemma MatrixRoundTrip(m: Matrix)
    requires m.Valid()
    ensures MatrixFromJson(MatrixToJson(m), m.cols) == Ok(m)
  {
    var j := MatrixToJson(m);
    forall i | 0 <= i < m.rows
      ensures RowFromJson(j.items[i], m.cols) == Ok(m.at[i])
    {
      var row := RowFromJson(j.items[i], m.cols);
      assert row.Ok?;
      assert row.value == m.at[i];
    }
    var r := MatrixFromJson(j, m.cols);
    assert r.value.at == m.at;
  }
}
