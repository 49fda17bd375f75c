/** iceberg_csv_to_avro.py: each row of the CSV exported from the Iceberg table turned into a
    record of the Avro schema `BackblazeDailyDriveStatsRecord`. */
module IcebergAvro {
  import opened Wrappers
  import opened Numerals

  /** A record of the schema: three strings, `capacity_bytes` a long, `failure` a boolean. */
  datatype AvroRow = AvroRow(date: string, serialNumber: string, model: string, capacityBytes: int, failure: bool)

  /** `_update_row_to_avro_schema`: the dictionary display reads `date`, `serial_number`,
      `model` and `capacity_bytes` in that order, then `failure`; a missing column raises
      KeyError, a value `int()` refuses ValueError. */
  function ToAvro(row: map<string, string>): Result<AvroRow, PyError> {
    if "date" !in row then Err(KeyError("date"))
    else if "serial_number" !in row then Err(KeyError("serial_number"))
    else if "model" !in row then Err(KeyError("model"))
    else if "capacity_bytes" !in row then Err(KeyError("capacity_bytes"))
    else match ParseInt(row["capacity_bytes"])
      case Err(e) => Err(e)
      case Ok(capacity) =>
        if "failure" !in row then Err(KeyError("failure"))
        else match ParseInt(row["failure"])
          case Err(e) => Err(e)
          case Ok(f) => Ok(AvroRow(row["date"], row["serial_number"], row["model"], capacity, f == 1))
  }

  /** A row converts exactly when it has the five columns and both numbers parse; the strings
      are copied unchanged, `capacity_bytes` is the parsed integer, and `failure` is true
      exactly when its integer is 1 (0, 2, -1 and every other value give false). */
  lemma {:induction false} ToAvroFields(row: map<string, string>)
    ensures ToAvro(row).Ok? <==>
      "date" in row && "serial_number" in row && "model" in row && "capacity_bytes" in row && "failure" in row
      && ParseInt(row["capacity_bytes"]).Ok? && ParseInt(row["failure"]).Ok?
    ensures ToAvro(row).Ok? ==>
      var a := ToAvro(row).value;
      a.date == row["date"] && a.serialNumber == row["serial_number"] && a.model == row["model"]
      && Ok(a.capacityBytes) == ParseInt(row["capacity_bytes"])
      && (a.failure <==> ParseInt(row["failure"]) == Ok(1))
  {
    if ToAvro(row).Ok? {
      var a := ToAvro(row).value;
      assert ParseInt(row["failure"]) == Ok(if a.failure then 1 else ParseInt(row["failure"]).value);
    }
  }

  /** The CSV row the Iceberg export writes for a record, the failure flag as 1 or 0. */
  function CsvOf(a: AvroRow): map<string, string> {
    map["date" := a.date, "serial_number" := a.serialNumber, "model" := a.model,
        "capacity_bytes" := IntText(a.capacityBytes), "failure" := if a.failure then "1" else "0"]
  }

  /** Converting an exported row gives its record back. */
  lemma {:induction false} ToAvroOfCsv(a: AvroRow)
    ensures ToAvro(CsvOf(a)) == Ok(a)
  {
    var row := CsvOf(a);
    assert "date" in row && "serial_number" in row && "model" in row;
    assert "capacity_bytes" in row && "failure" in row;
    assert row["capacity_bytes"] == IntText(a.capacityBytes);
    ParseIntText(a.capacityBytes);
    FlagText(a.failure);
  }

  /** `int("1") == 1` and `int("0") == 0`. */
  lemma {:induction false} FlagText(b: bool)
    ensures ParseInt(if b then "1" else "0") == Ok(if b then 1 else 0)
  {
    ParseDecimalPlain(if b then 1 else 0);
    assert Decimal(1) == "1" && Decimal(0) == "0";
  }

  /** The records `fastavro.writer` receives from `_csv_row_iter`: one per row, in file
      order, until a row raises; `failed` is that row's error, which ends the script. */
  function Yielded(rows: seq<map<string, string>>): (r: (seq<AvroRow>, Option<PyError>))
    ensures |r.0| <= |rows|
    ensures forall i :: 0 <= i < |r.0| ==> ToAvro(rows[i]) == Ok(r.0[i])
    ensures r.1.None? ==> |r.0| == |rows|
    ensures r.1.Some? ==> |r.0| < |rows| && ToAvro(rows[|r.0|]) == Err(r.1.value)
    decreases |rows|
  {
    if |rows| == 0 then ([], None)
    else match ToAvro(rows[0])
      case Err(e) => ([], Some(e))
      case Ok(a) =>
        var rest := Yielded(rows[1..]);
        ([a] + rest.0, rest.1)
  }
}
