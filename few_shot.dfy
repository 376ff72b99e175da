/** The few-shot loader of the Master Architect: an uploaded table with
    "Input" and "Output" columns becomes a run of `<example>` blocks that is
    pasted into the system prompt. */
module FewShot {
  import opened Text

  /** One table row, reduced to the text of its two example columns. */
  datatype Row = Row(input: string, output: string)

  /** What the CSV reader hands over: no file chosen, a file it could not
      parse, or a table with its column names and rows. */
  datatype Upload = NoFile | Unreadable | Table(columns: set<string>, rows: seq<Row>)

  /** The notice the loader shows: none, a success notice with the number of
      rows, or the CSV error notice. */
  datatype Notice = Silent | Loaded(count: nat) | CsvError

  /** The fixed text one example block adds around its two values. */
  const ExampleOverhead := 33

  /** Both required columns are present. */
  predicate HasExampleColumns(upload: Upload)
  {
    upload.Table? && "Input" in upload.columns && "Output" in upload.columns
  }

  /** One row as an f-string: the input after a USER marker, the output after
      an AI marker, inside `<example>` tags. */
  function ExampleBlock(row: Row): (r: string)
    ensures r == "<example>\nUSER: " + row.input + "\nAI: " + row.output + "\n</example>\n"
    ensures |r| == ExampleOverhead + |row.input| + |row.output|
  {
    RenderTwo("<example>\nUSER: ", "\nAI: ", "\n</example>\n", row.input, row.output);
    Render(["<example>\nUSER: ", "\nAI: ", "\n</example>\n"], [row.input, row.output])
  }

  /** The length of all the values in `rows`. */
  function FieldsLength(rows: seq<Row>): nat
  {
    if rows == [] then 0
    else FieldsLength(rows[..|rows| - 1]) + |rows[|rows| - 1].input| + |rows[|rows| - 1].output|
  }

  /** The example blocks of `rows`, one after another in row order. */
  function FewShotBlock(rows: seq<Row>): (r: string)
    ensures |r| == ExampleOverhead * |rows| + FieldsLength(rows)
    ensures r == "" <==> rows == []
  {
    if rows == [] then ""
    else FewShotBlock(rows[..|rows| - 1]) + ExampleBlock(rows[|rows| - 1])
  }

  /** Reads the uploaded table row by row, appending one example block per
      row; a missing column leaves the block empty without a notice, and an
      unreadable file leaves it empty with the CSV error notice. */
  method LoadExamples(upload: Upload) returns (examples: string, notice: Notice)
    ensures HasExampleColumns(upload) ==> examples == FewShotBlock(upload.rows)
    ensures !HasExampleColumns(upload) ==> examples == ""
    ensures notice == (if HasExampleColumns(upload) then Loaded(|upload.rows|)
                       else if upload.Unreadable? then CsvError
                       else Silent)
  {
    examples := "";
    notice := Silent;
    match upload {
      case NoFile =>
      case Unreadable =>
        notice := CsvError;
      case Table(columns, rows) =>
        if "Input" in columns && "Output" in columns {
          var i := 0;
          while i < |rows|
            invariant 0 <= i <= |rows|
            invariant examples == FewShotBlock(rows[..i])
          {
            assert rows[..i + 1][..i] == rows[..i];
            examples := examples + ExampleBlock(rows[i]);
            i := i + 1;
          }
          assert rows[..|rows|] == rows;
          notice := Loaded(|rows|);
        }
    }
  }

  /** The block of two row runs is the block of the first run followed by the
      block of the second. */
  lemma {:induction false} FewShotBlockAppend(a: seq<Row>, b: seq<Row>)
    ensures FewShotBlock(a + b) == FewShotBlock(a) + FewShotBlock(b)
    decreases |b|
  {
    if b == [] {
      assert a + b == a;
    } else {
      var b' := b[..|b| - 1];
      var last := b[|b| - 1];
      assert (a + b)[..|a + b| - 1] == a + b';
      assert (a + b)[|a + b| - 1] == last;
      calc {
        FewShotBlock(a + b);
        FewShotBlock(a + b') + ExampleBlock(last);
        { FewShotBlockAppend(a, b'); }
        FewShotBlock(a) + FewShotBlock(b') + ExampleBlock(last);
        FewShotBlock(a) + FewShotBlock(b);
      }
    }
  }

  /** Row `i` appears as its own example block right after the blocks of the
      rows before it: the block is the in-order concatenation. */
  lemma ExampleInPlace(rows: seq<Row>, i: nat)
    requires i < |rows|
    ensures OccursAt(FewShotBlock(rows), ExampleBlock(rows[i]), |FewShotBlock(rows[..i])|)
  {
    assert rows == rows[..i] + [rows[i]] + rows[i + 1..];
    FewShotBlockAppend(rows[..i] + [rows[i]], rows[i + 1..]);
    FewShotBlockAppend(rows[..i], [rows[i]]);
    assert [rows[i]][..0] == [];
  }
}
