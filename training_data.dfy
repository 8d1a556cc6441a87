/**
 * The data manager of the model trainer (`services/model_trainer/data_manager.py`):
 * the text rendering of feature rows for transformer models, the dispatch
 * of `prepare_data` on the model type, and the dataset of texts and labels.
 * A row maps column names to their rendered values.
 */
module TrainingData {
  import opened Wrappers
  import opened Text

  type Row = map<string, string>

  /** Every feature column is present in the row. */
  predicate Covers(row: Row, columns: seq<string>) {
    forall j :: 0 <= j < |columns| ==> columns[j] in row
  }

  /** Every feature column is present in every row. */
  predicate HasColumns(rows: seq<Row>, columns: seq<string>) {
    forall i :: 0 <= i < |rows| ==> Covers(rows[i], columns)
  }

  /** A prefix of the rows has the columns as well. */
  lemma HasColumnsPrefix(rows: seq<Row>, columns: seq<string>, n: nat)
    requires HasColumns(rows, columns) && n <= |rows|
    ensures HasColumns(rows[..n], columns)
  {
    var prefix := rows[..n];
    forall k | 0 <= k < n ensures Covers(prefix[k], columns) { assert prefix[k] == rows[k]; }
  }

  /** One column of a row as text: `col: value.` */
  function Item(column: string, value: string): string {
    column + ": " + value + "."
  }

  /** The text the inner loop has built after the given columns: each
      item followed by one space. */
  function RawText(columns: seq<string>, row: Row): string
    requires Covers(row, columns)
  {
    if columns == [] then ""
    else
      var last := columns[|columns| - 1];
      RawText(columns[..|columns| - 1], row) + Item(last, row[last]) + " "
  }

  /** The text of one row: the built text, stripped. */
  function TextFeature(columns: seq<string>, row: Row): (t: string)
    requires Covers(row, columns)
    ensures columns == [] ==> t == ""
    ensures Trimmed(t)
  {
    Strip(RawText(columns, row))
  }

  /** The items of a row, in column order. */
  function Items(columns: seq<string>, row: Row): (items: seq<string>)
    requires Covers(row, columns)
    ensures |items| == |columns|
  {
    seq(|columns|, j requires 0 <= j < |columns| => Item(columns[j], row[columns[j]]))
  }

  /** The built text is the items joined by single spaces, plus one final space. */
  lemma {:induction false} RawTextJoin(columns: seq<string>, row: Row)
    requires columns != []
    requires Covers(row, columns)
    ensures RawText(columns, row) == Join(Items(columns, row), ' ') + " "
  {
    var n := |columns| - 1;
    var init := columns[..n];
    var last := columns[n];
    var item := Item(last, row[last]);
    if n == 0 {
      assert Items(columns, row) == [item];
      assert RawText(init, row) == "";
      assert RawText(columns, row) == "" + item + " ";
    } else {
      RawTextJoin(init, row);
      assert Items(columns, row) == Items(init, row) + [item];
      JoinSnoc(Items(init, row), item, ' ');
      var j := Join(Items(init, row), ' ');
      assert RawText(columns, row) == j + " " + item + " ";
      assert j + " " + item + " " == j + [' '] + item + " ";
    }
  }

  /** When the first column name does not start with white space, the text of
      a row is its items, `col: value.`, in column order, joined by single
      spaces. */
  lemma TextFeatureShape(columns: seq<string>, row: Row)
    requires columns != []
    requires Covers(row, columns)
    requires columns[0] == [] || !IsSpace(columns[0][0])
    ensures TextFeature(columns, row) == Join(Items(columns, row), ' ')
  {
    RawTextJoin(columns, row);
    var items := Items(columns, row);
    var x := Join(items, ' ');
    JoinEnds(items, ' ');
    var first := items[0];
    assert first == columns[0] + ": " + row[columns[0]] + ".";
    assert first[0] == (if columns[0] == [] then ':' else columns[0][0]);
    var lastItem := items[|items| - 1];
    assert lastItem[|lastItem| - 1] == '.';
    assert AllSpace(" ") by {
      assert " "[0] == ' ';
    }
    assert AllSpace([]);
    StripFrame([], x, " ");
    assert [] + x + " " == x + " ";
  }

  /** A join starts with its first part and ends with its last one. */
  lemma {:induction false} JoinEnds(parts: seq<string>, sep: char)
    requires |parts| >= 1
    requires forall k :: 0 <= k < |parts| ==> parts[k] != []
    ensures Join(parts, sep) != []
    ensures Join(parts, sep)[0] == parts[0][0]
    ensures Join(parts, sep)[|Join(parts, sep)| - 1] == parts[|parts| - 1][|parts[|parts| - 1]| - 1]
  {
    if |parts| > 1 {
      var rest := parts[1..];
      assert forall k :: 0 <= k < |rest| ==> rest[k] == parts[k + 1];
      JoinEnds(rest, sep);
    }
  }

  /** The texts of the rows, in row order. */
  function TextFeatures(rows: seq<Row>, columns: seq<string>): (texts: seq<string>)
    requires HasColumns(rows, columns)
    ensures |texts| == |rows|
  {
    if rows == [] then []
    else
      var n := |rows| - 1;
      HasColumnsPrefix(rows, columns, n);
      TextFeatures(rows[..n], columns) + [TextFeature(columns, rows[n])]
  }

  /** The text at position `i` is the text of row `i`. */
  lemma {:induction false} TextFeatureAt(rows: seq<Row>, columns: seq<string>, i: nat)
    requires HasColumns(rows, columns) && i < |rows|
    ensures TextFeatures(rows, columns)[i] == TextFeature(columns, rows[i])
  {
    var n := |rows| - 1;
    if i < n {
      var init := rows[..n];
      assert init[i] == rows[i];
      HasColumnsPrefix(rows, columns, n);
      TextFeatureAt(init, columns, i);
    }
  }

  /** Each text is the text of the row at the same position. */
  lemma TextFeaturesPointwise(rows: seq<Row>, columns: seq<string>)
    requires HasColumns(rows, columns)
    ensures forall i :: 0 <= i < |rows| ==> TextFeatures(rows, columns)[i] == TextFeature(columns, rows[i])
  {
    forall i | 0 <= i < |rows| ensures TextFeatures(rows, columns)[i] == TextFeature(columns, rows[i]) {
      TextFeatureAt(rows, columns, i);
    }
  }

  /** The inner loop of `_create_text_features`: "col: value. " per column. */
  method BuildText(columns: seq<string>, row: Row) returns (text: string)
    requires Covers(row, columns)
    ensures text == RawText(columns, row)
  {
    text := "";
    var j := 0;
    while j < |columns|
      invariant 0 <= j <= |columns|
      invariant text == RawText(columns[..j], row)
    {
      var column := columns[j];
      assert columns[..j + 1][..j] == columns[..j];
      text := text + column + ": " + row[column] + ". ";
      assert column + ": " + row[column] + ". " == Item(column, row[column]) + " ";
      j := j + 1;
    }
    assert columns[..j] == columns;
  }

  /** The text of one row: the built text, stripped. */
  method RowText(columns: seq<string>, row: Row) returns (text: string)
    requires Covers(row, columns)
    ensures text == TextFeature(columns, row)
  {
    text := BuildText(columns, row);
    text := Strip(text);
  }

  /** `_create_text_features`: one text per row, in row order. */
  method CreateTextFeatures(rows: seq<Row>, columns: seq<string>) returns (texts: seq<string>)
    requires HasColumns(rows, columns)
    ensures texts == TextFeatures(rows, columns)
  {
    texts := [];
    var i := 0;
    while i < |rows|
      invariant 0 <= i <= |rows|
      invariant HasColumns(rows[..i], columns) && texts == TextFeatures(rows[..i], columns)
    {
      var text := RowText(columns, rows[i]);
      assert rows[..i + 1][..i] == rows[..i];
      HasColumnsPrefix(rows, columns, i + 1);
      texts := texts + [text];
      i := i + 1;
    }
    assert rows[..i] == rows;
  }

  datatype Error =
    | ValueError(message: string)
    | IndexError(message: string)
    | TensorIndexError(index: int, size: nat)

  /** `RockfallDataset`: texts with their integer labels. */
  datatype TextDataset = TextDataset(texts: seq<string>, labels: seq<int>)

  datatype Sample = Sample(text: string, target: int)

  /** `__len__`. */
  function Length(d: TextDataset): nat {
    |d.texts|
  }

  /** Python's resolution of an index into a list of length `n`: negative
      indices count from the end; anything else outside is out of range. */
  function PyIndex(idx: int, n: nat): (k: Option<nat>)
    ensures k.Some? <==> -(n as int) <= idx < n
    ensures k.Some? ==> k.value < n && (if idx >= 0 then k.value == idx else k.value == n + idx)
  {
    if 0 <= idx < n then Some(idx) else if -(n as int) <= idx < 0 then Some(n + idx) else None
  }

  /** `__getitem__`: the text is looked up first, then the label in the tensor. */
  function GetItem(d: TextDataset, idx: int): (r: Result<Sample, Error>)
    ensures r.Ok? <==> -|d.texts| <= idx < |d.texts| && -|d.labels| <= idx < |d.labels|
    ensures !(-|d.texts| <= idx < |d.texts|) ==> r == Err(IndexError("list index out of range"))
    ensures -|d.texts| <= idx < |d.texts| && !(-|d.labels| <= idx < |d.labels|) ==>
              r == Err(TensorIndexError(idx, |d.labels|))
    ensures r.Ok? && idx >= 0 ==> r.value == Sample(d.texts[idx], d.labels[idx])
    ensures r.Ok? && idx < 0 ==> r.value == Sample(d.texts[|d.texts| + idx], d.labels[|d.labels| + idx])
  {
    match PyIndex(idx, |d.texts|)
    case None => Err(IndexError("list index out of range"))
    case Some(i) =>
      match PyIndex(idx, |d.labels|)
      case None => Err(TensorIndexError(idx, |d.labels|))
      case Some(j) => Ok(Sample(d.texts[i], d.labels[j]))
  }

  /** One side of the train/test split: feature rows and their targets. */
  datatype Labelled = Labelled(rows: seq<Row>, labels: seq<int>)

  /** What `prepare_data` returns; `S` is the type of the scaled feature matrix. */
  datatype Prepared<S> =
    | Tabular(trainRows: S, trainLabels: seq<int>, testRows: S, testLabels: seq<int>, featureNames: seq<string>)
    | Transformer(trainSet: TextDataset, testSet: TextDataset, featureNames: seq<string>)

  /** `prepare_data` after loading and splitting. `standardize(fit, rows)`
      scales `rows` with a scaler fitted on `fit`. */
  function PrepareData<S>(modelType: string, textColumn: Option<string>, columns: seq<string>,
                          train: Labelled, test: Labelled, standardize: (seq<Row>, seq<Row>) -> S): (r: Result<Prepared<S>, Error>)
    requires HasColumns(train.rows, columns) && HasColumns(test.rows, columns)
    ensures r.Ok? <==> modelType == "custom" || (modelType == "huggingface" && Truthy(textColumn))
    ensures modelType != "custom" && modelType != "huggingface" ==>
              r == Err(ValueError("Unknown model type: " + modelType))
    ensures modelType == "huggingface" && !Truthy(textColumn) ==>
              r == Err(ValueError("text_column must be specified for Hugging Face models"))
    ensures r.Ok? ==> r.value.featureNames == columns
    ensures modelType == "custom" ==>
              r == Ok(Tabular(standardize(train.rows, train.rows), train.labels,
                              standardize(train.rows, test.rows), test.labels, columns))
    ensures r.Ok? && modelType == "huggingface" ==>
              r.value.Transformer? &&
              r.value.trainSet == TextDataset(TextFeatures(train.rows, columns), train.labels) &&
              r.value.testSet == TextDataset(TextFeatures(test.rows, columns), test.labels)
  {
    if modelType == "custom" then
      Ok(Tabular(standardize(train.rows, train.rows), train.labels,
                 standardize(train.rows, test.rows), test.labels, columns))
    else if modelType == "huggingface" then
      if !Truthy(textColumn) then Err(ValueError("text_column must be specified for Hugging Face models"))
      else
        Ok(Transformer(TextDataset(TextFeatures(train.rows, columns), train.labels),
                       TextDataset(TextFeatures(test.rows, columns), test.labels), columns))
    else Err(ValueError("Unknown model type: " + modelType))
  }

  /** The transformer datasets have one sample per row, pairing the row's
      text with its target, when the split kept rows and targets aligned. */
  lemma TransformerSamples<S>(textColumn: Option<string>, columns: seq<string>, train: Labelled, test: Labelled,
                              standardize: (seq<Row>, seq<Row>) -> S, i: int)
    requires HasColumns(train.rows, columns) && HasColumns(test.rows, columns)
    requires Truthy(textColumn) && |train.labels| == |train.rows|
    requires 0 <= i < |train.rows|
    ensures var d := TextDataset(TextFeatures(train.rows, columns), train.labels);
            PrepareData("huggingface", textColumn, columns, train, test, standardize) ==
              Ok(Transformer(d, TextDataset(TextFeatures(test.rows, columns), test.labels), columns)) &&
            Length(d) == |train.rows| &&
            GetItem(d, i) == Ok(Sample(TextFeature(columns, train.rows[i]), train.labels[i])) &&
            GetItem(d, i - |train.rows|) == GetItem(d, i)
  {
    TextFeatureAt(train.rows, columns, i);
  }
}
