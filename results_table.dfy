/** The results table of a review state: one row per labeling decision, and its column views. */
module ResultsTable {
  import opened StateErrors

  /** One row of the results log. */
  datatype Row = Row(
    recordId: int,
    labelValue: int,
    classifier: string,
    queryStrategy: string,
    balanceStrategy: string,
    featureExtraction: string,
    trainingSet: int)

  /** The named columns of the results table. */
  datatype Column =
    | RecordIds
    | Labels
    | Classifiers
    | QueryStrategies
    | BalanceStrategies
    | FeatureExtraction
    | TrainingSets

  /** RESULTS_TABLE_COLUMNS: every column, in the order the table stores them. */
  const ResultsTableColumns: seq<Column> :=
    [RecordIds, Labels, Classifiers, QueryStrategies, BalanceStrategies, FeatureExtraction, TrainingSets]

  /** A cell of the table: the integer columns and the string-tag columns. */
  datatype Value = Int(i: int) | Text(s: string)

  function Cell(row: Row, c: Column): Value {
    match c
    case RecordIds => Int(row.recordId)
    case Labels => Int(row.labelValue)
    case Classifiers => Text(row.classifier)
    case QueryStrategies => Text(row.queryStrategy)
    case BalanceStrategies => Text(row.balanceStrategy)
    case FeatureExtraction => Text(row.featureExtraction)
    case TrainingSets => Int(row.trainingSet)
  }

  /** The values of one column over some rows, in row order. */
  function ColumnOf(rows: seq<Row>, c: Column): seq<Value> {
    seq(|rows|, i requires 0 <= i < |rows| => Cell(rows[i], c))
  }

  function Ints(xs: seq<int>): seq<Value> {
    seq(|xs|, i requires 0 <= i < |xs| => Int(xs[i]))
  }

  function Texts(xs: seq<string>): seq<Value> {
    seq(|xs|, i requires 0 <= i < |xs| => Text(xs[i]))
  }

  /** A table read from the log: its column names and, for each, the column's values. */
  datatype Frame = Frame(columns: seq<Column>, data: seq<seq<Value>>)

  /** The rows projected onto the given columns, in the order given. */
  function Project(rows: seq<Row>, columns: seq<Column>): Frame {
    Frame(columns, seq(|columns|, i requires 0 <= i < |columns| => ColumnOf(rows, columns[i])))
  }

  /** frame[c]: the values of the first column named c, or None when the frame lacks it. */
  function Get(f: Frame, c: Column): Option<seq<Value>> {
    GetFrom(f.columns, f.data, c)
  }

  function GetFrom(columns: seq<Column>, data: seq<seq<Value>>, c: Column): Option<seq<Value>>
    decreases |columns|
  {
    if columns == [] || data == [] then None
    else if columns[0] == c then Some(data[0])
    else GetFrom(columns[1..], data[1..], c)
  }

  /** Which columns a read asks for: all of them, one named column, or a list of columns. */
  datatype Selection = AllColumns | Single(column: Column) | Subset(columns: seq<Column>)

  function Selected(sel: Selection): seq<Column> {
    match sel
    case AllColumns => ResultsTableColumns
    case Single(c) => [c]
    case Subset(cs) => cs
  }

  // The single-column accessors of the state.

  /** get_order_of_labeling: the record ids in log order, the record_id column of get_dataset. */
  function GetOrderOfLabeling(rows: seq<Row>): (r: seq<int>)
    ensures Ints(r) == ColumnOf(rows, RecordIds)
  {
    seq(|rows|, i requires 0 <= i < |rows| => rows[i].recordId)
  }

  /** get_labels: the label column of get_dataset. */
  function GetLabels(rows: seq<Row>): (r: seq<int>)
    ensures Ints(r) == ColumnOf(rows, Labels)
  {
    seq(|rows|, i requires 0 <= i < |rows| => rows[i].labelValue)
  }

  /** get_classifiers: the classifier column of get_dataset. */
  function GetClassifiers(rows: seq<Row>): (r: seq<string>)
    ensures Texts(r) == ColumnOf(rows, Classifiers)
  {
    seq(|rows|, i requires 0 <= i < |rows| => rows[i].classifier)
  }

  /** get_query_strategies: the query_strategy column of get_dataset. */
  function GetQueryStrategies(rows: seq<Row>): (r: seq<string>)
    ensures Texts(r) == ColumnOf(rows, QueryStrategies)
  {
    seq(|rows|, i requires 0 <= i < |rows| => rows[i].queryStrategy)
  }

  /** get_training_sets: the training_set column of get_dataset. */
  function GetTrainingSets(rows: seq<Row>): (r: seq<int>)
    ensures Ints(r) == ColumnOf(rows, TrainingSets)
  {
    seq(|rows|, i requires 0 <= i < |rows| => rows[i].trainingSet)
  }

  /** The parallel lists of add_labeling_data all have the same length. */
  predicate SameLength(
    recordIds: seq<int>, labels: seq<int>, classifiers: seq<string>, queryStrategies: seq<string>,
    balanceStrategies: seq<string>, featureExtraction: seq<string>, trainingSets: seq<int>)
  {
    && |labels| == |recordIds|
    && |classifiers| == |recordIds|
    && |queryStrategies| == |recordIds|
    && |balanceStrategies| == |recordIds|
    && |featureExtraction| == |recordIds|
    && |trainingSets| == |recordIds|
  }

  /** The rows that the parallel lists of add_labeling_data describe, position by position. */
  function ZipRows(
    recordIds: seq<int>, labels: seq<int>, classifiers: seq<string>, queryStrategies: seq<string>,
    balanceStrategies: seq<string>, featureExtraction: seq<string>, trainingSets: seq<int>): seq<Row>
    requires SameLength(recordIds, labels, classifiers, queryStrategies, balanceStrategies,
                        featureExtraction, trainingSets)
  {
    seq(|recordIds|, i requires 0 <= i < |recordIds| =>
      Row(recordIds[i], labels[i], classifiers[i], queryStrategies[i], balanceStrategies[i],
          featureExtraction[i], trainingSets[i]))
  }

  /** Each column of the zipped rows is the list that was given for it. */
  lemma ZipRowsColumns(
    recordIds: seq<int>, labels: seq<int>, classifiers: seq<string>, queryStrategies: seq<string>,
    balanceStrategies: seq<string>, featureExtraction: seq<string>, trainingSets: seq<int>)
    requires SameLength(recordIds, labels, classifiers, queryStrategies, balanceStrategies,
                        featureExtraction, trainingSets)
    ensures var rows := ZipRows(recordIds, labels, classifiers, queryStrategies, balanceStrategies,
                                featureExtraction, trainingSets);
      && ColumnOf(rows, RecordIds) == Ints(recordIds)
      && ColumnOf(rows, Labels) == Ints(labels)
      && ColumnOf(rows, Classifiers) == Texts(classifiers)
      && ColumnOf(rows, QueryStrategies) == Texts(queryStrategies)
      && ColumnOf(rows, BalanceStrategies) == Texts(balanceStrategies)
      && ColumnOf(rows, FeatureExtraction) == Texts(featureExtraction)
      && ColumnOf(rows, TrainingSets) == Ints(trainingSets)
  {
  }

  /** Zipping a prefix and the rest of the lists, then concatenating, zips the whole lists. */
  lemma ZipRowsSplit(
    recordIds: seq<int>, labels: seq<int>, classifiers: seq<string>, queryStrategies: seq<string>,
    balanceStrategies: seq<string>, featureExtraction: seq<string>, trainingSets: seq<int>, m: nat)
    requires SameLength(recordIds, labels, classifiers, queryStrategies, balanceStrategies,
                        featureExtraction, trainingSets)
    requires m <= |recordIds|
    ensures ZipRows(recordIds[..m], labels[..m], classifiers[..m], queryStrategies[..m],
                    balanceStrategies[..m], featureExtraction[..m], trainingSets[..m])
          + ZipRows(recordIds[m..], labels[m..], classifiers[m..], queryStrategies[m..],
                    balanceStrategies[m..], featureExtraction[m..], trainingSets[m..])
         == ZipRows(recordIds, labels, classifiers, queryStrategies, balanceStrategies,
                    featureExtraction, trainingSets)
  {
  }

  /** Appending the rows of position i to the rows of the first i positions gives those of i + 1. */
  lemma ZipRowsStep(
    recordIds: seq<int>, labels: seq<int>, classifiers: seq<string>, queryStrategies: seq<string>,
    balanceStrategies: seq<string>, featureExtraction: seq<string>, trainingSets: seq<int>, i: nat)
    requires SameLength(recordIds, labels, classifiers, queryStrategies, balanceStrategies,
                        featureExtraction, trainingSets)
    requires i < |recordIds|
    ensures ZipRows(recordIds[..i], labels[..i], classifiers[..i], queryStrategies[..i],
                    balanceStrategies[..i], featureExtraction[..i], trainingSets[..i])
          + ZipRows([recordIds[i]], [labels[i]], [classifiers[i]], [queryStrategies[i]],
                    [balanceStrategies[i]], [featureExtraction[i]], [trainingSets[i]])
         == ZipRows(recordIds[..i + 1], labels[..i + 1], classifiers[..i + 1], queryStrategies[..i + 1],
                    balanceStrategies[..i + 1], featureExtraction[..i + 1], trainingSets[..i + 1])
  {
  }

  /** Every column of a concatenation of rows is the concatenation of the columns. */
  lemma ColumnOfAppend(a: seq<Row>, b: seq<Row>, c: Column)
    ensures ColumnOf(a + b, c) == ColumnOf(a, c) + ColumnOf(b, c)
  {
  }

  /** Each single-column accessor of a concatenated log is the concatenation of the parts' columns. */
  lemma AccessorsOfAppend(a: seq<Row>, b: seq<Row>)
    ensures GetOrderOfLabeling(a + b) == GetOrderOfLabeling(a) + GetOrderOfLabeling(b)
    ensures GetLabels(a + b) == GetLabels(a) + GetLabels(b)
    ensures GetClassifiers(a + b) == GetClassifiers(a) + GetClassifiers(b)
    ensures GetQueryStrategies(a + b) == GetQueryStrategies(a) + GetQueryStrategies(b)
    ensures GetTrainingSets(a + b) == GetTrainingSets(a) + GetTrainingSets(b)
  {
    forall i | 0 <= i < |a + b|
      ensures (a + b)[i] == if i < |a| then a[i] else b[i - |a|]
    {
    }
  }

  /** Projection keeps the requested columns in the order given, and picks the right values. */
  lemma {:induction false} ProjectGet(rows: seq<Row>, columns: seq<Column>, c: Column)
    ensures Project(rows, columns).columns == columns
    ensures Get(Project(rows, columns), c) == if c in columns then Some(ColumnOf(rows, c)) else None
  {
    GetFromProjection(rows, columns, c);
  }

  lemma {:induction false} GetFromProjection(rows: seq<Row>, columns: seq<Column>, c: Column)
    ensures GetFrom(columns, seq(|columns|, i requires 0 <= i < |columns| => ColumnOf(rows, columns[i])), c)
         == if c in columns then Some(ColumnOf(rows, c)) else None
  {
    if columns != [] && columns[0] != c {
      var data := seq(|columns|, i requires 0 <= i < |columns| => ColumnOf(rows, columns[i]));
      var rest := columns[1..];
      assert data[1..] == seq(|rest|, i requires 0 <= i < |rest| => ColumnOf(rows, rest[i]));
      assert columns == [columns[0]] + rest;
      GetFromProjection(rows, rest, c);
    }
  }
}
