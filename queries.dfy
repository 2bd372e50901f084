/** The aggregates and slices a review state derives from its results log. */
module Queries {
  import opened StateErrors
  import opened ResultsTable
  import opened DistinctValues

  /** The training-set value of rows labeled as prior knowledge, before any model was trained. */
  const Prior: int := -1

  /** A lookup key on the log: rows of one training set, or rows of one record. */
  datatype Key = ByTrainingSet(trainingSet: int) | ByRecordId(recordId: int)

  predicate Matches(row: Row, key: Key) {
    match key
    case ByTrainingSet(t) => row.trainingSet == t
    case ByRecordId(r) => row.recordId == r
  }

  /** The rows of the log that match key, in log order. */
  function Where(log: seq<Row>, key: Key): (r: seq<Row>)
    ensures |r| <= |log|
  {
    if log == [] then []
    else
      var init, last := log[..|log| - 1], log[|log| - 1];
      assert log == init + [last];
      var rest := Where(init, key);
      if Matches(last, key) then rest + [last] else rest
  }

  /** n_records_labeled: one labeling decision per row, so as many as there are record ids. */
  function NRecordsLabeled(log: seq<Row>): (n: nat)
    ensures n == |GetOrderOfLabeling(log)| == |GetLabels(log)|
  {
    |log|
  }

  /** n_priors: the rows labeled as prior knowledge. */
  function NPriors(log: seq<Row>): (n: nat)
    ensures n <= NRecordsLabeled(log)
  {
    |Where(log, ByTrainingSet(Prior))|
  }

  /** n_models: the distinct training-set values of the log, the prior round included. */
  function NModels(log: seq<Row>): (n: nat)
    ensures n <= NRecordsLabeled(log)
    ensures n == 0 <==> log == []
  {
    |Distinct(GetTrainingSets(log))|
  }

  /** The training-set values of the model rounds, in the order they first appear in the log. */
  function RoundValues(log: seq<Row>): (r: seq<int>)
    ensures Prior !in r && NoDuplicates(r)
  {
    var d := Distinct(GetTrainingSets(log));
    DistinctValuesOf(GetTrainingSets(log));
    WithoutValues(d, Prior);
    WithoutOfNoDuplicates(d, Prior);
    Without(d, Prior)
  }

  /** The training-set value shared by the rows of query k: query 0 holds the priors. */
  function QueryValue(log: seq<Row>, k: nat): int
    requires k <= |RoundValues(log)|
  {
    if k == 0 then Prior else RoundValues(log)[k - 1]
  }

  /** The rows of query k, in log order: all of them share the query's training-set value. */
  function QueryRows(log: seq<Row>, k: nat): (r: seq<Row>)
    requires k <= |RoundValues(log)|
    ensures |r| <= |log|
    ensures forall row :: row in r ==> row in log && row.trainingSet == QueryValue(log, k)
  {
    WhereMembers(log, ByTrainingSet(QueryValue(log, k)));
    Where(log, ByTrainingSet(QueryValue(log, k)))
  }

  /** get_dataset: the whole log projected onto the selected columns. */
  function GetDataset(log: seq<Row>, sel: Selection): (f: Frame)
    ensures f.columns == Selected(sel)
  {
    Project(log, Selected(sel))
  }

  /** get_data_by_query_number: the rows of query k projected onto the selected columns. */
  function GetDataByQueryNumber(log: seq<Row>, k: nat, sel: Selection): (r: Result<Frame>)
    ensures r.Ok? <==> k <= |RoundValues(log)|
    ensures r.Err? ==> r.error == QueryNotFound(k)
    ensures r.Ok? ==> r.value.columns == Selected(sel)
  {
    if k <= |RoundValues(log)| then Ok(Project(QueryRows(log, k), Selected(sel)))
    else Err(QueryNotFound(k))
  }

  /** get_data_by_record_id: every column of the rows that hold the record. */
  function GetDataByRecordId(log: seq<Row>, recordId: int): (r: Result<Frame>)
    ensures r.Ok? <==> recordId in GetOrderOfLabeling(log)
    ensures r.Err? ==> r.error == RecordNotFound(recordId)
    ensures r.Ok? ==> r.value.columns == ResultsTableColumns
  {
    var rows := Where(log, ByRecordId(recordId));
    HasRecordIff(log, recordId);
    if rows == [] then Err(RecordNotFound(recordId))
    else Ok(Project(rows, ResultsTableColumns))
  }

  /** get_dataset over the rows that add_labeling_data stored gives back each list passed in. */
  lemma DatasetOfZipRows(
    recordIds: seq<int>, labels: seq<int>, classifiers: seq<string>, queryStrategies: seq<string>,
    balanceStrategies: seq<string>, featureExtraction: seq<string>, trainingSets: seq<int>)
    requires SameLength(recordIds, labels, classifiers, queryStrategies, balanceStrategies,
                        featureExtraction, trainingSets)
    ensures var data := GetDataset(ZipRows(recordIds, labels, classifiers, queryStrategies,
                                           balanceStrategies, featureExtraction, trainingSets), AllColumns);
      && Get(data, RecordIds) == Some(Ints(recordIds))
      && Get(data, Labels) == Some(Ints(labels))
      && Get(data, Classifiers) == Some(Texts(classifiers))
      && Get(data, QueryStrategies) == Some(Texts(queryStrategies))
      && Get(data, BalanceStrategies) == Some(Texts(balanceStrategies))
      && Get(data, FeatureExtraction) == Some(Texts(featureExtraction))
      && Get(data, TrainingSets) == Some(Ints(trainingSets))
  {
    var rows := ZipRows(recordIds, labels, classifiers, queryStrategies, balanceStrategies,
                        featureExtraction, trainingSets);
    ZipRowsColumns(recordIds, labels, classifiers, queryStrategies, balanceStrategies,
                   featureExtraction, trainingSets);
    ProjectGet(rows, ResultsTableColumns, RecordIds);
    ProjectGet(rows, ResultsTableColumns, Labels);
    ProjectGet(rows, ResultsTableColumns, Classifiers);
    ProjectGet(rows, ResultsTableColumns, QueryStrategies);
    ProjectGet(rows, ResultsTableColumns, BalanceStrategies);
    ProjectGet(rows, ResultsTableColumns, FeatureExtraction);
    ProjectGet(rows, ResultsTableColumns, TrainingSets);
  }

  // The filter

  lemma {:induction false} WhereAppend(a: seq<Row>, b: seq<Row>, key: Key)
    ensures Where(a + b, key) == Where(a, key) + Where(b, key)
  {
    if b == [] {
      assert a + b == a;
    } else {
      var init, last := b[..|b| - 1], b[|b| - 1];
      assert b == init + [last];
      assert a + b == (a + init) + [last];
      WhereAppend(a, init, key);
    }
  }

  lemma {:induction false} WhereAll(log: seq<Row>, key: Key)
    requires forall i :: 0 <= i < |log| ==> Matches(log[i], key)
    ensures Where(log, key) == log
  {
    if log != [] {
      var init := log[..|log| - 1];
      assert log == init + [log[|log| - 1]];
      WhereAll(init, key);
    }
  }

  /** The selected rows are exactly the rows of the log that match the key. */
  lemma {:induction false} WhereMembers(log: seq<Row>, key: Key)
    ensures forall row :: row in Where(log, key) <==> row in log && Matches(row, key)
  {
    if log != [] {
      var init, last := log[..|log| - 1], log[|log| - 1];
      assert log == init + [last];
      WhereMembers(init, key);
    }
  }

  lemma {:induction false} WhereNone(log: seq<Row>, key: Key)
    requires forall i :: 0 <= i < |log| ==> !Matches(log[i], key)
    ensures Where(log, key) == []
  {
    if log != [] {
      var init := log[..|log| - 1];
      assert log == init + [log[|log| - 1]];
      WhereNone(init, key);
    }
  }

  /** A key that exactly one row matches selects exactly that row. */
  lemma WhereSingle(log: seq<Row>, key: Key, i: nat)
    requires i < |log| && Matches(log[i], key)
    requires forall j :: 0 <= j < |log| && j != i ==> !Matches(log[j], key)
    ensures Where(log, key) == [log[i]]
  {
    var before, after := log[..i], log[i + 1..];
    assert log == before + [log[i]] + after;
    WhereAppend(before + [log[i]], after, key);
    WhereAppend(before, [log[i]], key);
    WhereNone(before, key);
    WhereNone(after, key);
    assert Where([log[i]], key) == [log[i]] by {
      assert [log[i]][..0] == [];
    }
  }

  // The counts

  /** Counts taken over an appended log are the counts of the parts, added. */
  lemma CountsOfAppend(a: seq<Row>, b: seq<Row>)
    ensures NRecordsLabeled(a + b) == NRecordsLabeled(a) + NRecordsLabeled(b)
    ensures NPriors(a + b) == NPriors(a) + NPriors(b)
    ensures GetOrderOfLabeling(a + b) == GetOrderOfLabeling(a) + GetOrderOfLabeling(b)
  {
    WhereAppend(a, b, ByTrainingSet(Prior));
    AccessorsOfAppend(a, b);
  }

  /** n_priors is the number of times the prior value occurs among the training sets. */
  lemma {:induction false} NPriorsIsPriorMultiplicity(log: seq<Row>)
    ensures NPriors(log) == multiset(GetTrainingSets(log))[Prior]
  {
    if log != [] {
      var init, last := log[..|log| - 1], log[|log| - 1];
      assert log == init + [last];
      assert GetTrainingSets(log) == GetTrainingSets(init) + [last.trainingSet];
      NPriorsIsPriorMultiplicity(init);
    }
  }

  lemma HasRecordIff(log: seq<Row>, recordId: int)
    ensures Where(log, ByRecordId(recordId)) != [] <==> recordId in GetOrderOfLabeling(log)
  {
    var rs := Where(log, ByRecordId(recordId));
    var ids := GetOrderOfLabeling(log);
    WhereMembers(log, ByRecordId(recordId));
    if rs != [] {
      assert rs[0] in log;
      var j :| 0 <= j < |log| && log[j] == rs[0];
      assert ids[j] == recordId;
    }
    if recordId in ids {
      var j :| 0 <= j < |ids| && ids[j] == recordId;
      assert log[j] in rs;
    }
  }

  lemma HasPriorsIff(log: seq<Row>)
    ensures NPriors(log) > 0 <==> Prior in GetTrainingSets(log)
  {
    var ps := Where(log, ByTrainingSet(Prior));
    var ts := GetTrainingSets(log);
    WhereMembers(log, ByTrainingSet(Prior));
    if ps != [] {
      assert ps[0] in log;
      var j :| 0 <= j < |log| && log[j] == ps[0];
      assert ts[j] == Prior;
    }
    if Prior in ts {
      var j :| 0 <= j < |ts| && ts[j] == Prior;
      assert log[j] in ps;
    }
  }

  /** n_models counts the distinct training-set values, so the prior round counts as one model. */
  lemma NModelsCountsPriorRound(log: seq<Row>)
    ensures NModels(log) == |set t | t in GetTrainingSets(log)|
    ensures NModels(log) == (if NPriors(log) > 0 then 1 else 0) + |RoundValues(log)|
  {
    DistinctCount(GetTrainingSets(log));
    DistinctValuesOf(GetTrainingSets(log));
    WithoutOfNoDuplicates(Distinct(GetTrainingSets(log)), Prior);
    HasPriorsIff(log);
  }

  // The queries

  /** Every row of the log lies in exactly one query: the one of its training-set value. */
  lemma QueriesPartitionLog(log: seq<Row>, i: nat)
    requires i < |log|
    ensures exists k: nat :: k <= |RoundValues(log)| && log[i] in QueryRows(log, k)
    ensures forall k1: nat, k2: nat ::
      (k1 <= |RoundValues(log)| && k2 <= |RoundValues(log)| &&
       log[i] in QueryRows(log, k1) && log[i] in QueryRows(log, k2)) ==> k1 == k2
  {
    var t := log[i].trainingSet;
    var rounds := RoundValues(log);
    DistinctValuesOf(GetTrainingSets(log));
    WithoutValues(Distinct(GetTrainingSets(log)), Prior);
    if t == Prior {
      WhereMembers(log, ByTrainingSet(QueryValue(log, 0)));
      assert log[i] in QueryRows(log, 0);
    } else {
      assert GetTrainingSets(log)[i] == t;
      assert t in rounds;
      var j :| 0 <= j < |rounds| && rounds[j] == t;
      WhereMembers(log, ByTrainingSet(QueryValue(log, j + 1)));
      assert log[i] in QueryRows(log, j + 1);
    }
    WithoutOfNoDuplicates(Distinct(GetTrainingSets(log)), Prior);
    forall k1: nat, k2: nat | k1 <= |rounds| && k2 <= |rounds| &&
      log[i] in QueryRows(log, k1) && log[i] in QueryRows(log, k2)
      ensures k1 == k2
    {
      WhereMembers(log, ByTrainingSet(QueryValue(log, k1)));
      WhereMembers(log, ByTrainingSet(QueryValue(log, k2)));
      assert QueryValue(log, k1) == t == QueryValue(log, k2);
      if k1 != 0 { assert rounds[k1 - 1] in rounds; }
      if k2 != 0 { assert rounds[k2 - 1] in rounds; }
    }
  }

  /** The log starts with exactly n prior rows, and no prior row comes later. */
  predicate PriorsLead(log: seq<Row>, n: nat) {
    && n <= |log|
    && forall i :: 0 <= i < |log| ==> (log[i].trainingSet == Prior <==> i < n)
  }

  /** Each model round contributed a single row to the log. */
  predicate OneRowPerRound(log: seq<Row>) {
    forall i, j :: 0 <= i < j < |log| && log[i].trainingSet != Prior ==>
      log[i].trainingSet != log[j].trainingSet
  }

  /** When the n priors lead the log, the prior rows are exactly its first n rows. */
  lemma PriorRowsArePrefix(log: seq<Row>, n: nat)
    requires PriorsLead(log, n)
    ensures Where(log, ByTrainingSet(Prior)) == log[..n]
  {
    var key := ByTrainingSet(Prior);
    var before, after := log[..n], log[n..];
    assert log == before + after;
    WhereAppend(before, after, key);
    assert forall i :: 0 <= i < |before| ==> Matches(before[i], key) by {
      forall i | 0 <= i < |before| ensures Matches(before[i], key) {
        assert before[i] == log[i];
      }
    }
    WhereAll(before, key);
    assert forall i :: 0 <= i < |after| ==> !Matches(after[i], key) by {
      forall i | 0 <= i < |after| ensures !Matches(after[i], key) {
        assert after[i] == log[n + i];
      }
    }
    WhereNone(after, key);
  }

  /** When the priors lead the log, query 0 is exactly the first n_priors rows, all columns. */
  lemma QueryZeroIsPriorPrefix(log: seq<Row>, n: nat)
    requires PriorsLead(log, n)
    ensures NPriors(log) == n
    ensures GetDataByQueryNumber(log, 0, AllColumns) == Ok(Project(log[..NPriors(log)], ResultsTableColumns))
  {
    PriorRowsArePrefix(log, n);
    assert QueryRows(log, 0) == log[..n];
  }

  /** Query numbers follow the order in which the training-set values first appear in the log. */
  lemma QueryNumbersFollowFirstAppearance(log: seq<Row>, k1: nat, k2: nat)
    requires 1 <= k1 < k2 <= |RoundValues(log)|
    ensures QueryValue(log, k1) in GetTrainingSets(log) && QueryValue(log, k2) in GetTrainingSets(log)
    ensures FirstIndex(GetTrainingSets(log), QueryValue(log, k1))
          < FirstIndex(GetTrainingSets(log), QueryValue(log, k2))
  {
    var ts := GetTrainingSets(log);
    var d := Distinct(ts);
    DistinctValuesOf(ts);
    DistinctFirstAppearance(ts);
    WithoutPairOrder(d, Prior, k1 - 1, k2 - 1);
    var w := Without(d, Prior);
    var a, b := FirstIndex(d, w[k1 - 1]), FirstIndex(d, w[k2 - 1]);
    assert a < b;
  }

  /** With the priors leading and one row per round, the rounds appear in log order. */
  lemma RoundValuesOfSingleRows(log: seq<Row>, n: nat)
    requires PriorsLead(log, n) && OneRowPerRound(log)
    ensures RoundValues(log) == GetTrainingSets(log[n..])
  {
    var before, after := log[..n], log[n..];
    var a, b := GetTrainingSets(before), GetTrainingSets(after);
    assert log == before + after;
    AccessorsOfAppend(before, after);
    assert forall x :: x in a ==> x == Prior by {
      forall i | 0 <= i < |a| ensures a[i] == Prior {
        assert a[i] == log[i].trainingSet;
      }
    }
    assert forall i :: 0 <= i < |b| ==> b[i] == log[n + i].trainingSet;
    assert Prior !in b;
    assert NoDuplicates(b);
    DistinctOfConstant(a, Prior);
    DistinctOfFresh(a, b);
    WithoutAbsent(b, Prior);
    if a != [] {
      assert ([Prior] + b)[1..] == b;
    }
  }

  /** With the priors leading and one row per round, query k is the single row k + n_priors - 1. */
  lemma QueryStartsAt(log: seq<Row>, n: nat, k: nat)
    requires PriorsLead(log, n) && OneRowPerRound(log)
    requires 1 <= k <= |log| - n
    ensures NPriors(log) == n
    ensures GetDataByQueryNumber(log, k, AllColumns)
         == Ok(Project([log[k + NPriors(log) - 1]], ResultsTableColumns))
  {
    QueryZeroIsPriorPrefix(log, n);
    RoundValuesOfSingleRows(log, n);
    var i := k + n - 1;
    assert QueryValue(log, k) == log[i].trainingSet;
    WhereSingle(log, ByTrainingSet(log[i].trainingSet), i);
  }

  // The record lookup

  predicate UniqueRecordIds(log: seq<Row>) {
    forall i, j :: 0 <= i < j < |log| ==> log[i].recordId != log[j].recordId
  }

  lemma SingleRowColumns(row: Row)
    ensures Get(Project([row], ResultsTableColumns), RecordIds) == Some([Int(row.recordId)])
    ensures Get(Project([row], ResultsTableColumns), TrainingSets) == Some([Int(row.trainingSet)])
  {
    ProjectGet([row], ResultsTableColumns, RecordIds);
    ProjectGet([row], ResultsTableColumns, TrainingSets);
    assert ColumnOf([row], RecordIds) == [Int(row.recordId)];
    assert ColumnOf([row], TrainingSets) == [Int(row.trainingSet)];
  }

  /** Looking up a logged record returns its own row, with its training set. */
  lemma RecordLookup(log: seq<Row>, i: nat)
    requires i < |log| && UniqueRecordIds(log)
    ensures GetDataByRecordId(log, log[i].recordId) == Ok(Project([log[i]], ResultsTableColumns))
    ensures Get(GetDataByRecordId(log, log[i].recordId).value, RecordIds) == Some([Int(log[i].recordId)])
    ensures Get(GetDataByRecordId(log, log[i].recordId).value, TrainingSets) == Some([Int(log[i].trainingSet)])
  {
    var key := ByRecordId(log[i].recordId);
    assert forall j :: 0 <= j < |log| && j != i ==> !Matches(log[j], key);
    WhereSingle(log, key, i);
    SingleRowColumns(log[i]);
  }
}
