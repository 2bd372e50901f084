/** The review state store: the record table, the results log, the last probabilities and the
    read-only flag, updated in place by its writers. */
module ReviewState {
  import opened StateErrors
  import opened ResultsTable
  import opened Queries

  /** A review state; P is the type of one relevance probability. */
  class State<P> {
    var recordTable: seq<int>
    var results: seq<Row>
    var lastProbabilities: seq<P>
    const readOnly: bool

    /** open_state(path, read_only=False) on a path where no state exists yet. */
    constructor Create()
      ensures !readOnly && IsEmpty()
      ensures recordTable == [] && results == [] && lastProbabilities == []
    {
      recordTable, results, lastProbabilities := [], [], [];
      readOnly := false;
    }

    /** open_state on an existing state whose stored contents are given. */
    constructor Open(recordTable: seq<int>, results: seq<Row>, lastProbabilities: seq<P>, readOnly: bool)
      ensures this.recordTable == recordTable && this.results == results
      ensures this.lastProbabilities == lastProbabilities && this.readOnly == readOnly
    {
      this.recordTable, this.results, this.lastProbabilities := recordTable, results, lastProbabilities;
      this.readOnly := readOnly;
    }

    /** is_empty: nothing has been labeled yet, so no model has been trained either. */
    predicate IsEmpty()
      reads this
      ensures IsEmpty() <==> NRecordsLabeled(results) == 0
      ensures IsEmpty() <==> NModels(results) == 0
    {
      results == []
    }

    function GetRecordTable(): seq<int>
      reads this
    {
      recordTable
    }

    function GetLastProbabilities(): seq<P>
      reads this
    {
      lastProbabilities
    }

    /** add_labeling_data: append one row per position of the parallel lists, in list order. */
    method AddLabelingData(
      recordIds: seq<int>, labels: seq<int>, classifiers: seq<string>, queryStrategies: seq<string>,
      balanceStrategies: seq<string>, featureExtraction: seq<string>, trainingSets: seq<int>)
      returns (o: Outcome)
      modifies this`results
      ensures o == if !SameLength(recordIds, labels, classifiers, queryStrategies, balanceStrategies,
                                  featureExtraction, trainingSets) then Fail(UnequalColumns)
                   else if readOnly then Fail(ReadOnlyViolation)
                   else Done
      ensures o.Fail? ==> results == old(results)
      ensures o.Done? ==>
        var batch := ZipRows(recordIds, labels, classifiers, queryStrategies, balanceStrategies,
                             featureExtraction, trainingSets);
        && results == old(results) + batch
        && NRecordsLabeled(results) == NRecordsLabeled(old(results)) + |recordIds|
        && NPriors(results) == NPriors(old(results)) + NPriors(batch)
    {
      if !SameLength(recordIds, labels, classifiers, queryStrategies, balanceStrategies,
                     featureExtraction, trainingSets) {
        return Fail(UnequalColumns);
      }
      if readOnly {
        return Fail(ReadOnlyViolation);
      }
      var batch := ZipRows(recordIds, labels, classifiers, queryStrategies, balanceStrategies,
                           featureExtraction, trainingSets);
      CountsOfAppend(results, batch);
      results := results + batch;
      o := Done;
    }

    /** add_record_table: store the record ids of the dataset, in the order given. */
    method AddRecordTable(recordIds: seq<int>) returns (o: Outcome)
      modifies this`recordTable
      ensures readOnly ==> o == Fail(ReadOnlyViolation) && recordTable == old(recordTable)
      ensures !readOnly ==> o == Done && GetRecordTable() == recordIds
    {
      if readOnly {
        return Fail(ReadOnlyViolation);
      }
      recordTable := recordIds;
      o := Done;
    }

    /** add_last_probabilities: replace the stored probabilities as a whole. */
    method AddLastProbabilities(probabilities: seq<P>) returns (o: Outcome)
      modifies this`lastProbabilities
      ensures var stored := |old(lastProbabilities)|;
        stored != 0 && |probabilities| != stored ==>
          o == Fail(ProbabilityCountMismatch(stored, |probabilities|))
          && lastProbabilities == old(lastProbabilities)
      ensures var stored := |old(lastProbabilities)|;
        (stored == 0 || |probabilities| == stored) && readOnly ==>
          o == Fail(ReadOnlyViolation) && lastProbabilities == old(lastProbabilities)
      ensures var stored := |old(lastProbabilities)|;
        (stored == 0 || |probabilities| == stored) && !readOnly ==>
          o == Done && GetLastProbabilities() == probabilities
    {
      var stored := |lastProbabilities|;
      if stored != 0 && |probabilities| != stored {
        return Fail(ProbabilityCountMismatch(stored, |probabilities|));
      }
      if readOnly {
        return Fail(ReadOnlyViolation);
      }
      lastProbabilities := probabilities;
      o := Done;
    }
  }

  /** On a fresh state, label the first m rows one call at a time and the rest in one batch;
      get_dataset then gives back every list that was passed in, in order. */
  method AddLabelingDataInBatches(
    recordIds: seq<int>, labels: seq<int>, classifiers: seq<string>, queryStrategies: seq<string>,
    balanceStrategies: seq<string>, featureExtraction: seq<string>, trainingSets: seq<int>, m: nat)
    returns (data: Frame)
    requires SameLength(recordIds, labels, classifiers, queryStrategies, balanceStrategies,
                        featureExtraction, trainingSets)
    requires m <= |recordIds|
    ensures data.columns == ResultsTableColumns
    ensures Get(data, RecordIds) == Some(Ints(recordIds))
    ensures Get(data, Labels) == Some(Ints(labels))
    ensures Get(data, Classifiers) == Some(Texts(classifiers))
    ensures Get(data, QueryStrategies) == Some(Texts(queryStrategies))
    ensures Get(data, BalanceStrategies) == Some(Texts(balanceStrategies))
    ensures Get(data, FeatureExtraction) == Some(Texts(featureExtraction))
    ensures Get(data, TrainingSets) == Some(Ints(trainingSets))
  {
    var state := new State<real>.Create();
    for i := 0 to m
      invariant state.results == ZipRows(recordIds[..i], labels[..i], classifiers[..i],
        queryStrategies[..i], balanceStrategies[..i], featureExtraction[..i], trainingSets[..i])
    {
      var o := state.AddLabelingData([recordIds[i]], [labels[i]], [classifiers[i]], [queryStrategies[i]],
                                     [balanceStrategies[i]], [featureExtraction[i]], [trainingSets[i]]);
      ZipRowsStep(recordIds, labels, classifiers, queryStrategies, balanceStrategies,
                  featureExtraction, trainingSets, i);
    }
    var o := state.AddLabelingData(recordIds[m..], labels[m..], classifiers[m..], queryStrategies[m..],
                                   balanceStrategies[m..], featureExtraction[m..], trainingSets[m..]);
    ZipRowsSplit(recordIds, labels, classifiers, queryStrategies, balanceStrategies,
                 featureExtraction, trainingSets, m);
    var rows := ZipRows(recordIds, labels, classifiers, queryStrategies, balanceStrategies,
                        featureExtraction, trainingSets);
    assert state.results == rows;
    data := GetDataset(state.results, AllColumns);
    DatasetOfZipRows(recordIds, labels, classifiers, queryStrategies, balanceStrategies,
                     featureExtraction, trainingSets);
  }

  /** A fresh read-write state is empty; record ids stored in it come back in the order given. */
  method RecordTableRoundTrip(recordIds: seq<int>) returns (empty: bool, table: seq<int>)
    ensures empty
    ensures table == recordIds
  {
    var state := new State<real>.Create();
    empty := state.IsEmpty();
    var o := state.AddRecordTable(recordIds);
    table := state.GetRecordTable();
  }

  /** On a fresh state, probabilities stored are read back exactly, whatever their number. */
  method ProbabilitiesRoundTrip(probabilities: seq<real>) returns (got: seq<real>)
    ensures got == probabilities
  {
    var state := new State<real>.Create();
    var o := state.AddLastProbabilities(probabilities);
    got := state.GetLastProbabilities();
  }

  /** Probabilities of another count than the stored ones are refused, even through a read-only
      state, and the stored ones stay. */
  method MismatchedProbabilitiesRejected(
    results: seq<Row>, stored: seq<real>, probabilities: seq<real>, readOnly: bool)
    returns (o: Outcome, got: seq<real>)
    requires |stored| != 0 && |probabilities| != |stored|
    ensures o == Fail(ProbabilityCountMismatch(|stored|, |probabilities|))
    ensures got == stored
  {
    var state := new State<real>.Open([], results, stored, readOnly);
    o := state.AddLastProbabilities(probabilities);
    got := state.GetLastProbabilities();
  }

  /** Labeling data written through a read-only state is refused and the log keeps its rows. */
  method ReadOnlyWriteRejected(
    results: seq<Row>,
    recordIds: seq<int>, labels: seq<int>, classifiers: seq<string>, queryStrategies: seq<string>,
    balanceStrategies: seq<string>, featureExtraction: seq<string>, trainingSets: seq<int>)
    returns (o: Outcome, log: seq<Row>)
    requires SameLength(recordIds, labels, classifiers, queryStrategies, balanceStrategies,
                        featureExtraction, trainingSets)
    ensures o == Fail(ReadOnlyViolation)
    ensures log == results
  {
    var state := new State<real>.Open([], results, [], true);
    o := state.AddLabelingData(recordIds, labels, classifiers, queryStrategies, balanceStrategies,
                               featureExtraction, trainingSets);
    log := state.results;
  }
}
