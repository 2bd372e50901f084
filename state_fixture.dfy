/** The labeled records of the converted test state, and what the state's readers give for them. */
module StateFixture {
  import opened StateErrors
  import opened ResultsTable
  import opened Queries

  const TestLabels: seq<int> := [1, 0, 0, 1, 1, 1, 0, 1, 1, 1]
  const TestRecordIds: seq<int> := [17, 347, 510, 28, 12, 556, 555, 681, 265, 310]
  const TestClassifiers: seq<string> :=
    ["initial", "initial", "initial", "initial", "nb", "nb", "nb", "nb", "nb", "nb"]
  const TestQueryStrategies: seq<string> :=
    ["prior", "prior", "prior", "prior", "max", "max", "max", "max", "max", "max"]
  const TestBalanceStrategies: seq<string> :=
    ["initial", "initial", "initial", "initial", "double", "double", "double", "double", "double", "double"]
  const TestFeatureExtraction: seq<string> :=
    ["initial", "initial", "initial", "initial", "tfidf", "tfidf", "tfidf", "tfidf", "tfidf", "tfidf"]
  const TestTrainingSets: seq<int> := [-1, -1, -1, -1, 4, 5, 6, 7, 8, 9]

  /** The same log, row by row. */
  function TestLog(): seq<Row> {
    [ Row(17, 1, "initial", "prior", "initial", "initial", -1),
      Row(347, 0, "initial", "prior", "initial", "initial", -1),
      Row(510, 0, "initial", "prior", "initial", "initial", -1),
      Row(28, 1, "initial", "prior", "initial", "initial", -1),
      Row(12, 1, "nb", "max", "double", "tfidf", 4),
      Row(556, 1, "nb", "max", "double", "tfidf", 5),
      Row(555, 0, "nb", "max", "double", "tfidf", 6),
      Row(681, 1, "nb", "max", "double", "tfidf", 7),
      Row(265, 1, "nb", "max", "double", "tfidf", 8),
      Row(310, 1, "nb", "max", "double", "tfidf", 9) ]
  }

  /** The row list is what add_labeling_data stores for the test's parallel lists. */
  lemma TestLogIsZipped()
    ensures SameLength(TestRecordIds, TestLabels, TestClassifiers, TestQueryStrategies,
                       TestBalanceStrategies, TestFeatureExtraction, TestTrainingSets)
    ensures TestLog() == ZipRows(TestRecordIds, TestLabels, TestClassifiers, TestQueryStrategies,
                                 TestBalanceStrategies, TestFeatureExtraction, TestTrainingSets)
  {
  }

  lemma TestLogShape()
    ensures |TestLog()| == 10
    ensures PriorsLead(TestLog(), 4) && OneRowPerRound(TestLog())
  {
  }

  lemma TestLogUniqueIds()
    ensures UniqueRecordIds(TestLog())
  {
  }

  /** n_records_labeled is 10, n_priors is 4 and n_models is 7 on the test log. */
  lemma TestCounts()
    ensures NRecordsLabeled(TestLog()) == 10
    ensures NPriors(TestLog()) == 4
    ensures NModels(TestLog()) == 7
  {
    TestLogShape();
    QueryZeroIsPriorPrefix(TestLog(), 4);
    RoundValuesOfSingleRows(TestLog(), 4);
    NModelsCountsPriorRound(TestLog());
  }

  /** Query 0 is the four priors. */
  lemma TestQueryZero()
    ensures GetDataByQueryNumber(TestLog(), 0, AllColumns) == Ok(Project(TestLog()[..4], ResultsTableColumns))
  {
    TestLogShape();
    QueryZeroIsPriorPrefix(TestLog(), 4);
  }

  /** Queries 1, 3 and 5 begin at row query + n_priors - 1 of the test log. */
  lemma TestQueryStart(k: nat)
    requires k in {1, 3, 5}
    ensures GetDataByQueryNumber(TestLog(), k, AllColumns) == Ok(Project([TestLog()[k + 3]], ResultsTableColumns))
  {
    TestLogShape();
    QueryStartsAt(TestLog(), 4, k);
  }

  /** The test log has six model rounds after its priors: queries 1 to 6. */
  lemma TestRoundCount()
    ensures |RoundValues(TestLog())| == 6
  {
    var log := TestLog();
    TestLogShape();
    RoundValuesOfSingleRows(log, 4);
    assert |log[4..]| == 6;
  }

  /** A column subset of query 4 has exactly the columns given, in that order. */
  lemma TestQueryColumns()
    ensures GetDataByQueryNumber(TestLog(), 4, Subset(ResultsTableColumns[2..5])).Ok?
    ensures GetDataByQueryNumber(TestLog(), 4, Subset(ResultsTableColumns[2..5])).value.columns
         == [Classifiers, QueryStrategies, BalanceStrategies]
  {
    TestRoundCount();
    MiddleColumns();
  }

  lemma MiddleColumns()
    ensures ResultsTableColumns[2..5] == [Classifiers, QueryStrategies, BalanceStrategies]
  {
  }

  /** Looking up the records at positions 2, 6 and 8 gives their own training sets. */
  lemma TestRecordLookup(i: nat)
    requires i in {2, 6, 8}
    ensures GetDataByRecordId(TestLog(), TestRecordIds[i]).Ok?
    ensures Get(GetDataByRecordId(TestLog(), TestRecordIds[i]).value, RecordIds) == Some([Int(TestRecordIds[i])])
    ensures Get(GetDataByRecordId(TestLog(), TestRecordIds[i]).value, TrainingSets) == Some([Int(TestTrainingSets[i])])
  {
    TestLogUniqueIds();
    var log := TestLog();
    assert log[i].recordId == TestRecordIds[i] && log[i].trainingSet == TestTrainingSets[i];
    RecordLookup(log, i);
  }
}
