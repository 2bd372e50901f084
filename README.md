# Review state store, modelled in Dafny

This project models the review state of an active-learning screening tool: the store that
`open_state` returns. The store has four parts:

- the **record table**: the ordered record ids of the dataset;
- the **results log**: one row per labeling decision, with the columns `record_ids, labels,
  classifiers, query_strategies, balance_strategies, feature_extraction, training_sets`;
- the **last probabilities**: a vector that is replaced as a whole;
- the **read-only flag**: fixed when the store is opened.

Every view of the log is derived from the log itself. These views are the counts
(`n_records_labeled`, `n_priors`, `n_models`), the column projection (`get_dataset`), the
per-query slices (`get_data_by_query_number`), the per-record lookup (`get_data_by_record_id`) and
the single-column accessors.

The store's implementation file is not part of this model. The behaviour modelled is the one that
`tests/test_state.py` asserts.

Modules:

- `StateErrors` (`state_errors.dfy`): the refusals a store reports, and `Option`, `Result` and
  `Outcome`, which carry them.
- `DistinctValues` (`distinct_values.dfy`): the distinct values of a sequence, in first-appearance
  order. Training-set values are numbered into queries this way.
- `ResultsTable` (`results_table.dfy`): the row, the columns, `RESULTS_TABLE_COLUMNS`, and frames.
  A frame is a column-by-column projection of rows. The module also holds the typed accessors and
  the rows that `add_labeling_data` builds from its parallel lists.
- `Queries` (`queries.dfy`): the derived views as pure functions of the log, and the lemmas about
  them.
- `ReviewState` (`review_state.dfy`): the store as a class. Its fields are updated in place by
  `AddLabelingData`, `AddRecordTable` and `AddLastProbabilities`. Client methods replay the test
  scenarios against the class contracts.
- `StateFixture` (`state_fixture.dfy`): the ten labeled rows of the converted test state, and the
  values the readers give on them.

Query numbering: query 0 is the rows whose training set is −1 (the priors). For k ≥ 1, query k is
the rows whose training set is the k-th distinct non-prior value, in first-appearance order.
`n_models` counts the distinct training-set values with −1 included. On the test data
`[-1,-1,-1,-1,4,5,6,7,8,9]` this gives 7, one more than the number of model rounds
(`NModelsCountsPriorRound`).

## Model

| member | source | states |
|---|---|---|
| `DistinctValues.Distinct` | tests/test_state.py:93-95 | the distinct values are never more than the input values, and there are none exactly when the input is empty |
| `DistinctValues.SurvivorPosition` | tests/test_state.py:130-136 | the i-th value that dropping −1 keeps sits at some position of the list it was dropped from |
| `DistinctValues.SurvivorPositionsIncrease` | tests/test_state.py:130-136 | the kept values sit at strictly increasing positions of that list, so dropping −1 keeps their order |
| `DistinctValues.WithoutPairOrder` | tests/test_state.py:130-136 | in a repetition-free list, of two kept values the earlier one also occurs first in that list |
| `DistinctValues.DistinctValuesOf` | tests/test_state.py:27-31 | the distinct training-set values are exactly the values of the input, none repeated |
| `DistinctValues.WithoutValues` | tests/test_state.py:130-136 | dropping −1 from the distinct values keeps every other value and no −1 |
| `DistinctValues.DistinctFirstAppearance` | tests/test_state.py:130-136 | every distinct value occurs in the input, and distinct values are listed in strictly increasing order of their first position in the log |
| `DistinctValues.DistinctCount` | tests/test_state.py:93-95 | the number of distinct values equals the size of the set of values |
| `DistinctValues.DistinctOfFresh` | tests/test_state.py:130-136 | appending values absent from the prefix, each once, appends them unchanged to the distinct list |
| `DistinctValues.WithoutOfNoDuplicates` | tests/test_state.py:93-95 | dropping −1 from a repetition-free list removes exactly one element if −1 occurs, none otherwise |
| `ResultsTable.ProjectGet` | tests/test_state.py:114-120 | a projection has exactly the requested columns in the order given; looking up a requested column gives that column of every row in log order, and other columns are absent |
| `ResultsTable.ZipRowsColumns` | tests/test_state.py:259-265 | each column of the rows built from the parallel lists is the list given for that column |
| `ResultsTable.ZipRowsSplit` | tests/test_state.py:250-265 | rows built from a prefix of the lists, followed by rows built from the rest, are the rows built from the whole lists |
| `ResultsTable.ZipRowsStep` | tests/test_state.py:250-257 | adding the single-position rows of position i to those of the first i positions gives those of the first i + 1 positions |
| `ResultsTable.ColumnOfAppend` | tests/test_state.py:267-274 | every column of an appended log is the concatenation of the columns of its parts |
| `ResultsTable.GetQueryStrategies` | tests/test_state.py:153-156 | `get_query_strategies` gives, row by row, the `query_strategies` column that `get_dataset` projects |
| `ResultsTable.GetClassifiers` | tests/test_state.py:159-162 | `get_classifiers` gives, row by row, the `classifiers` column that `get_dataset` projects |
| `ResultsTable.GetTrainingSets` | tests/test_state.py:165-168 | `get_training_sets` gives, row by row, the `training_sets` column that `get_dataset` projects |
| `ResultsTable.GetOrderOfLabeling` | tests/test_state.py:171-174 | `get_order_of_labeling` gives, row by row in log order, the `record_ids` column that `get_dataset` projects |
| `ResultsTable.GetLabels` | tests/test_state.py:177-180 | `get_labels` gives, row by row, the `labels` column that `get_dataset` projects |
| `ResultsTable.AccessorsOfAppend` | tests/test_state.py:247-274 | each single-column accessor of an appended log is the accessor of the earlier rows followed by that of the new ones |
| `Queries.NRecordsLabeled` | tests/test_state.py:87-89 | `n_records_labeled` is the number of record ids in the order of labeling, and of labels |
| `Queries.NPriors` | tests/test_state.py:98-100 | `n_priors` is never more than `n_records_labeled` |
| `Queries.NModels` | tests/test_state.py:93-95 | `n_models` is at most `n_records_labeled`, and zero exactly when nothing is labeled |
| `Queries.RoundValues` | tests/test_state.py:130-136 | the training-set values that number queries 1, 2, … hold no −1 and no value twice |
| `Queries.QueryRows` | tests/test_state.py:123-140 | the rows of query k are logged rows, never more than the log, all with query k's training-set value |
| `Queries.QueryNumbersFollowFirstAppearance` | tests/test_state.py:130-136 | for query numbers 1 ≤ k1 < k2, the training set of query k1 first appears in the log before that of query k2 |
| `Queries.Where` | tests/test_state.py:143-150 | a selection never holds more rows than the log |
| `Queries.WhereMembers` | tests/test_state.py:143-150 | the selected rows are exactly the log rows matching the key, which is a training set or a record id |
| `Queries.GetDataset` | tests/test_state.py:109-120 | `get_dataset` has the selected columns: all of them, one by name, or a list |
| `Queries.GetDataByQueryNumber` | tests/test_state.py:123-140 | a query number is answered iff it is at most the number of model rounds, otherwise `QueryNotFound(k)`; the answer has the selected columns in the order given |
| `Queries.GetDataByRecordId` | tests/test_state.py:143-150 | a record is answered iff its id is among the logged record ids, otherwise `RecordNotFound`; the answer carries all columns in table order |
| `Queries.DatasetOfZipRows` | tests/test_state.py:267-274 | `get_dataset` over the rows stored from the parallel lists gives back each list, column by column |
| `Queries.WhereAppend` | tests/test_state.py:247-265 | selecting on an appended log equals selecting on each part and concatenating the results |
| `Queries.WhereSingle` | tests/test_state.py:143-150 | a key matched by exactly one row selects exactly that row |
| `Queries.CountsOfAppend` | tests/test_state.py:87-100 | `n_records_labeled` and `n_priors` of an appended log are the sums over the parts; the order of labeling is the concatenation |
| `Queries.NPriorsIsPriorMultiplicity` | tests/test_state.py:98-100 | `n_priors` is the number of times −1 occurs among the training sets |
| `Queries.HasPriorsIff` | tests/test_state.py:98-100 | there is at least one prior row iff −1 occurs among the training sets |
| `Queries.HasRecordIff` | tests/test_state.py:143-150 | some row holds a record id iff that id occurs in the order of labeling |
| `Queries.NModelsCountsPriorRound` | tests/test_state.py:93-95 | `n_models` is the number of distinct training-set values, which is one for the prior round (when there are priors) plus the number of model rounds |
| `Queries.QueriesPartitionLog` | tests/test_state.py:123-140 | every logged row lies in some query, and in only one |
| `Queries.PriorRowsArePrefix` | tests/test_state.py:123-128 | when the n priors lead the log, the prior rows are exactly its first n rows |
| `Queries.WhereNone` | tests/test_state.py:143-150 | a key no row matches selects nothing |
| `Queries.QueryZeroIsPriorPrefix` | tests/test_state.py:123-128 | when the n priors lead the log, `n_priors` is n and query 0 is exactly the first `n_priors` rows with every column, in table order |
| `Queries.RoundValuesOfSingleRows` | tests/test_state.py:130-136 | with the priors leading and one row per model round, the model rounds are numbered in log order |
| `Queries.QueryStartsAt` | tests/test_state.py:130-136 | with the priors leading and one row per model round, query k (k ≥ 1) is the single row `k + n_priors - 1` |
| `Queries.RecordLookup` | tests/test_state.py:143-150 | with unique record ids, looking up a logged record gives its own row, whose `record_ids` and `training_sets` columns are that row's values |
| `ReviewState.State.Create` | tests/test_state.py:189-192 | a state created read-write on a new path is not read-only, is empty, and has empty record table, log and probabilities |
| `ReviewState.State.Open` | tests/test_state.py:46-48 | opening an existing state yields its stored record table, log, probabilities and read-only flag |
| `ReviewState.State.IsEmpty` | tests/test_state.py:189-192 | `is_empty` holds iff no record is labeled, and iff no model is counted |
| `ReviewState.State.GetRecordTable` | tests/test_state.py:201-217 | `get_record_table` reads the stored record ids and has no contract of its own; what it returns after `add_record_table` is the contract of `ReviewState.RecordTableRoundTrip` |
| `ReviewState.State.GetLastProbabilities` | tests/test_state.py:220-244 | `get_last_probabilities` reads the stored vector and has no contract of its own; what it returns after `add_last_probabilities` is the contract of `ReviewState.ProbabilitiesRoundTrip` |
| `ReviewState.State.AddLabelingData` | tests/test_state.py:56-68 | unequal parallel lists give `UnequalColumns` and a read-only state gives `ReadOnlyViolation`, both leaving the log unchanged; otherwise one row per position is appended in list order, `n_records_labeled` grows by the batch length and `n_priors` by the batch's priors |
| `ReviewState.State.AddRecordTable` | tests/test_state.py:209-217 | on a writable state the record table afterwards is the ids in the given order; a read-only state refuses and keeps it |
| `ReviewState.State.AddLastProbabilities` | tests/test_state.py:228-244 | a vector whose length differs from already stored probabilities is refused with both counts, before the read-only rejection, and nothing changes; otherwise a writable state stores exactly the given vector |
| `ReviewState.AddLabelingDataInBatches` | tests/test_state.py:247-274 | labeling the first m rows one call at a time and the rest in one batch leaves every column of `get_dataset` equal to the list given for it |
| `ReviewState.RecordTableRoundTrip` | tests/test_state.py:209-217 | a fresh state is empty, and `get_record_table` returns the ids just added, in order |
| `ReviewState.ProbabilitiesRoundTrip` | tests/test_state.py:238-244 | on a fresh state, `get_last_probabilities` returns exactly the vector just added |
| `ReviewState.MismatchedProbabilitiesRejected` | tests/test_state.py:228-235 | with probabilities stored, a vector of another length is refused with `ProbabilityCountMismatch`, also on a read-only state, and the stored vector is kept |
| `ReviewState.ReadOnlyWriteRejected` | tests/test_state.py:56-68 | writing labeling data through a read-only state is refused and the log keeps its rows |
| `StateFixture.TestLogIsZipped` | tests/test_state.py:17-29 | the test log is the rows that `add_labeling_data` builds from the test's parallel lists |
| `StateFixture.TestLogShape` | tests/test_state.py:27-30 | the test log has ten rows, its four priors lead, and each model round has one row |
| `StateFixture.TestLogUniqueIds` | tests/test_state.py:19 | the test log's record ids are unique |
| `StateFixture.TestCounts` | tests/test_state.py:87-100 | on the test log `n_records_labeled` is 10, `n_priors` is 4 and `n_models` is 7 |
| `StateFixture.TestQueryZero` | tests/test_state.py:125-128 | on the test log query 0 is the first four rows with every column |
| `StateFixture.TestQueryStart` | tests/test_state.py:130-136 | on the test log queries 1, 3 and 5 are the single rows 4, 6 and 8 |
| `StateFixture.TestRoundCount` | tests/test_state.py:130-140 | the test log has six model rounds after its priors, so queries 1 to 6 exist |
| `StateFixture.TestQueryColumns` | tests/test_state.py:138-140 | on the test log query 4 exists, and its subset of columns 2 to 4 keeps exactly those columns in order |
| `StateFixture.TestRecordLookup` | tests/test_state.py:143-150 | looking up the records at positions 2, 6 and 8 gives their own record id and training set |

## Left out

- Persistence is not modelled: the HDF5/SQLite file, flushing, closing and the scoped `with` block. So is the `StateNotFoundError` for a read-only open of a missing path (tests/test_state.py:37-43). `State.Create` stands for a read-write open of a new path. `State.Open` stands for opening an existing file, with its stored contents passed in as parameters.
- The `version` string, the `settings` object, printing the state and `_is_valid_state` are not modelled (tests/test_state.py:51-53, 71-78, 103-106). They are file metadata or diagnostics.
- The feature matrix (tests/test_state.py:195-198) and labeling times (tests/test_state.py:183-187) are not modelled. Callers never supply times, and the tests only check their container type.
- `current_queries` is not modelled (tests/test_state.py:81-84). The tests only check that it is a non-empty dictionary on a fixture file.
- Probabilities have an opaque element type `P`. Floating-point values are not modelled; only their count and identity matter.
- pandas `DataFrame`/`Series` types are modelled as `Frame` and as sequences. Column names are a datatype, so an unknown column name cannot be written.
- A single-name selection (`Single`) is shown only for `get_dataset` (tests/test_state.py:120). The model also accepts it in `get_data_by_query_number`.
- The tests do not show several behaviours, so the model does not include them. These are: duplicate-record rejection, ordered labeling times, checking record ids against the record table, and refusing a second `add_record_table`.
- Exclusive-writer locking, concurrent readers and use after close are not modelled, because the model is sequential.
- Four error paths are not shown by the tests, and the model chooses them:
  - A query number beyond the last model round gives `QueryNotFound`.
  - An id with no logged row gives `RecordNotFound`.
  - Parallel lists of unequal length give `UnequalColumns`. This check runs before the read-only check.
  - The read-only check applies to all three writers. The tests show it only for `add_labeling_data`.
- The probability length check compares the new length with the probabilities already stored, not with the record table; a store with no probabilities accepts any length. The tests show both cases (tests/test_state.py:228-244). The check runs before the read-only rejection, because the test expects the length error on a store opened with the default read-only mode.
