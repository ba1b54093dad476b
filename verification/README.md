# AI vs human text classifier: a Dafny model of its core

This project models the logic of a small system that labels a piece of text as written by a
person or generated by an AI. The system has three parts, and each is modelled in its own Dafny
module:

- **The serving side** (`src/api.py`, module `Api`). It normalises the incoming text in three
  stages: delete newlines and apostrophes, delete the 32 characters of Python's
  `string.punctuation`, then lower-case. It scores the cleaned text and turns the score into one
  of three labels: above 75 is "Likely AI", below 30 is "Likely Human", anything else is
  "Some AI assistance used".
- **The dataset-cleaning script** (`src/data_cleaning.py`, module `DataCleaning`). It drops rows
  whose text is missing or blank. It then overwrites the text column three times, with the same
  three stages as the serving side, and finally drops rows with a missing text or label.
- **The training harness** (`src/model.py`, module `Model`). A fixed registry holds five
  classifiers. Naive Bayes is paired with a word-and-bigram count vectorizer; every other
  classifier gets a TF-IDF vectorizer. The harness walks the registry in order. For each name,
  it checks whether `<model_dir>/<name>.joblib` exists. If the path holds an artifact, the
  harness loads it. If the path holds something else, the load raises. If nothing is there, the
  harness fits the pipeline and writes the artifact. It scores each pipeline and reports one row
  per classifier, with a `retrained` flag. The first exception stops the run: the artifacts
  already written stay on disk, and no results table is written.

Shared pieces live in their own modules:

- `Text` defines the character classes and a one-pass reference definition of the normaliser,
  `Text.Normalize`. Both copies of the normaliser are proved against it.
- `Seqs` holds order-preserving filters and maps.
- `Wrappers` holds `Option` (a NaN cell) and `Result` (a raised exception).
- `Consistency` shows that training and serving normalise text identically, even though each
  file carries its own copy of the code.

The training harness is imperative, like its source. A `FileSystem` object holds the existing
directories, the other files, the artifact files (a map from path to fitted pipeline) and the
written results tables. `TrainAndEvaluate`, `TrainAll`, `TrainAndSave` and `RunHarness` update
that object and state its new contents. The cache bookkeeping is stated as a function over the
set of artifact files (`Cached`), and the lemmas about repeated runs are proved over the
outcome predicates that the methods guarantee (`AllTrained`, `RanAll`).

Fitting, prediction and the metrics are scikit-learn calls. They enter as the two opaque
functions of a `Learner` value. The train/test split that `load_data` returns enters as a
parameter. The model's confidence score enters `Api.Predict` as a function parameter.

The program contains no code that downloads a model artifact, so nothing of that is modelled.

The cleaning script does not drop rows whose text becomes empty after normalisation: a
non-blank row made only of punctuation survives with empty text
(`DataCleaning.NoiseOnlyRowBecomesEmpty`).

## Model

| member | source | states |
|---|---|---|
| Text.PunctuationRanges | src/api.py:53 | `string.punctuation` is exactly the ASCII code points 33-47, 58-64, 91-96 and 123-126 |
| Text.LowerChar | src/api.py:57-59 | lower-casing one character leaves no ASCII capital, shifts a capital by 32, leaves every other character as it is, and never turns a kept character into a deleted one or back |
| Text.Normalize | src/api.py:61-65 | the normalised text is no longer than the input and holds no newline, apostrophe, punctuation or ASCII capital |
| Text.StripAllSnoc | src/api.py:45-47 | deleting one more tag with `str.replace(tag, '')` is the same as deleting the longer tag list at once |
| Text.StripAllSpec | src/api.py:47 | deleting characters keeps every other character of the input, with every occurrence, in order |
| Text.NormalizeInStages | src/api.py:61-65 | tags, then punctuation, then lower case, run one after another, compute the one-pass normaliser |
| Text.NormalizeFixes | src/api.py:61-65 | text with no noise character and no capital is left unchanged |
| Text.NormalizeIdempotent | src/api.py:61-65 | normalising twice gives the same text as normalising once |
| Text.NormalizeOnlyNoise | src/api.py:61-65 | text made only of newlines, apostrophes and punctuation, including the empty text, normalises to "" |
| Text.NormalizeKeepsOrder | src/api.py:61-65 | the normalised text is the lower-cased subsequence of the input holding every non-noise character, each occurrence, in order |
| Api.GetLabel | src/api.py:35-41 | "Likely AI" iff score > 75, "Likely Human" iff score < 30, "Some AI assistance used" iff 30 <= score <= 75, so exactly one label always |
| Api.GetLabelMonotone | src/api.py:35-41 | a higher score never gives a label leaning less towards AI |
| Api.GetLabelBoundaries | src/api.py:36-39 | 75 and 30 fall in the middle band; 75.01 is AI, 29.99 is human, 50 is the middle band |
| Api.RemoveTags | src/api.py:43-48 | the loop over the tags deletes every newline and apostrophe and keeps every other character, each occurrence, in order |
| Api.RemovePunc | src/api.py:51-54 | the result has no punctuation and is the input with exactly the punctuation filtered out, order kept |
| Api.Lowercase | src/api.py:57-59 | same length, no ASCII capital left, capitals shifted to small letters, other characters unchanged |
| Api.CleanText | src/api.py:61-65 | the three stages compute `Text.Normalize`: no punctuation, newline or capital, and never longer than the input |
| Api.Predict | src/api.py:67-72 | the confidence is the score of the normalised text, and the label is that score's threshold label, one of the three |
| DataCleaning.RemoveMissing | src/data_cleaning.py:18-21 | the two filters keep exactly the rows with present, non-blank text, every copy of them, in their original order |
| DataCleaning.RemoveMissingIdempotent | src/data_cleaning.py:18-21 | removing missing rows a second time removes nothing |
| DataCleaning.RemoveTags | src/data_cleaning.py:24-29 | this copy of the tag loop deletes every newline and apostrophe and keeps every other character in order |
| DataCleaning.RemovePunc | src/data_cleaning.py:32-35 | this copy deletes exactly the punctuation and keeps every other character in order |
| DataCleaning.Lowercase | src/data_cleaning.py:38-40 | this copy lower-cases ASCII capitals and changes nothing else |
| DataCleaning.RemoveTagsColumn | src/data_cleaning.py:48 | the column pass replaces every row's text by its text without tags and leaves every other cell and the row order as they were |
| DataCleaning.RemovePuncColumn | src/data_cleaning.py:49 | the column pass replaces every row's text by its text without punctuation, nothing else changed |
| DataCleaning.LowercaseColumn | src/data_cleaning.py:50 | the column pass replaces every row's text by its lower-cased text, nothing else changed |
| DataCleaning.Cleaned | src/data_cleaning.py:43-52 | the cleaned frame is no longer than the input; every row in it has text and a label, and its text is already normalised |
| DataCleaning.CleanText | src/data_cleaning.py:43-52 | the missing-row filter, the three column passes and the label filter compute `Cleaned`: the surviving rows, in order, with normalised text |
| DataCleaning.StagesGiveCleaned | src/data_cleaning.py:46-51 | the three per-row passes equal the one-pass normaliser, and dropping unlabelled rows after them equals dropping them before |
| DataCleaning.CleanedRows | src/data_cleaning.py:43-52 | the output rows are the surviving input rows as a subsequence, every copy kept, each with its label unchanged and its text normalised |
| DataCleaning.NoiseOnlyRowBecomesEmpty | src/data_cleaning.py:46-51 | a non-blank labelled row made only of punctuation, newlines and apostrophes is kept, with text "" |
| Consistency.TrainingMatchesServing | src/data_cleaning.py:48-50 | the served text is the normalised raw text; a surviving row leaves the cleaning script with exactly the text the serving route computes for the same raw text, and its label unchanged |
| Model.Lookup | src/model.py:18-24 | the registry lookup succeeds exactly for the five registered names |
| Model.RegistryDistinct | src/model.py:18-24 | the registry holds five distinct names, none an absolute path |
| Model.BuildPipeline | src/model.py:34-46 | an unregistered name raises KeyError; otherwise two steps, vectorizer then classifier; counts iff the name is naive_bayes, TF-IDF otherwise; n-grams (1, 2) |
| Model.ArtifactPathInjective | src/model.py:51 | distinct relative names get distinct artifact files in the same directory |
| Model.RegistryPathsDistinct | src/model.py:51 | the five registered names have five distinct artifact files |
| Model.TrainAndEvaluate | src/model.py:49-87 | the model directory is created; an artifact at the path is loaded, with nothing written and retrained false; any other entry at the path makes the load raise; with nothing there, a registered name is fitted and written at its path only, retrained true, and an unregistered name raises KeyError; the result names the model and scores the artifact now on disk |
| Model.Cached | src/model.py:56-68 | training never removes an artifact file that was there |
| Model.CachedHas | src/model.py:56-68 | after training, a path is an artifact iff it was one before or is the artifact of a trained name |
| Model.CachedContents | src/model.py:56-68 | the same, for every file at once |
| Model.OnlyDeletedIsRetrained | src/model.py:56-68 | after a successful run, deleting one registered name's artifact makes the next successful run retrain that name only; every other classifier reports the scores it reported before |
| Model.ReportedStep | src/model.py:111-118 | appending one call's result keeps the report in registry order, flagged retrained iff the artifact was missing at the start, and scored from the file on disk |
| Model.ProgressStep | src/model.py:111-118 | the next registered name's call succeeds iff its artifact path is not held by another kind of entry; on success it extends the loop state by a correctly flagged and scored result, otherwise it raises a load error and writes nothing |
| Model.TrainAll | src/model.py:109-118 | the run succeeds iff no registered artifact path holds another kind of entry; then it gives one result per registered name in registry order, flagged retrained iff its artifact was missing and scored from the artifact now on disk, with existing artifacts untouched; otherwise it raises at the first such name, keeping the artifacts written before it, each holding the pipeline freshly fitted on the training split |
| Model.TrainAndSave | src/model.py:103-122 | both directories are created; `load_data` raises a load error on a dataset path that holds a directory, an artifact or a results table; otherwise the loop runs as `TrainAll` states, and the results table is written at the results path only when the loop succeeds |
| Model.RunHarness | src/model.py:90-123 | FileNotFound is raised iff the dataset path does not exist, and then nothing changes; otherwise it behaves as `TrainAndSave` on the paths built from the script directory |
| Model.RunLeavesEveryArtifact | src/model.py:56-68 | after a successful run every registered name's artifact is on disk, so none of their paths can make the next run fail |
| Model.RerunSameScores | src/model.py:56-58 | a second run over the artifacts a first run left changes no artifact, retrains nothing and reports the same accuracy and F1 for every classifier |
| Model.RerunIsCached | src/model.py:111-118 | a missing dataset makes the first run fail; when the first run succeeds, the second succeeds too, retrains nothing and reports the same accuracy and F1 |

## Left out

- Fetching the model artifact over the network: the program has no download code.
- FastAPI app construction, CORS and the route decorator (`src/api.py:11-29`): web plumbing. Only the clean → score → label composition is modelled, in `Api.Predict`.
- Loading the model when the module is imported, and the `MODEL_PATH` lookup (`src/api.py:8-9`): deserialisation and environment access.
- `get_confidence_score` (`src/api.py:31-33`): a floating-point probability times 100, rounded to two decimals. It is a function parameter of `Api.Predict`.
- `Api.GetLabel`: the score is a `real`, so a NaN score is not modelled; in Python a NaN fails both comparisons and gets the middle label.
- `Api.Lowercase` and `DataCleaning.Lowercase`: only ASCII capitals are lower-cased; full Unicode `str.lower()` is not modelled.
- `DataCleaning.RemoveMissing`: blank means all characters are ASCII whitespace (code points 9-13 and 28-32); Unicode whitespace recognised by `str.strip()` is not modelled.
- Cell values other than strings and integers: a `text` cell is a string or NaN, and a `generated` cell is an integer or NaN.
- CSV reading and writing in the cleaning script, its module-level run and its prints (`src/data_cleaning.py:5-8`, `src/data_cleaning.py:55-63`): file I/O.
- scikit-learn estimators, `fit`, `predict`, `accuracy_score`, `f1_score` and `train_test_split`: library code, represented by the opaque functions of `Model.Learner` and by the `data` split parameter.
- `Model.TrainAndEvaluate`: exceptions raised inside `fit` or `predict` are not modelled, and neither is a corrupt artifact file. `joblib.load` on a path that holds a directory, a results table or another file is modelled as a `LoadError`.
- `Model.TrainAndEvaluate` and `Model.RunHarness`: the latency measurement and its rounding (`src/model.py:54`, `src/model.py:70`, `src/model.py:85`) are not modelled, because they read the wall clock; the result row has no latency column.
- `Model.BuildPipeline`: the registry's estimators are values here. In Python, `MODELS` holds one shared estimator object per name, and fitting a pipeline also mutates that shared object.
- `Model.TrainAndEvaluate`, `Model.TrainAndSave` and `Model.RunHarness`: `os.makedirs` is modelled as adding the directory to a set. Parent directories are not modelled. Neither is the `FileExistsError` it raises when a file already holds that path.
- `Model.TrainAndSave` and `Model.RunHarness`: `to_csv` at the results path is modelled as recording a table there. The error when that path is a directory is not modelled, and neither is the file or artifact it would overwrite.
- `Model.TrainAndEvaluate` and `Model.RunHarness`: a path is a plain string. Paths are not normalised (`..`, repeated separators, symbolic links), so two spellings of one file count as two paths. `Model.FileSystem` does not force the four kinds of entry (directories, files, artifacts, tables) onto disjoint paths; where one path is recorded as an artifact and as another kind, the artifact is loaded.
- `tqdm` progress bars and all printing: output only.
- Concurrent runs against the same directory: the source is single-threaded.
