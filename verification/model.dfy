/**
 * The training harness: a fixed registry of classifiers, the pipeline built for each, and a run
 * that trains each registered classifier at most once per model directory, caching the fitted
 * pipeline as an artifact file, and reports one evaluation per classifier in registry order.
 * Fitting, prediction and the metrics are library code and enter as the opaque functions of a
 * `Learner`.
 */
module Model {
  import opened Wrappers
  import Seqs

  /**
   * The exceptions the harness can raise: `MODELS[name]` on an unregistered name, the dataset
   * check of `main`, `load_data` on a dataset path that holds a directory, an artifact or a results
   * table (reading the `text` column fails), and `joblib.load` on an artifact path that holds
   * another kind of entry.
   */
  datatype Error = KeyError(key: string) | FileNotFound(path: string) | LoadError(path: string)

  /** The estimators of `MODELS` with the hyper-parameters they are created with. */
  datatype Estimator =
    | MultinomialNB
    | LogisticRegression(maxIter: nat)
    | RandomForest(nEstimators: nat, randomState: int)
    | GradientBoosting(nEstimators: nat, learningRate: real, randomState: int)
    | LinearSVC(maxIter: nat)

  /** The keys of `MODELS`, in the dictionary's (insertion) order. */
  const Models: seq<string> :=
    ["naive_bayes", "logistic_regression", "random_forest", "gradient_boosting", "linear_svc"]

  /** `MODELS[name]`, or `None` where the lookup raises `KeyError`. */
  function Lookup(name: string): (e: Option<Estimator>)
    ensures e.Some? <==> name in Models
    ensures name == "naive_bayes" <==> e == Some(MultinomialNB)
  {
    if name == "naive_bayes" then Some(MultinomialNB)
    else if name == "logistic_regression" then Some(LogisticRegression(1000))
    else if name == "random_forest" then Some(RandomForest(100, 42))
    else if name == "gradient_boosting" then Some(GradientBoosting(100, 0.1, 42))
    else if name == "linear_svc" then Some(LinearSVC(1000))
    else None
  }

  /** The registry holds five distinct names, none of them an absolute path. */
  lemma RegistryDistinct()
    ensures |Models| == 5
    ensures forall i, j :: 0 <= i < j < |Models| ==> Models[i] != Models[j]
    ensures forall i :: 0 <= i < |Models| ==> IsRelative(Models[i])
  {
  }

  datatype Vectorizer =
    | CountVectorizer(ngramMin: nat, ngramMax: nat)
    | TfidfVectorizer(ngramMin: nat, ngramMax: nat)

  datatype Step = Vectorize(vectorizer: Vectorizer) | Classify(estimator: Estimator)

  /** A scikit-learn `Pipeline`: named steps applied in order. */
  datatype Pipeline = Pipeline(steps: seq<(string, Step)>)

  /**
   * `build_pipeline`: a vectorizer over words and bigrams, then the registered classifier. Naive
   * Bayes gets raw counts; every other classifier gets TF-IDF weights. An unregistered name
   * raises `KeyError` before any vectorizer is chosen.
   */
  function BuildPipeline(name: string): (r: Result<Pipeline, Error>)
    ensures r.Ok? <==> name in Models
    ensures r.Err? ==> r.error == KeyError(name)
    ensures r.Ok? ==>
      && |r.value.steps| == 2
      && r.value.steps[0].0 == "vectorizer" && r.value.steps[0].1.Vectorize?
      && r.value.steps[1].0 == "clf" && r.value.steps[1].1 == Classify(Lookup(name).value)
      && var v := r.value.steps[0].1.vectorizer;
         && (v.CountVectorizer? <==> name == "naive_bayes")
         && v.ngramMin == 1 && v.ngramMax == 2
  {
    match Lookup(name)
    case None => Err(KeyError(name))
    case Some(model) =>
      var vectorizer := if name == "naive_bayes" then CountVectorizer(1, 2) else TfidfVectorizer(1, 2);
      Ok(Pipeline([("vectorizer", Vectorize(vectorizer)), ("clf", Classify(model))]))
  }

  /** A path component that `os.path.join` does not treat as absolute. */
  predicate IsRelative(part: string)
  {
    part == [] || part[0] != '/'
  }

  /** The prefix `os.path.join(dir, part)` puts before a relative `part`. */
  function JoinPrefix(dir: string): string
  {
    if dir == [] || dir[|dir| - 1] == '/' then dir else dir + "/"
  }

  /** POSIX `os.path.join(dir, part)`: an absolute `part` replaces `dir`; otherwise one separator joins them. */
  function Join(dir: string, part: string): string
  {
    if !IsRelative(part) then part
    else JoinPrefix(dir) + part
  }

  /** `os.path.join(dir, *parts)`. */
  function JoinAll(dir: string, parts: seq<string>): string
    decreases |parts|
  {
    if parts == [] then dir else JoinAll(Join(dir, parts[0]), parts[1..])
  }

  /** The artifact file of `name`: `os.path.join(model_dir, f"{name}.joblib")`. */
  function ArtifactPath(dir: string, name: string): string
  {
    Join(dir, name + ".joblib")
  }

  /** Distinct relative names have distinct artifact files in the same directory. */
  lemma ArtifactPathInjective(dir: string, a: string, b: string)
    requires IsRelative(a) && IsRelative(b)
    requires a != b
    ensures ArtifactPath(dir, a) != ArtifactPath(dir, b)
  {
    var pre := JoinPrefix(dir);
    var pa, pb := ArtifactPath(dir, a), ArtifactPath(dir, b);
    assert pa == pre + (a + ".joblib") && pb == pre + (b + ".joblib");
    if |a| == |b| {
      var k :| 0 <= k < |a| && a[k] != b[k];
      assert pa[|pre| + k] == a[k] && pb[|pre| + k] == b[k];
    } else {
      assert |pa| != |pb|;
    }
  }

  /** The artifact file of each name, in order. */
  function ArtifactPaths(dir: string, names: seq<string>): seq<string>
  {
    seq(|names|, i requires 0 <= i < |names| => ArtifactPath(dir, names[i]))
  }

  /** Every registered name has its own artifact file. */
  lemma RegistryPathsDistinct(dir: string)
    ensures var paths := ArtifactPaths(dir, Models);
      forall i, j :: 0 <= i < j < |Models| ==> paths[i] != paths[j]
  {
    RegistryDistinct();
    var paths := ArtifactPaths(dir, Models);
    forall i, j | 0 <= i < j < |Models|
      ensures paths[i] != paths[j]
    {
      ArtifactPathInjective(dir, Models[i], Models[j]);
    }
  }

  /** The train/test split that `load_data` returns for the dataset. */
  datatype Split = Split(xTrain: seq<string>, xTest: seq<string>, yTrain: seq<int>, yTest: seq<int>)

  /** A fitted pipeline, as serialised to an artifact file: the pipeline and its learned parameters. */
  datatype Fitted = Fitted(pipeline: Pipeline, params: seq<real>)

  datatype Scores = Scores(accuracy: real, f1Score: real)

  /** The library calls the harness makes: `fit`, and `predict` followed by accuracy and weighted F1. */
  datatype Learner = Learner(
    fit: (Pipeline, seq<string>, seq<int>) -> seq<real>,
    score: (Fitted, seq<string>, seq<int>) -> Scores)

  /** One row of the results table (the latency column is not modelled). */
  datatype EvalResult = EvalResult(model: string, accuracy: real, f1Score: real, retrained: bool)

  /** The pipeline `p` fitted on the training part of `data`. */
  function Trained(p: Pipeline, data: Split, learner: Learner): Fitted
  {
    Fitted(p, learner.fit(p, data.xTrain, data.yTrain))
  }

  /** The part of the file system the harness reads and writes. */
  class FileSystem {
    /** Directories that exist. */
    var dirs: set<string>
    /** Other files that exist, such as the cleaned dataset. */
    var files: set<string>
    /** Artifact files and the fitted pipeline each one holds. */
    var artifacts: map<string, Fitted>
    /** Results tables written by `to_csv`. */
    var tables: map<string, seq<EvalResult>>

    constructor (dirs: set<string>, files: set<string>, artifacts: map<string, Fitted>)
      ensures this.dirs == dirs && this.files == files && this.artifacts == artifacts && tables == map[]
    {
      this.dirs := dirs;
      this.files := files;
      this.artifacts := artifacts;
      tables := map[];
    }

    /** The paths that exist but hold no artifact: directories, other files and results tables. */
    function Others(): set<string>
      reads this
    {
      dirs + files + tables.Keys
    }

    /** `os.path.exists(p)`: true for an entry of any kind. */
    predicate Exists(p: string)
      reads this
    {
      p in artifacts || p in Others()
    }
  }

  /**
   * One call of `train_and_evaluate_model` on `name`, seen through the artifact files before and
   * after, with `others` the paths that exist but hold no artifact when the call checks its path:
   * an existing artifact is loaded and nothing is written, not retrained; any other entry at the
   * path makes `joblib.load` raise; a missing file is fitted from the registry's pipeline and
   * written at its path only, retrained; an unregistered name with no file raises KeyError.
   * A result names the model and scores the artifact on file.
   */
  ghost predicate Evaluated(before: map<string, Fitted>, after: map<string, Fitted>, others: set<string>,
                            name: string, modelDir: string, data: Split, learner: Learner,
                            r: Result<EvalResult, Error>)
  {
    var path := ArtifactPath(modelDir, name);
    && (if path in before then
          after == before && r.Ok? && !r.value.retrained
        else if path in others then
          after == before && r == Err(LoadError(path))
        else if name in Models then
          && after == before[path := Trained(BuildPipeline(name).value, data, learner)]
          && r.Ok? && r.value.retrained
        else
          after == before && r == Err(KeyError(name)))
    && (r.Ok? ==>
          && path in after
          && r.value.model == name
          && Scores(r.value.accuracy, r.value.f1Score) == learner.score(after[path], data.xTest, data.yTest))
  }

  /**
   * `train_and_evaluate_model`: reuse the artifact of `name` if its file exists; otherwise build
   * and fit the pipeline and write the artifact. Either way, score the pipeline now on file.
   */
  method TrainAndEvaluate(fs: FileSystem, name: string, data: Split, modelDir: string, learner: Learner)
    returns (r: Result<EvalResult, Error>)
    modifies fs
    ensures fs.dirs == old(fs.dirs) + {modelDir}
    ensures fs.files == old(fs.files) && fs.tables == old(fs.tables)
    ensures Evaluated(old(fs.artifacts), fs.artifacts, fs.Others(), name, modelDir, data, learner, r)
  {
    fs.dirs := fs.dirs + {modelDir};
    var modelPath := ArtifactPath(modelDir, name);
    var retrained := false;
    var pipeline: Fitted;
    if fs.Exists(modelPath) {
      if modelPath !in fs.artifacts {
        return Err(LoadError(modelPath));
      }
      pipeline := fs.artifacts[modelPath];
    } else {
      var built := BuildPipeline(name);
      if built.Err? {
        return Err(built.error);
      }
      pipeline := Trained(built.value, data, learner);
      fs.artifacts := fs.artifacts[modelPath := pipeline];
      retrained := true;
    }
    var scores := learner.score(pipeline, data.xTest, data.yTest);
    r := Ok(EvalResult(name, scores.accuracy, scores.f1Score, retrained));
  }

  /**
   * The artifact files present after training, in turn, the names whose artifact files are
   * `paths`, starting from the artifact files `present`.
   */
  function Cached(present: set<string>, paths: seq<string>): (c: set<string>)
    ensures present <= c
    decreases |paths|
  {
    if paths == [] then present
    else Cached(present, paths[..|paths| - 1]) + {paths[|paths| - 1]}
  }

  /** After a run, a file is an artifact exactly when it was one before or is the artifact of a trained name. */
  lemma {:induction false} CachedHas(present: set<string>, paths: seq<string>, p: string)
    ensures p in Cached(present, paths) <==> p in present || p in paths
    decreases |paths|
  {
    if paths != [] {
      var init := paths[..|paths| - 1];
      CachedHas(present, init, p);
      assert paths == init + [paths[|paths| - 1]];
    }
  }

  lemma CachedContents(present: set<string>, paths: seq<string>)
    ensures forall p :: p in Cached(present, paths) <==> p in present || p in paths
  {
    forall p {
      CachedHas(present, paths, p);
    }
  }

  /** An artifact path that was not an artifact at the start but exists as an entry of another kind. */
  predicate Blocked(start: set<string>, others: set<string>, p: string)
  {
    p !in start && p in others
  }

  /**
   * What the harness has reported after the names whose artifact files are `paths`: one result
   * per name, in order, flagged as retrained exactly when its artifact was missing at the start,
   * and scored from the artifact now on file, the freshly trained pipeline whenever it was retrained.
   */
  ghost predicate Reported(results: seq<EvalResult>, artifacts: map<string, Fitted>, start: set<string>,
                           names: seq<string>, paths: seq<string>, data: Split, learner: Learner)
  {
    && |results| == |names| == |paths|
    && forall j :: 0 <= j < |names| ==>
         && results[j].model == names[j]
         && results[j].retrained == (paths[j] !in start)
         && paths[j] in artifacts
         && Scores(results[j].accuracy, results[j].f1Score) == learner.score(artifacts[paths[j]], data.xTest, data.yTest)
         && (results[j].retrained ==> names[j] in Models && artifacts[paths[j]] == Trained(BuildPipeline(names[j]).value, data, learner))
  }

  /** The report's entry for the `i`-th name. */
  lemma ReportedAt(results: seq<EvalResult>, artifacts: map<string, Fitted>, start: set<string>,
                   names: seq<string>, paths: seq<string>, data: Split, learner: Learner, i: int)
    requires Reported(results, artifacts, start, names, paths, data, learner)
    requires 0 <= i < |names|
    ensures results[i].retrained == (paths[i] !in start)
    ensures paths[i] in artifacts
    ensures Scores(results[i].accuracy, results[i].f1Score) == learner.score(artifacts[paths[i]], data.xTest, data.yTest)
  {
  }

  /** One more call of `train_and_evaluate_model` on a name with its own artifact file extends the report. */
  lemma ReportedStep(results: seq<EvalResult>, before: map<string, Fitted>, after: map<string, Fitted>,
                     start: set<string>, names: seq<string>, paths: seq<string>, name: string, path: string,
                     result: EvalResult, data: Split, learner: Learner)
    requires Reported(results, before, start, names, paths, data, learner)
    requires before.Keys == Cached(start, paths)
    requires path !in paths
    requires path in after
    requires after == before || (path !in before && after == before[path := after[path]])
    requires result.model == name && result.retrained == (path !in before)
    requires Scores(result.accuracy, result.f1Score) == learner.score(after[path], data.xTest, data.yTest)
    requires result.retrained ==> name in Models && after[path] == Trained(BuildPipeline(name).value, data, learner)
    ensures Reported(results + [result], after, start, names + [name], paths + [path], data, learner)
    ensures after.Keys == Cached(start, paths + [path])
  {
    CachedContents(start, paths);
    assert (paths + [path])[..|paths|] == paths;
  }

  /** The cleaned dataset: `os.path.join(this_dir, "..", "data", "cleaned", "AI_Human_cleaned.csv")`. */
  function DataPath(root: string): string
  {
    JoinAll(root, DataParts)
  }

  const DataParts: seq<string> := ["..", "data", "cleaned", "AI_Human_cleaned.csv"]

  function ModelDir(root: string): string
  {
    JoinAll(root, ModelParts)
  }

  const ModelParts: seq<string> := ["..", "models"]

  function ResultsDir(root: string): string
  {
    JoinAll(root, ResultsParts)
  }

  const ResultsParts: seq<string> := ["..", "results"]

  function ResultsPath(root: string): string
  {
    Join(ResultsDir(root), "model_results.csv")
  }

  /**
   * The state of `main`'s loop after the first `i` registered names, starting from the artifact
   * files `start` with `others` the entries of other kinds: none of those names was blocked, the
   * artifact files are those the bookkeeping predicts, no earlier artifact has changed, and the
   * results so far are reported in order.
   */
  ghost predicate Progress(start: map<string, Fitted>, artifacts: map<string, Fitted>, results: seq<EvalResult>,
                           others: set<string>, modelDir: string, i: int, data: Split, learner: Learner)
  {
    var paths := ArtifactPaths(modelDir, Models);
    && 0 <= i <= |Models|
    && (forall j :: 0 <= j < i ==> !Blocked(start.Keys, others, paths[j]))
    && artifacts.Keys == Cached(start.Keys, paths[..i])
    && (forall p :: p in start ==> p in artifacts && artifacts[p] == start[p])
    && Reported(results, artifacts, start.Keys, Models[..i], paths[..i], data, learner)
  }

  /**
   * Training the next registered name succeeds exactly when its artifact path is not blocked,
   * and then extends the loop's progress by one name; otherwise it raises and writes nothing.
   */
  lemma ProgressStep(start: map<string, Fitted>, before: map<string, Fitted>, after: map<string, Fitted>,
                     others: set<string>, results: seq<EvalResult>, r: Result<EvalResult, Error>,
                     modelDir: string, i: int, data: Split, learner: Learner)
    requires 0 <= i < |Models|
    requires Progress(start, before, results, others, modelDir, i, data, learner)
    requires Evaluated(before, after, others, Models[i], modelDir, data, learner, r)
    ensures r.Ok? <==> !Blocked(start.Keys, others, ArtifactPaths(modelDir, Models)[i])
    ensures r.Ok? ==> Progress(start, after, results + [r.value], others, modelDir, i + 1, data, learner)
    ensures r.Err? ==> after == before && r.error == LoadError(ArtifactPaths(modelDir, Models)[i])
  {
    var paths := ArtifactPaths(modelDir, Models);
    RegistryPathsDistinct(modelDir);
    assert paths[i] !in paths[..i];
    CachedContents(start.Keys, paths[..i]);
    if r.Ok? {
      ReportedStep(results, before, after, start.Keys, Models[..i], paths[..i], Models[i], paths[i],
                   r.value, data, learner);
      Seqs.PrefixSnoc(Models, i);
      Seqs.PrefixSnoc(paths, i);
    }
  }

  /**
   * `main`'s loop stopped at registered name `k`: the first name whose artifact path is blocked.
   * The error is the failed load of that path, and the artifacts of the names before it are on file:
   * the earlier ones unchanged, the ones it wrote holding the freshly trained pipelines.
   */
  ghost predicate StoppedAt(start: map<string, Fitted>, artifacts: map<string, Fitted>, others: set<string>,
                            modelDir: string, k: int, data: Split, learner: Learner, err: Error)
  {
    var paths := ArtifactPaths(modelDir, Models);
    && 0 <= k < |Models|
    && Blocked(start.Keys, others, paths[k])
    && (forall j :: 0 <= j < k ==> !Blocked(start.Keys, others, paths[j]))
    && err == LoadError(paths[k])
    && artifacts.Keys == Cached(start.Keys, paths[..k])
    && (forall p :: p in start ==> p in artifacts && artifacts[p] == start[p])
    && (forall j :: 0 <= j < k && paths[j] !in start.Keys ==>
          paths[j] in artifacts && artifacts[paths[j]] == Trained(BuildPipeline(Models[j]).value, data, learner))
  }

  /**
   * The outcome of `main`'s loop from the artifact files `start`: every registered name's artifact
   * is on file and nothing else was added, no earlier artifact changed, and the report holds one
   * correctly flagged and scored result per registered name, in registry order.
   */
  ghost predicate AllTrained(start: map<string, Fitted>, artifacts: map<string, Fitted>, results: seq<EvalResult>,
                             modelDir: string, data: Split, learner: Learner)
  {
    var paths := ArtifactPaths(modelDir, Models);
    && artifacts.Keys == Cached(start.Keys, paths)
    && (forall p :: p in start ==> p in artifacts && artifacts[p] == start[p])
    && Reported(results, artifacts, start.Keys, Models, paths, data, learner)
  }

  /**
   * The loop of `main` run from the artifact files `start`, with `others` the entries of other
   * kinds: it succeeds exactly when no registered artifact path is blocked, with every classifier
   * trained or reused; otherwise it raises at the first blocked name.
   */
  ghost predicate RanAll(start: map<string, Fitted>, artifacts: map<string, Fitted>, others: set<string>,
                         modelDir: string, data: Split, learner: Learner, r: Result<seq<EvalResult>, Error>)
  {
    var paths := ArtifactPaths(modelDir, Models);
    && (r.Ok? <==> forall i :: 0 <= i < |Models| ==> !Blocked(start.Keys, others, paths[i]))
    && (r.Ok? ==> AllTrained(start, artifacts, r.value, modelDir, data, learner))
    && (r.Err? ==> exists k :: StoppedAt(start, artifacts, others, modelDir, k, data, learner, r.error))
  }

  /** The loop of `main`: train or reuse each registered classifier in registry order, collecting one result each. */
  method TrainAll(fs: FileSystem, modelDir: string, data: Split, learner: Learner)
    returns (r: Result<seq<EvalResult>, Error>)
    modifies fs
    ensures fs.dirs == old(fs.dirs) + {modelDir}
    ensures fs.files == old(fs.files) && fs.tables == old(fs.tables)
    ensures RanAll(old(fs.artifacts), fs.artifacts, fs.Others(), modelDir, data, learner, r)
  {
    ghost var paths := ArtifactPaths(modelDir, Models);
    ghost var others := old(fs.dirs) + {modelDir} + fs.files + fs.tables.Keys;
    var results := [];
    for i := 0 to |Models|
      invariant fs.dirs == old(fs.dirs) + (if i == 0 then {} else {modelDir})
      invariant fs.files == old(fs.files) && fs.tables == old(fs.tables)
      invariant Progress(old(fs.artifacts), fs.artifacts, results, others, modelDir, i, data, learner)
    {
      ghost var before := fs.artifacts;
      var result := TrainAndEvaluate(fs, Models[i], data, modelDir, learner);
      assert fs.Others() == others;
      ProgressStep(old(fs.artifacts), before, fs.artifacts, others, results, result, modelDir, i, data, learner);
      if result.Err? {
        forall j | 0 <= j < i && paths[j] !in old(fs.artifacts).Keys
          ensures paths[j] in fs.artifacts && fs.artifacts[paths[j]] == Trained(BuildPipeline(Models[j]).value, data, learner)
        {
          ReportedAt(results, before, old(fs.artifacts).Keys, Models[..i], paths[..i], data, learner, j);
        }
        assert StoppedAt(old(fs.artifacts), fs.artifacts, others, modelDir, i, data, learner, result.error);
        return Err(result.error);
      }
      results := results + [result.value];
    }
    assert Models[..|Models|] == Models;
    assert paths[..|Models|] == paths;
    r := Ok(results);
  }

  /**
   * The rest of `main` once the dataset is found: create the model and results directories, load
   * the dataset, train or reuse every registered classifier, and write the results table at
   * `resultsPath`. The table is written only when every classifier has been evaluated.
   */
  method TrainAndSave(fs: FileSystem, dataPath: string, modelDir: string, resultsDir: string, resultsPath: string,
                      data: Split, learner: Learner) returns (r: Result<seq<EvalResult>, Error>)
    modifies fs
    ensures fs.files == old(fs.files)
    ensures fs.dirs == old(fs.dirs) + {modelDir, resultsDir}
    ensures dataPath !in old(fs.files) ==>
      && r == Err(LoadError(dataPath))
      && fs.artifacts == old(fs.artifacts) && fs.tables == old(fs.tables)
    ensures dataPath in old(fs.files) ==>
      && RanAll(old(fs.artifacts), fs.artifacts, fs.dirs + fs.files + old(fs.tables).Keys, modelDir, data, learner, r)
      && fs.tables == (if r.Ok? then old(fs.tables)[resultsPath := r.value] else old(fs.tables))
  {
    fs.dirs := fs.dirs + {modelDir};
    fs.dirs := fs.dirs + {resultsDir};
    if dataPath !in fs.files {
      return Err(LoadError(dataPath));
    }
    r := TrainAll(fs, modelDir, data, learner);
    if r.Ok? {
      fs.tables := fs.tables[resultsPath := r.value];
    }
  }

  /**
   * `main`: fail if the dataset is missing; otherwise create the model and results directories,
   * load the dataset, train or reuse every registered classifier in registry order and write the
   * results table. `data` is the split `load_data` returns for the dataset file.
   */
  method RunHarness(fs: FileSystem, root: string, data: Split, learner: Learner)
    returns (r: Result<seq<EvalResult>, Error>)
    modifies fs
    ensures r == Err(FileNotFound(DataPath(root))) <==> !old(fs.Exists(DataPath(root)))
    ensures fs.files == old(fs.files)
    ensures !old(fs.Exists(DataPath(root))) ==>
      fs.dirs == old(fs.dirs) && fs.artifacts == old(fs.artifacts) && fs.tables == old(fs.tables)
    ensures old(fs.Exists(DataPath(root))) ==> fs.dirs == old(fs.dirs) + {ModelDir(root), ResultsDir(root)}
    ensures old(fs.Exists(DataPath(root))) && DataPath(root) !in old(fs.files) ==>
      && r == Err(LoadError(DataPath(root)))
      && fs.artifacts == old(fs.artifacts) && fs.tables == old(fs.tables)
    ensures DataPath(root) in old(fs.files) ==>
      && RanAll(old(fs.artifacts), fs.artifacts, fs.dirs + fs.files + old(fs.tables).Keys, ModelDir(root), data, learner, r)
      && fs.tables == (if r.Ok? then old(fs.tables)[ResultsPath(root) := r.value] else old(fs.tables))
  {
    var dataPath := DataPath(root);
    if !fs.Exists(dataPath) {
      return Err(FileNotFound(dataPath));
    }
    r := TrainAndSave(fs, dataPath, ModelDir(root), ResultsDir(root), ResultsPath(root), data, learner);
  }

  /** After a successful run, every registered name's artifact is on file, so no path can be blocked. */
  lemma RunLeavesEveryArtifact(start: map<string, Fitted>, mid: map<string, Fitted>, results: seq<EvalResult>,
                               modelDir: string, data: Split, learner: Learner)
    requires AllTrained(start, mid, results, modelDir, data, learner)
    ensures forall i :: 0 <= i < |Models| ==> ArtifactPaths(modelDir, Models)[i] in mid
  {
    CachedContents(start.Keys, ArtifactPaths(modelDir, Models));
  }

  /**
   * A second run of `main`'s loop over the artifacts the first run left changes no artifact,
   * retrains nothing and reports the same scores for every classifier.
   */
  lemma RerunSameScores(start: map<string, Fitted>, mid: map<string, Fitted>, after: map<string, Fitted>,
                        first: seq<EvalResult>, second: seq<EvalResult>, modelDir: string, data: Split, learner: Learner)
    requires AllTrained(start, mid, first, modelDir, data, learner)
    requires AllTrained(mid, after, second, modelDir, data, learner)
    ensures after == mid
    ensures |second| == |first| == |Models|
    ensures forall i :: 0 <= i < |Models| ==>
      && !second[i].retrained
      && second[i].accuracy == first[i].accuracy
      && second[i].f1Score == first[i].f1Score
  {
    var paths := ArtifactPaths(modelDir, Models);
    CachedContents(start.Keys, paths);
    CachedContents(mid.Keys, paths);
    assert after.Keys == mid.Keys;
    assert after == mid;
    assert |first| == |Models| && |second| == |Models|;
    forall i | 0 <= i < |Models|
      ensures !second[i].retrained
      ensures second[i].accuracy == first[i].accuracy && second[i].f1Score == first[i].f1Score
    {
      ReportedAt(first, mid, start.Keys, Models, paths, data, learner, i);
      ReportedAt(second, after, mid.Keys, Models, paths, data, learner, i);
    }
  }

  /**
   * Deleting the artifact of registered name `k` after a run makes the next run retrain that name
   * only; every other classifier is reused and reports the scores it reported before.
   */
  lemma OnlyDeletedIsRetrained(start: map<string, Fitted>, mid: map<string, Fitted>, after: map<string, Fitted>,
                               first: seq<EvalResult>, second: seq<EvalResult>, modelDir: string, k: int,
                               data: Split, learner: Learner)
    requires 0 <= k < |Models|
    requires AllTrained(start, mid, first, modelDir, data, learner)
    requires AllTrained(mid - {ArtifactPath(modelDir, Models[k])}, after, second, modelDir, data, learner)
    ensures |second| == |first| == |Models|
    ensures forall i :: 0 <= i < |Models| ==> second[i].retrained == (i == k)
    ensures forall i :: 0 <= i < |Models| && i != k ==>
      second[i].accuracy == first[i].accuracy && second[i].f1Score == first[i].f1Score
  {
    var paths := ArtifactPaths(modelDir, Models);
    var rest := mid - {paths[k]};
    RegistryPathsDistinct(modelDir);
    CachedContents(start.Keys, paths);
    assert |first| == |Models| && |second| == |Models|;
    forall i | 0 <= i < |Models|
      ensures second[i].retrained == (i == k)
      ensures i != k ==> second[i].accuracy == first[i].accuracy && second[i].f1Score == first[i].f1Score
    {
      ReportedAt(first, mid, start.Keys, Models, paths, data, learner, i);
      ReportedAt(second, after, rest.Keys, Models, paths, data, learner, i);
      if i != k {
        assert paths[i] != paths[k];
        assert paths[i] in rest && after[paths[i]] == rest[paths[i]] == mid[paths[i]];
      }
    }
  }

  /**
   * Running the harness a second time on the same directories retrains nothing and reports the
   * same scores, since every classifier is scored from the artifact the first run left on file.
   */
  method RerunIsCached(fs: FileSystem, root: string, data: Split, learner: Learner)
    returns (first: Result<seq<EvalResult>, Error>, second: Result<seq<EvalResult>, Error>)
    modifies fs
    ensures DataPath(root) !in old(fs.files) ==> first.Err?
    ensures first.Ok? ==>
      && second.Ok? && |second.value| == |first.value| == |Models|
      && forall i :: 0 <= i < |Models| ==>
           && !second.value[i].retrained
           && second.value[i].accuracy == first.value[i].accuracy
           && second.value[i].f1Score == first.value[i].f1Score
  {
    first := RunHarness(fs, root, data, learner);
    ghost var between := fs.artifacts;
    second := RunHarness(fs, root, data, learner);
    if first.Ok? {
      RunLeavesEveryArtifact(old(fs.artifacts), between, first.value, ModelDir(root), data, learner);
      RerunSameScores(old(fs.artifacts), between, fs.artifacts, first.value, second.value, ModelDir(root), data, learner);
    }
  }
}
