/**
 * `main` of braintrust_exporter.py after argument parsing: check the API key,
 * select a project, export its experiments, then its datasets.
 */
module Pipeline {
  import opened Wrappers
  import opened Rows
  import opened Export
  import opened Selection

  /** The ways a run stops early. */
  datatype Fatal =
    | MissingApiKey                      // sys.exit('Missing API key')
    | SelectionFailed(cause: SelectError) // an exit or error of select_proj

  /** `os.getenv('BRAINTRUST_API_KEY') or sys.exit(...)`: an unset or empty key is fatal. */
  predicate ApiKeyPresent(apiKey: Option<string>) {
    apiKey.Some? && apiKey.value != ""
  }

  /** Every CSV file a run writes for the project `pid`, in the order of writing. */
  function ExportedFiles<D>(api: Remote<D>, flatten: D -> Row, pid: string, projectName: string): seq<CsvFile> {
    var exps, dss := api.listExperiments(pid), api.listDatasets(pid);
    Details(Experiments, api, flatten, projectName, exps)
      + [CsvFile(ExperimentsDir, AllExperimentsFile, Aggregate(Experiments, api, flatten, exps))]
      + Details(Datasets, api, flatten, projectName, dss)
      + [CsvFile(DatasetsDir, AllDatasetsFile, Aggregate(Datasets, api, flatten, dss))]
  }

  /**
   * A run writes the experiment detail files, then all_experiments.csv with
   * one row per listed experiment, then the dataset detail files, then
   * all_datasets.csv with one row per listed dataset. Both aggregate files are
   * written even when nothing is listed, and every detail file has rows.
   */
  lemma ExportedFilesShape<D>(api: Remote<D>, flatten: D -> Row, pid: string, projectName: string)
    ensures var fs := ExportedFiles(api, flatten, pid, projectName);
      var ne := |Details(Experiments, api, flatten, projectName, api.listExperiments(pid))|;
      var nd := |Details(Datasets, api, flatten, projectName, api.listDatasets(pid))|;
      && |fs| == ne + nd + 2
      && fs[ne].dir == ExperimentsDir && fs[ne].name == AllExperimentsFile
      && |fs[ne].rows| == |api.listExperiments(pid)|
      && fs[|fs| - 1].dir == DatasetsDir && fs[|fs| - 1].name == AllDatasetsFile
      && |fs[|fs| - 1].rows| == |api.listDatasets(pid)|
      && (forall j :: 0 <= j < ne ==> fs[j].dir == ExperimentsDir && |fs[j].rows| > 0)
      && (forall j :: ne < j < |fs| - 1 ==> fs[j].dir == DatasetsDir && |fs[j].rows| > 0)
  {
    var exps, dss := api.listExperiments(pid), api.listDatasets(pid);
    var de, dd := Details(Experiments, api, flatten, projectName, exps), Details(Datasets, api, flatten, projectName, dss);
    var ae := CsvFile(ExperimentsDir, AllExperimentsFile, Aggregate(Experiments, api, flatten, exps));
    var ad := CsvFile(DatasetsDir, AllDatasetsFile, Aggregate(Datasets, api, flatten, dss));
    Layout(de, ae, dd, ad);
    AggregateAt(Experiments, api, flatten, exps);
    AggregateAt(Datasets, api, flatten, dss);
    forall f | f in de ensures f.dir == ExperimentsDir && |f.rows| > 0 {
      DetailsSound(Experiments, api, flatten, projectName, exps, f);
    }
    forall f | f in dd ensures f.dir == DatasetsDir && |f.rows| > 0 {
      DetailsSound(Datasets, api, flatten, projectName, dss, f);
    }
  }

  /** Where the parts of `a + [x] + b + [y]` sit. */
  lemma Layout<T>(a: seq<T>, x: T, b: seq<T>, y: T)
    ensures var s := a + [x] + b + [y];
      && |s| == |a| + |b| + 2 && s[|a|] == x && s[|s| - 1] == y
      && (forall j :: 0 <= j < |a| ==> s[j] == a[j])
      && (forall j :: |a| < j < |s| - 1 ==> s[j] == b[j - |a| - 1])
  {
  }

  /** The run as a whole; `choice` is the operator's answer to the prompt. */
  method Run<D>(apiKey: Option<string>, projects: seq<Project>, choice: int, api: Remote<D>, flatten: D -> Row)
    returns (out: Result<seq<CsvFile>, Fatal>)
    ensures !ApiKeyPresent(apiKey) ==> out == Failure(MissingApiKey)
    ensures ApiKeyPresent(apiKey) && projects == [] ==> out == Failure(SelectionFailed(NoProjects))
    ensures ApiKeyPresent(apiKey) && projects != [] && !(1 <= choice <= |projects|) ==>
      out == Failure(SelectionFailed(ChoiceOutOfRange))
    ensures out.Success? <==> ApiKeyPresent(apiKey) && 1 <= choice <= |projects|
    ensures out.Success? ==>
      out.value == ExportedFiles(api, flatten, projects[choice - 1].id, projects[choice - 1].name)
  {
    if !ApiKeyPresent(apiKey) {
      return Failure(MissingApiKey);
    }
    var selected := SelectProjectChecked(projects, choice);
    if selected.Failure? {
      return Failure(SelectionFailed(selected.error));
    }
    var (pid, projectName) := selected.value;
    var expRows, expFiles := ExportExperiments(api, flatten, pid, projectName);
    var dsRows, dsFiles := ExportDatasets(api, flatten, pid, projectName);
    out := Success(expFiles + dsFiles);
  }
}
