/**
 * The two export loops of `main` in braintrust_exporter.py: for every listed
 * experiment (then dataset), write a detail CSV of its events when it has any,
 * and append one aggregate row to `ex_rows` (`ds_rows`).
 *
 * The remote SDK is a value of `Remote<D>` whose fields are the SDK calls as
 * functions of their arguments; `D` is a document already turned into a
 * mapping. `flatten` stands for `pd.json_normalize` of one document. File
 * writes are returned as the sequence of CSV files written, in order.
 */
module Export {
  import opened Rows
  import opened DetailNames
  import opened Sanitizer

  /** A listed experiment or dataset: the `.id` and `.name` the loops use. */
  datatype Resource = Resource(id: string, name: string)

  /** One CSV file written: its directory, its file name and its rows. */
  datatype CsvFile = CsvFile(dir: string, name: string, rows: seq<Row>)

  const ExperimentsDir: string := "CSV/Experiments"
  const DatasetsDir: string := "CSV/Datasets"
  const AllExperimentsFile: string := "all_experiments.csv"
  const AllDatasetsFile: string := "all_datasets.csv"

  datatype Remote<D> = Remote(
    /** `client.experiments.list(project_id=...)` */
    listExperiments: string -> seq<Resource>,
    /** `client.experiments.retrieve(id)` */
    retrieveExperiment: string -> D,
    /** `client.experiments.summarize(id)` */
    summarizeExperiment: string -> D,
    /** `braintrust.init(project=..., experiment=..., open=True).fetch()` */
    fetchExperimentEvents: (string, string) -> seq<D>,
    /** `client.datasets.list(project_id=...)` */
    listDatasets: string -> seq<Resource>,
    /** `client.datasets.retrieve(id)` */
    retrieveDataset: string -> D,
    /** `getattr(client.datasets.fetch(id), 'events', []) or []` */
    fetchDatasetEvents: string -> seq<D>)

  datatype Kind = Experiments | Datasets

  /** `pd.json_normalize(evs)`: one flattened row per event, in order. */
  function FlattenAll<D>(evs: seq<D>, flatten: D -> Row): (rs: seq<Row>)
    ensures |rs| == |evs|
    ensures forall i :: 0 <= i < |evs| ==> rs[i] == flatten(evs[i])
  {
    seq(|evs|, i requires 0 <= i < |evs| => flatten(evs[i]))
  }

  function DirOf(kind: Kind): string {
    match kind
    case Experiments => ExperimentsDir
    case Datasets => DatasetsDir
  }

  /** The aggregate row of one resource. */
  function RowOf<D>(kind: Kind, api: Remote<D>, flatten: D -> Row, r: Resource): Row {
    match kind
    case Experiments =>
      ExperimentRow(r.id, r.name, flatten(api.retrieveExperiment(r.id)), flatten(api.summarizeExperiment(r.id)))
    case Datasets =>
      DatasetRow(r.id, r.name, flatten(api.retrieveDataset(r.id)))
  }

  /** The events of one resource; experiment events are fetched by project and experiment name. */
  function EventsOf<D>(kind: Kind, api: Remote<D>, project: string, r: Resource): seq<D> {
    match kind
    case Experiments => api.fetchExperimentEvents(project, r.name)
    case Datasets => api.fetchDatasetEvents(r.id)
  }

  predicate HasEvents<D>(kind: Kind, api: Remote<D>, project: string, r: Resource) {
    |EventsOf(kind, api, project, r)| > 0
  }

  /** The detail CSV of one resource. */
  function DetailOf<D>(kind: Kind, api: Remote<D>, flatten: D -> Row, project: string, r: Resource): CsvFile {
    CsvFile(DirOf(kind), DetailFileName(r.name, r.id), FlattenAll(EventsOf(kind, api, project, r), flatten))
  }

  /** The aggregate rows after the loop has processed `rs`. */
  function Aggregate<D>(kind: Kind, api: Remote<D>, flatten: D -> Row, rs: seq<Resource>): seq<Row>
    decreases |rs|
  {
    if rs == [] then []
    else Aggregate(kind, api, flatten, rs[..|rs| - 1]) + [RowOf(kind, api, flatten, rs[|rs| - 1])]
  }

  /** The detail CSVs written after the loop has processed `rs`. */
  function Details<D>(kind: Kind, api: Remote<D>, flatten: D -> Row, project: string, rs: seq<Resource>): seq<CsvFile>
    decreases |rs|
  {
    if rs == [] then []
    else
      var last := rs[|rs| - 1];
      Details(kind, api, flatten, project, rs[..|rs| - 1])
        + (if HasEvents(kind, api, project, last) then [DetailOf(kind, api, flatten, project, last)] else [])
  }

  /** One aggregate row per listed resource, in listing order, duplicates included. */
  lemma {:induction false} AggregateAt<D>(kind: Kind, api: Remote<D>, flatten: D -> Row, rs: seq<Resource>)
    ensures |Aggregate(kind, api, flatten, rs)| == |rs|
    ensures forall i :: 0 <= i < |rs| ==> Aggregate(kind, api, flatten, rs)[i] == RowOf(kind, api, flatten, rs[i])
    decreases |rs|
  {
    if rs != [] {
      AggregateAt(kind, api, flatten, rs[..|rs| - 1]);
    }
  }

  /**
   * Processing more resources only appends: the rows of the resources
   * already processed are left as they were.
   */
  lemma {:induction false} AggregateAppend<D>(kind: Kind, api: Remote<D>, flatten: D -> Row, rs: seq<Resource>, ts: seq<Resource>)
    ensures Aggregate(kind, api, flatten, rs + ts) == Aggregate(kind, api, flatten, rs) + Aggregate(kind, api, flatten, ts)
    decreases |ts|
  {
    if ts == [] {
      assert rs + ts == rs;
    } else {
      assert (rs + ts)[..|rs + ts| - 1] == rs + ts[..|ts| - 1];
      AggregateAppend(kind, api, flatten, rs, ts[..|ts| - 1]);
    }
  }

  lemma {:induction false} DetailsAppend<D>(kind: Kind, api: Remote<D>, flatten: D -> Row, project: string, rs: seq<Resource>, ts: seq<Resource>)
    ensures Details(kind, api, flatten, project, rs + ts)
         == Details(kind, api, flatten, project, rs) + Details(kind, api, flatten, project, ts)
    decreases |ts|
  {
    if ts == [] {
      assert rs + ts == rs;
    } else {
      assert (rs + ts)[..|rs + ts| - 1] == rs + ts[..|ts| - 1];
      DetailsAppend(kind, api, flatten, project, rs, ts[..|ts| - 1]);
    }
  }

  /** The loop step: processing one more resource appends its row. */
  lemma AggregateStep<D>(kind: Kind, api: Remote<D>, flatten: D -> Row, rs: seq<Resource>, i: nat)
    requires i < |rs|
    ensures Aggregate(kind, api, flatten, rs[..i + 1])
         == Aggregate(kind, api, flatten, rs[..i]) + [RowOf(kind, api, flatten, rs[i])]
  {
    assert rs[..i + 1][..i] == rs[..i];
  }

  /** The loop step: processing one more resource appends its detail file if it has events. */
  lemma DetailsStep<D>(kind: Kind, api: Remote<D>, flatten: D -> Row, project: string, rs: seq<Resource>, i: nat)
    requires i < |rs|
    ensures Details(kind, api, flatten, project, rs[..i + 1])
         == Details(kind, api, flatten, project, rs[..i])
            + (if HasEvents(kind, api, project, rs[i]) then [DetailOf(kind, api, flatten, project, rs[i])] else [])
  {
    assert rs[..i + 1][..i] == rs[..i];
  }

  /** Every detail file belongs to a listed resource with events, and has rows. */
  lemma {:induction false} DetailsSound<D>(kind: Kind, api: Remote<D>, flatten: D -> Row, project: string, rs: seq<Resource>, f: CsvFile)
    requires f in Details(kind, api, flatten, project, rs)
    ensures exists i :: 0 <= i < |rs| && HasEvents(kind, api, project, rs[i]) && f == DetailOf(kind, api, flatten, project, rs[i])
    ensures |f.rows| > 0
    decreases |rs|
  {
    var init := rs[..|rs| - 1];
    if f in Details(kind, api, flatten, project, init) {
      DetailsSound(kind, api, flatten, project, init, f);
      var i :| 0 <= i < |init| && HasEvents(kind, api, project, init[i]) && f == DetailOf(kind, api, flatten, project, init[i]);
      assert rs[i] == init[i];
    } else {
      assert HasEvents(kind, api, project, rs[|rs| - 1]);
    }
  }

  /** Every listed resource with events has its detail file. */
  lemma {:induction false} DetailsComplete<D>(kind: Kind, api: Remote<D>, flatten: D -> Row, project: string, rs: seq<Resource>, i: nat)
    requires i < |rs| && HasEvents(kind, api, project, rs[i])
    ensures DetailOf(kind, api, flatten, project, rs[i]) in Details(kind, api, flatten, project, rs)
    decreases |rs|
  {
    if i < |rs| - 1 {
      var init := rs[..|rs| - 1];
      assert init[i] == rs[i];
      DetailsComplete(kind, api, flatten, project, init, i);
    }
  }

  /** There are never more detail files than listed resources. */
  lemma {:induction false} DetailsCount<D>(kind: Kind, api: Remote<D>, flatten: D -> Row, project: string, rs: seq<Resource>)
    ensures |Details(kind, api, flatten, project, rs)| <= |rs|
    ensures |Details(kind, api, flatten, project, rs)| == |rs| <==> forall i :: 0 <= i < |rs| ==> HasEvents(kind, api, project, rs[i])
    decreases |rs|
  {
    if rs != [] {
      var init := rs[..|rs| - 1];
      DetailsCount(kind, api, flatten, project, init);
      if forall i :: 0 <= i < |rs| ==> HasEvents(kind, api, project, rs[i]) {
        assert forall i :: 0 <= i < |init| ==> HasEvents(kind, api, project, init[i]) by {
          forall i | 0 <= i < |init| ensures HasEvents(kind, api, project, init[i]) { assert init[i] == rs[i]; }
        }
      } else {
        var j :| 0 <= j < |rs| && !HasEvents(kind, api, project, rs[j]);
        if j < |init| { assert init[j] == rs[j]; }
      }
    }
  }

  /**
   * A dataset named "all" whose id starts with "datasets" gets a detail file
   * with the name of the dataset aggregate file, in the same directory.
   */
  lemma DetailClashesWithAggregate<D>(api: Remote<D>, flatten: D -> Row, project: string, id: string)
    requires |id| >= IdPrefixLength && id[..IdPrefixLength] == "datasets"
    ensures var f := DetailOf(Datasets, api, flatten, project, Resource(id, "all"));
      f.dir == DatasetsDir && f.name == AllDatasetsFile
  {
    SanitizeFixedPoints("all");
    assert AllSafe("all");
    DetailFileNameParts("all", id);
  }

  /** The experiment loop of `main`, ending with the write of all_experiments.csv. */
  method ExportExperiments<D>(api: Remote<D>, flatten: D -> Row, pid: string, projectName: string)
    returns (rows: seq<Row>, written: seq<CsvFile>)
    ensures rows == Aggregate(Experiments, api, flatten, api.listExperiments(pid))
    ensures written == Details(Experiments, api, flatten, projectName, api.listExperiments(pid))
                       + [CsvFile(ExperimentsDir, AllExperimentsFile, rows)]
  {
    var listing := api.listExperiments(pid);
    rows, written := [], [];
    var i := 0;
    while i < |listing|
      invariant 0 <= i <= |listing|
      invariant rows == Aggregate(Experiments, api, flatten, listing[..i])
      invariant written == Details(Experiments, api, flatten, projectName, listing[..i])
    {
      var e := listing[i];
      var md := api.retrieveExperiment(e.id);
      var sm := api.summarizeExperiment(e.id);
      var evs := api.fetchExperimentEvents(projectName, e.name);
      if |evs| > 0 {
        written := written + [CsvFile(ExperimentsDir, DetailFileName(e.name, e.id), FlattenAll(evs, flatten))];
      }
      var seed := Seed(ExperimentIdKey, ExperimentNameKey, e.id, e.name);
      var row := seed;
      row := Update(row, flatten(md));
      row := Update(row, flatten(sm));
      ExperimentRowSteps(seed, flatten(md), flatten(sm));
      rows := rows + [row];
      AggregateStep(Experiments, api, flatten, listing, i);
      DetailsStep(Experiments, api, flatten, projectName, listing, i);
      i := i + 1;
    }
    assert listing[..i] == listing;
    written := written + [CsvFile(ExperimentsDir, AllExperimentsFile, rows)];
  }

  /** The dataset loop of `main`, ending with the write of all_datasets.csv. */
  method ExportDatasets<D>(api: Remote<D>, flatten: D -> Row, pid: string, projectName: string)
    returns (rows: seq<Row>, written: seq<CsvFile>)
    ensures rows == Aggregate(Datasets, api, flatten, api.listDatasets(pid))
    ensures written == Details(Datasets, api, flatten, projectName, api.listDatasets(pid))
                       + [CsvFile(DatasetsDir, AllDatasetsFile, rows)]
  {
    var listing := api.listDatasets(pid);
    rows, written := [], [];
    var i := 0;
    while i < |listing|
      invariant 0 <= i <= |listing|
      invariant rows == Aggregate(Datasets, api, flatten, listing[..i])
      invariant written == Details(Datasets, api, flatten, projectName, listing[..i])
    {
      var d := listing[i];
      var md := api.retrieveDataset(d.id);
      var evs := api.fetchDatasetEvents(d.id);
      if |evs| > 0 {
        written := written + [CsvFile(DatasetsDir, DetailFileName(d.name, d.id), FlattenAll(evs, flatten))];
      }
      var seed := Seed(DatasetIdKey, DatasetNameKey, d.id, d.name);
      var row := seed;
      row := Update(row, flatten(md));
      DatasetRowSteps(seed, flatten(md));
      rows := rows + [row];
      AggregateStep(Datasets, api, flatten, listing, i);
      DetailsStep(Datasets, api, flatten, projectName, listing, i);
      i := i + 1;
    }
    assert listing[..i] == listing;
    written := written + [CsvFile(DatasetsDir, AllDatasetsFile, rows)];
  }
}
