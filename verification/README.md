# Braintrust exporter, modelled in Dafny

The exporter is a single Python script (`braintrust_exporter.py`). It does the following:

1. Checks for an API key.
2. Lets the operator pick a project.
3. For each experiment of that project, in listing order:
   - writes a detail CSV of its events when there are any;
   - appends one aggregate row, built from `{experiment_id, experiment_name}` updated by the flattened metadata and then by the flattened summary.
4. Writes `all_experiments.csv`.
5. Does the same for datasets, without the summary, and writes `all_datasets.csv`.

Detail files are named `sanitize(name) + "_" + id[:8] + ".csv"`.

This project models that logic:

- `wrappers.dfy`: `Option` and `Result`.
- `sanitizer.dfy`: `sanitize` is modelled as a filter (`KeepAllowed`), then a space replacement (`ReplaceSpaces`), then a slice (`Take`). A one-pass reference definition, `Cleaned`, is proved equal to the first two steps. From that, the model proves:
  - the bound and the character class;
  - order preservation;
  - that the output is a prefix of the cleaned name;
  - which names are fixed points;
  - idempotence.
- `detail_names.dfy`: the detail file name. For ids of eight characters or more, a parser recovers the sanitised name and the id prefix, which gives:
  - a round trip;
  - an exact statement of when two resources collide on one file name.
- `rows.dfy`: rows and `dict.update`.
  - `Update` is Python's `row.update(src)`. Dafny's map `+` is right-biased, which matches it.
  - `UpdateAll` is a run of updates. `ExperimentRow` (seed, then metadata, then summary; lines 70-72) and `DatasetRow` (seed, then metadata; lines 87-88) are the two row assemblies, and their meaning is stated by `ExperimentRowSources` and `DatasetRowSources`. Lemmas prove that the row's keys are the union of the sources' keys, and that the last source holding a key wins.
- `export.dfy`: the two `for` loops of `main`, as the methods `ExportExperiments` and `ExportDatasets`. Each is proved against the specification functions `Aggregate` (the rows after a prefix of the listing) and `Details` (the detail CSVs after a prefix). Lemmas about these functions state:
  - one row per listed resource, in order, with duplicates kept;
  - appending never changes earlier rows;
  - a detail CSV is written for exactly the resources with events.
- `selection.dfy`: `select_proj` as written, and a checked variant (see Findings).
- `pipeline.dfy`: the run as a whole (`Run`) and the list of files it writes (`ExportedFiles`).

Parameters stand in for things the model cannot see:

- Each remote SDK call of the export loops is a field of `Remote<D>`: a function from its arguments to a document `D` or to a sequence of documents.
- `cli.projects.list()` is the parameter `projects` of `Run`.
- `pd.json_normalize` of one document is the parameter `flatten: D -> Row`.
- The console answer to the prompt is the parameter `choice`.
- The API key is the parameter `apiKey` (`None` when the variable is unset).
- A CSV write is modelled as a `CsvFile` (directory, file name, rows) in the sequence of files returned.

Two places in the source behave in a way the model does not take over as it stands:

- When an experiment's event fetch fails, the handler at braintrust_exporter.py:63 calls `sdk.fetch()` again. The `except` at line 64 can never catch a second failure. That path is left out (see below).
- Lines 33-34 number the projects from 1, yet line 36 also accepts 0 and negative answers and selects from the end of the list. `Selection.SelectProject` models this as written; `Pipeline.Run` uses the checked selection instead (see Findings and "## Left out").

## Model

| member | source | states |
|---|---|---|
| `Sanitizer.KeepAllowed` | braintrust_exporter.py:11 | the filter keeps no more characters than the input has, and every kept character is alphanumeric, a space, '-' or '_' |
| `Sanitizer.ReplaceSpaces` | braintrust_exporter.py:11 | the replacement keeps the length and, at each position, turns a space into '_' and leaves any other character alone |
| `Sanitizer.Take` | braintrust_exporter.py:11 | Python's slice `s[:n]`: the result is a prefix of `s` of length n, or all of `s` when it has at most n elements |
| `Sanitizer.Sanitize` | braintrust_exporter.py:10-11 | a sanitised name has at most 100 characters, each alphanumeric, '-' or '_', and never a space |
| `Sanitizer.CleanedAppend` | braintrust_exporter.py:11 | cleaning maps a concatenation to the concatenation of the cleaned parts, so the kept characters stay in their original order |
| `Sanitizer.ReplaceSpacesAppend` | braintrust_exporter.py:11 | the space replacement distributes over concatenation |
| `Sanitizer.FilterThenReplaceIsCleaned` | braintrust_exporter.py:11 | filtering and then replacing spaces equals the one-pass reference cleaning (keep allowed characters, map space to '_') |
| `Sanitizer.KeepAllowedCount` | braintrust_exporter.py:11 | the filter keeps every occurrence of an allowed character and no occurrence of any other |
| `Sanitizer.KeepAllowedOfAllowed` | braintrust_exporter.py:11 | the filter leaves a string of allowed characters unchanged |
| `Sanitizer.SanitizeIsCleanedPrefix` | braintrust_exporter.py:11 | the sanitised name is a prefix of the cleaned name, of length min(100, length of the cleaned name), and equals it when at most 100 characters are kept |
| `Sanitizer.SanitizeFixedPoints` | braintrust_exporter.py:11 | sanitising leaves a name unchanged if and only if the name has at most 100 characters, all alphanumeric, '-' or '_' |
| `Sanitizer.SanitizeIdempotent` | braintrust_exporter.py:11 | sanitising twice gives the same result as sanitising once |
| `Sanitizer.SanitizeTruncates` | braintrust_exporter.py:11 | once 100 characters are kept, whatever follows in the name no longer changes the sanitised name |
| `DetailNames.DetailFileName` | braintrust_exporter.py:67-68 | a detail file name ends in ".csv" and is at most 113 characters long |
| `DetailNames.DetailFileNameParts` | braintrust_exporter.py:84-86 | a detail file name is the sanitised name, '_', the first min(8, length of the id) characters of the id (the whole id when it is shorter than 8) and ".csv" |
| `DetailNames.DetailFileNameRoundTrip` | braintrust_exporter.py:68 | for an id of at least 8 characters, the sanitised name and the 8-character id prefix can be recovered from the file name |
| `DetailNames.DetailFileNameCollision` | braintrust_exporter.py:85 | for ids of at least 8 characters, two resources share a detail file exactly when their names sanitise alike and their ids agree on the first 8 characters |
| `DetailNames.RunAExample` | braintrust_exporter.py:68 | the experiment "Run A" with id "exp12345678" gets the file "Run_A_exp12345.csv" |
| `DetailNames.RunASanitized` | braintrust_exporter.py:11 | "Run A" and "Run_A" both sanitise to "Run_A" |
| `DetailNames.RunACollides` | braintrust_exporter.py:68 | the experiments "Run A" and "Run_A", with ids sharing 8 characters, write the same detail file |
| `Rows.Update` | braintrust_exporter.py:71 | after `update`, the keys are the union of both key sets; keys of the source take the source's values and all other keys keep theirs |
| `Rows.UpdateAllSnoc` | braintrust_exporter.py:71-72 | one more `update` after a run of updates is the run extended by that source |
| `Rows.UpdateAllKeys` | braintrust_exporter.py:70-72 | after a run of updates, a key is present exactly when the seed or some source holds it |
| `Rows.UpdateAllLastWriter` | braintrust_exporter.py:70-72 | after a run of updates, a key has the value of the last source that holds it |
| `Rows.UpdateAllUntouched` | braintrust_exporter.py:70-72 | a seed key that no source holds keeps its seed value |
| `Rows.ExperimentRowSteps` | braintrust_exporter.py:71-72 | the two successive `update` calls on an experiment row are the run of updates by metadata then summary |
| `Rows.DatasetRowSteps` | braintrust_exporter.py:88 | the single `update` call on a dataset row is the run of that one update |
| `Rows.ExperimentRowSources` | braintrust_exporter.py:70-72 | an experiment row's keys are experiment_id, experiment_name and the metadata and summary keys; summary values override metadata values, which override the seed; the seed id and name survive only when neither source holds those keys |
| `Rows.DatasetRowSources` | braintrust_exporter.py:87-88 | a dataset row's keys are dataset_id, dataset_name and the metadata keys; metadata values override the seed |
| `Export.FlattenAll` | braintrust_exporter.py:67 | a detail table has one flattened row per event, in event order |
| `Export.AggregateAt` | braintrust_exporter.py:53-74 | the aggregate table has exactly one row per listed resource, the i-th being that resource's row, duplicates included |
| `Export.AggregateAppend` | braintrust_exporter.py:73 | processing further resources only appends rows, and the rows already there stay unchanged |
| `Export.DetailsAppend` | braintrust_exporter.py:83-86 | processing further resources only appends detail files |
| `Export.AggregateStep` | braintrust_exporter.py:70-73 | processing one more resource appends exactly that resource's row |
| `Export.DetailsStep` | braintrust_exporter.py:66-69 | processing one more resource appends its detail file when its event list is non-empty, and nothing otherwise |
| `Export.DetailsSound` | braintrust_exporter.py:66-69 | every detail file written is the detail file of a listed resource whose event list is non-empty, and it has rows |
| `Export.DetailsComplete` | braintrust_exporter.py:83-86 | every listed resource with a non-empty event list gets its detail file |
| `Export.DetailsCount` | braintrust_exporter.py:66-69 | there are at most as many detail files as listed resources, and as many exactly when every resource has events |
| `Export.ExportExperiments` | braintrust_exporter.py:53-74 | the experiment loop produces the aggregate rows of the listing and writes the detail files for experiments with events, then all_experiments.csv holding those rows |
| `Export.ExportDatasets` | braintrust_exporter.py:77-90 | the dataset loop produces the aggregate rows of the listing and writes the detail files for datasets with events, then all_datasets.csv holding those rows |
| `DetailNames.ShortIdsCollide` | braintrust_exporter.py:68 | with ids shorter than 8 characters, different names and ids can give one file name: ("a_b", "c") and ("a", "b_c") both give "a_b_c.csv" |
| `Export.DetailClashesWithAggregate` | braintrust_exporter.py:85-90 | a dataset named "all" whose id starts with "datasets" gets a detail file named all_datasets.csv in CSV/Datasets, the path of the dataset aggregate file |
| `Selection.SelectProject` | braintrust_exporter.py:29-36 | an empty project list is fatal; a choice k with 1 <= k <= n returns the id and name of project k; a choice k with 1-n <= k <= 0 returns project n+k, counting back from the end; the selection fails exactly for k > n or k <= -n |
| `Selection.ChoiceZeroSelectsLast` | braintrust_exporter.py:35-36 | as written, the choice 0 selects the last project instead of failing |
| `Selection.ChoiceZeroWithTwoProjects` | braintrust_exporter.py:35-36 | with two projects, the choice 0 selects the second one as written, and is refused by the checked selection |
| `Selection.SelectProjectChecked` | braintrust_exporter.py:31-36 | an empty list is fatal; the selection succeeds if and only if 1 <= k <= n, and then returns project k's id and name |
| `Selection.CheckedAgreesInRange` | braintrust_exporter.py:35-36 | where the checked selection succeeds it agrees with the one as written; the choices from 1-n up to 0 are accepted as written and refused by the checked one |
| `Selection.SingleProjectExample` | braintrust_exporter.py:29-36 | with the single project ("p1", "Demo"), the checked selection succeeds only for the choice 1, while the selection as written succeeds for exactly the choices 0 and 1; every success returns ("p1", "Demo") |
| `Pipeline.ExportedFilesShape` | braintrust_exporter.py:52-90 | a run writes the experiment detail files, all_experiments.csv with one row per listed experiment, the dataset detail files, then all_datasets.csv with one row per listed dataset; both aggregate files are written even when empty, and every detail file has rows |
| `Pipeline.Run` | braintrust_exporter.py:45-50 | an unset or empty API key is fatal; with a key, an empty project list is fatal; a present key, a non-empty list and a choice outside 1..n give ChoiceOutOfRange; with the checked selection, the run succeeds if and only if the key is present and 1 <= choice <= n, and then it writes exactly the files of the chosen project |

## Left out

- `Pipeline.Run`: uses `Selection.SelectProjectChecked`, so it refuses the choices 1-n..0, which the source accepts and resolves to the project counted from the end of the list (see Findings); `Selection.SelectProject` models the source's behaviour on every integer choice.
- The event fetch for experiments (braintrust_exporter.py:58-65) is modelled as a total call that returns the events. If `braintrust.init` or the fetch raises, the handler at line 63 calls `sdk.fetch()` again, and a second failure escapes the loop (line 64 cannot catch it). On the first experiment `sdk` may be unbound, raising a `NameError`. On a later experiment whose `braintrust.init` raised, `sdk` is still the previous experiment's session, so line 63 can fetch the previous experiment's events and write them under this experiment's file name. None of this is modelled.
- Files on disk are not modelled, only the sequence of writes. A later write to the same path replaces the earlier file, while the model keeps every write. Two resources whose detail names collide (`DetailNames.RunACollides`, `DetailNames.ShortIdsCollide`) leave only the later file, and a dataset detail file named all_datasets.csv (`Export.DetailClashesWithAggregate`) is overwritten by the aggregate write.
- `dictify` is not modelled: it needs runtime reflection (`hasattr`, `model_dump`, `__dict__`). Documents are taken as already converted to mappings (the type parameter `D`).
- `pd.json_normalize` is the parameter `flatten`, an arbitrary function to a flat row. For an event list, it is that function applied to each event. Its key joining, NaN handling and column order are not modelled.
- Serialisation with `DataFrame.to_csv` is not modelled: a written file is a directory, a name and its rows. Header columns, column order and the byte format are not modelled.
- The remote calls `experiments.*`, `datasets.*` and `braintrust.init(...).fetch()` are fields of `Remote<D>`. `projects.list` is the parameter `projects` of `Run`, and the construction of `APIClient` is not modelled. They are assumed deterministic, so a duplicated id in the listing gets the same answers twice. Network errors and timeouts are not modelled.
- Only the dataset response's `events` attribute is modelled, as a sequence. A missing or `None` attribute is taken as already mapped to the empty sequence.
- Argument parsing, `mkdirs`, `print`, `input` and the filesystem itself are not modelled. The output directories are the constants `CSV/Experiments` and `CSV/Datasets`.
- `int(input())` on non-numeric text (a `ValueError`) is not modelled: `choice` is an integer.
- `Sanitizer.IsAlnum`: models `str.isalnum` for ASCII letters and digits only. Python also accepts non-ASCII letters and digits, and Unicode categories are out of scope.
- Cell values are text, integers, booleans or null. Floating point is not modelled.

## Findings

| source | as written | input that shows it | evidently intended | confidence | as-written member | corrected member |
|---|---|---|---|---|---|---|
| braintrust_exporter.py:35-36 | `choice = int(input(...)) - 1` indexes the list directly, and Python counts a negative index back from the end | two projects and the answer 0: the second project is exported, without an error (the answer -1 exports the first) | the prompt lists the projects as 1..n, so only 1..n should be accepted and other answers should be a fatal input error | medium; not executed | `Selection.SelectProject` (shown by `Selection.ChoiceZeroWithTwoProjects`) | `Selection.SelectProjectChecked` (proved by `Selection.CheckedAgreesInRange`, used by `Pipeline.Run`) |
