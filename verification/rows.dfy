/**
 * Flattened rows and the `dict.update` calls that assemble an aggregate row
 * in braintrust_exporter.py.
 */
module Rows {

  /** A leaf value of a flattened document, as a cell of a CSV table. */
  datatype Cell = Text(text: string) | Number(n: int) | Flag(b: bool) | Null

  /** A flattened row: column name to cell. */
  type Row = map<string, Cell>

  /** `row.update(src)`: every key of `src` takes its value from `src`. */
  function Update(row: Row, src: Row): (r: Row)
    ensures r.Keys == row.Keys + src.Keys
    ensures forall k :: k in src ==> r[k] == src[k]
    ensures forall k :: k in row && k !in src ==> r[k] == row[k]
  {
    row + src
  }

  /** `row.update(srcs[0])`, then `row.update(srcs[1])`, and so on. */
  function UpdateAll(row: Row, srcs: seq<Row>): Row
    decreases |srcs|
  {
    if srcs == [] then row else UpdateAll(Update(row, srcs[0]), srcs[1..])
  }

  /** One more `update` after a run of them. */
  lemma {:induction false} UpdateAllSnoc(row: Row, srcs: seq<Row>, src: Row)
    ensures UpdateAll(row, srcs + [src]) == Update(UpdateAll(row, srcs), src)
    decreases |srcs|
  {
    if srcs == [] {
      assert UpdateAll(row, [src]) == UpdateAll(Update(row, src), []);
    } else {
      assert (srcs + [src])[1..] == srcs[1..] + [src];
      UpdateAllSnoc(Update(row, srcs[0]), srcs[1..], src);
    }
  }

  /** The key set after the updates is the union of the key sets of all sources. */
  lemma {:induction false} UpdateAllKeys(row: Row, srcs: seq<Row>, k: string)
    ensures k in UpdateAll(row, srcs) <==> k in row || exists i :: 0 <= i < |srcs| && k in srcs[i]
    decreases |srcs|
  {
    if srcs != [] {
      UpdateAllKeys(Update(row, srcs[0]), srcs[1..], k);
      if exists i :: 0 <= i < |srcs| && k in srcs[i] {
        var i :| 0 <= i < |srcs| && k in srcs[i];
        if i > 0 { assert k in srcs[1..][i - 1]; }
      }
      if exists i :: 0 <= i < |srcs[1..]| && k in srcs[1..][i] {
        var i :| 0 <= i < |srcs[1..]| && k in srcs[1..][i];
        assert k in srcs[i + 1];
      }
    }
  }

  /** Last writer wins: a key takes its value from the last source holding it. */
  lemma {:induction false} UpdateAllLastWriter(row: Row, srcs: seq<Row>, j: nat, k: string)
    requires j < |srcs| && k in srcs[j]
    requires forall i :: j < i < |srcs| ==> k !in srcs[i]
    ensures k in UpdateAll(row, srcs) && UpdateAll(row, srcs)[k] == srcs[j][k]
    decreases |srcs|
  {
    if j == 0 {
      UpdateAllUntouched(Update(row, srcs[0]), srcs[1..], k);
    } else {
      UpdateAllLastWriter(Update(row, srcs[0]), srcs[1..], j - 1, k);
    }
  }

  /** A key that no source holds keeps its original value. */
  lemma {:induction false} UpdateAllUntouched(row: Row, srcs: seq<Row>, k: string)
    requires k in row
    requires forall i :: 0 <= i < |srcs| ==> k !in srcs[i]
    ensures k in UpdateAll(row, srcs) && UpdateAll(row, srcs)[k] == row[k]
    decreases |srcs|
  {
    if srcs != [] {
      UpdateAllUntouched(Update(row, srcs[0]), srcs[1..], k);
    }
  }

  /** Two updates in a row are the run of those two updates. */
  lemma ExperimentRowSteps(seed: Row, metadata: Row, summary: Row)
    ensures UpdateAll(seed, [metadata, summary]) == Update(Update(seed, metadata), summary)
  {
    UpdateAllSnoc(seed, [metadata], summary);
    assert [metadata] + [summary] == [metadata, summary];
    DatasetRowSteps(seed, metadata);
  }

  /** One update is the run of that single update. */
  lemma DatasetRowSteps(seed: Row, metadata: Row)
    ensures UpdateAll(seed, [metadata]) == Update(seed, metadata)
  {
    assert UpdateAll(seed, [metadata]) == UpdateAll(Update(seed, metadata), []);
  }

  /** The seed `{kind_id: id, kind_name: name}` of an aggregate row. */
  function Seed(idKey: string, nameKey: string, id: string, name: string): Row {
    map[idKey := Text(id), nameKey := Text(name)]
  }

  const ExperimentIdKey: string := "experiment_id"
  const ExperimentNameKey: string := "experiment_name"
  const DatasetIdKey: string := "dataset_id"
  const DatasetNameKey: string := "dataset_name"

  /** The aggregate row of an experiment: seed, then metadata, then summary. */
  function ExperimentRow(id: string, name: string, metadata: Row, summary: Row): Row {
    UpdateAll(Seed(ExperimentIdKey, ExperimentNameKey, id, name), [metadata, summary])
  }

  /** The aggregate row of a dataset: seed, then metadata. */
  function DatasetRow(id: string, name: string, metadata: Row): Row {
    UpdateAll(Seed(DatasetIdKey, DatasetNameKey, id, name), [metadata])
  }

  /**
   * An experiment row holds the seed keys and every metadata and summary key;
   * summary values win over metadata values, which win over the seed.
   */
  lemma ExperimentRowSources(id: string, name: string, metadata: Row, summary: Row)
    ensures var r := ExperimentRow(id, name, metadata, summary);
      && r.Keys == {ExperimentIdKey, ExperimentNameKey} + metadata.Keys + summary.Keys
      && (forall k :: k in summary ==> r[k] == summary[k])
      && (forall k :: k in metadata && k !in summary ==> r[k] == metadata[k])
      && (ExperimentIdKey !in metadata && ExperimentIdKey !in summary ==> r[ExperimentIdKey] == Text(id))
      && (ExperimentNameKey !in metadata && ExperimentNameKey !in summary ==> r[ExperimentNameKey] == Text(name))
  {
    var seed, srcs := Seed(ExperimentIdKey, ExperimentNameKey, id, name), [metadata, summary];
    var r := UpdateAll(seed, srcs);
    forall k ensures k in r <==> k in seed.Keys + metadata.Keys + summary.Keys {
      UpdateAllKeys(seed, srcs, k);
      if k in metadata { assert k in srcs[0]; }
      if k in summary { assert k in srcs[1]; }
    }
    forall k | k in summary ensures r[k] == summary[k] {
      UpdateAllLastWriter(seed, srcs, 1, k);
    }
    forall k | k in metadata && k !in summary ensures r[k] == metadata[k] {
      UpdateAllLastWriter(seed, srcs, 0, k);
    }
    if ExperimentIdKey !in metadata && ExperimentIdKey !in summary {
      UpdateAllUntouched(seed, srcs, ExperimentIdKey);
    }
    if ExperimentNameKey !in metadata && ExperimentNameKey !in summary {
      UpdateAllUntouched(seed, srcs, ExperimentNameKey);
    }
  }

  /** A dataset row holds the seed keys and every metadata key; metadata wins. */
  lemma DatasetRowSources(id: string, name: string, metadata: Row)
    ensures var r := DatasetRow(id, name, metadata);
      && r.Keys == {DatasetIdKey, DatasetNameKey} + metadata.Keys
      && (forall k :: k in metadata ==> r[k] == metadata[k])
      && (DatasetIdKey !in metadata ==> r[DatasetIdKey] == Text(id))
      && (DatasetNameKey !in metadata ==> r[DatasetNameKey] == Text(name))
  {
    var seed, srcs := Seed(DatasetIdKey, DatasetNameKey, id, name), [metadata];
    var r := UpdateAll(seed, srcs);
    forall k ensures k in r <==> k in seed.Keys + metadata.Keys {
      UpdateAllKeys(seed, srcs, k);
      if k in metadata { assert k in srcs[0]; }
    }
    forall k | k in metadata ensures r[k] == metadata[k] {
      UpdateAllLastWriter(seed, srcs, 0, k);
    }
    if DatasetIdKey !in metadata {
      UpdateAllUntouched(seed, srcs, DatasetIdKey);
    }
    if DatasetNameKey !in metadata {
      UpdateAllUntouched(seed, srcs, DatasetNameKey);
    }
  }
}
