/**
 * The name of a per-resource detail CSV, built in braintrust_exporter.py as
 * `f"{sanitize(name)}_{id[:8]}.csv"` for experiments and datasets alike.
 */
module DetailNames {
  import opened Wrappers
  import opened Sanitizer

  /** The slice `id[:8]`. */
  const IdPrefixLength: nat := 8

  const CsvSuffix: string := ".csv"

  function DetailFileName(name: string, id: string): (r: string)
    ensures 1 + |CsvSuffix| <= |r| <= MaxLength + 1 + IdPrefixLength + |CsvSuffix|
    ensures r[|r| - |CsvSuffix|..] == CsvSuffix
  {
    Sanitize(name) + "_" + Take(id, IdPrefixLength) + CsvSuffix
  }

  /**
   * The parts of a detail name: the sanitised name, an underscore, the id
   * (the whole id when it is shorter than eight characters) and ".csv".
   */
  lemma DetailFileNameParts(name: string, id: string)
    ensures var r, n, k := DetailFileName(name, id), |Sanitize(name)|, |Take(id, IdPrefixLength)|;
      && k == (if |id| < IdPrefixLength then |id| else IdPrefixLength)
      && |r| == n + 1 + k + |CsvSuffix|
      && r[..n] == Sanitize(name)
      && r[n] == '_'
      && r[n + 1..n + 1 + k] == (if |id| < IdPrefixLength then id else id[..IdPrefixLength])
      && r[n + 1 + k..] == CsvSuffix
  {
    var r, n := DetailFileName(name, id), |Sanitize(name)|;
    var p := Take(id, IdPrefixLength);
    assert r == Sanitize(name) + ("_" + p + CsvSuffix);
    assert r[n..] == "_" + p + CsvSuffix;
  }

  /**
   * Splits a detail name whose id part is eight characters long back into the
   * sanitised name and the id prefix.
   */
  function ParseDetailFileName(f: string): Option<(string, string)> {
    var n := |f| - (1 + IdPrefixLength + |CsvSuffix|);
    if n < 0 || f[|f| - |CsvSuffix|..] != CsvSuffix || f[n] != '_' then None
    else Some((f[..n], f[n + 1..|f| - |CsvSuffix|]))
  }

  lemma DetailFileNameRoundTrip(name: string, id: string)
    requires |id| >= IdPrefixLength
    ensures ParseDetailFileName(DetailFileName(name, id)) == Some((Sanitize(name), id[..IdPrefixLength]))
  {
    DetailFileNameParts(name, id);
  }

  /**
   * For ids of at least eight characters, two resources share a detail file
   * exactly when their names sanitise alike and their ids share the first
   * eight characters.
   */
  lemma DetailFileNameCollision(name1: string, id1: string, name2: string, id2: string)
    requires |id1| >= IdPrefixLength && |id2| >= IdPrefixLength
    ensures DetailFileName(name1, id1) == DetailFileName(name2, id2)
        <==> Sanitize(name1) == Sanitize(name2) && id1[..IdPrefixLength] == id2[..IdPrefixLength]
  {
    DetailFileNameRoundTrip(name1, id1);
    DetailFileNameRoundTrip(name2, id2);
  }

  /**
   * With ids shorter than eight characters the id part has no fixed length,
   * so different names and ids can meet in one file name: "a_b" with id "c"
   * and "a" with id "b_c" both write "a_b_c.csv".
   */
  lemma ShortIdsCollide()
    ensures DetailFileName("a_b", "c") == DetailFileName("a", "b_c") == "a_b_c.csv"
  {
    SanitizeFixedPoints("a_b");
    SanitizeFixedPoints("a");
    assert AllSafe("a");
  }

  /** The experiment "Run A" with id "exp12345678" gets the file "Run_A_exp12345.csv". */
  lemma RunAExample()
    ensures DetailFileName("Run A", "exp12345678") == "Run_A_exp12345.csv"
  {
    RunASanitized();
  }

  /** "Run A" and "Run_A" with ids sharing eight characters write the same file. */
  lemma RunACollides()
    ensures DetailFileName("Run A", "exp12345678") == DetailFileName("Run_A", "exp12345999")
  {
    RunASanitized();
    DetailFileNameCollision("Run A", "exp12345678", "Run_A", "exp12345999");
  }

  /** "Run A" and "Run_A" both sanitise to "Run_A". */
  lemma RunASanitized()
    ensures Sanitize("Run A") == "Run_A" && Sanitize("Run_A") == "Run_A"
  {
    SanitizeFixedPoints("Run_A");
    KeepAllowedOfAllowed("Run A");
    assert ReplaceSpaces("Run A") == "Run_A";
  }
}
