/**
  Discovery of the genome options offered in the Genome drop-down
  (`get_combos`): the cluster is chosen from the host name, the per-cluster
  JSON descriptors are globbed from `<install>/config/genomes`, and each
  descriptor is keyed by its file name with `.<cluster>.json` removed.
 */
module Genomes {
  import opened Wrappers
  import opened PyStr
  import opened Host

  /** The three fatal exits of `get_combos`, each a `sys.exit` with a message. */
  datatype Fatal = ConfigDirMissing(configDir: string) | UnsupportedHost | NoGenomeJsons(configDir: string)

  function FatalMessage(f: Fatal): string {
    "ERROR: " +
      match f
      case ConfigDirMissing(d) => "Folder does not exist : " + d
      case UnsupportedHost => "XAVIER GUI only works on Biowulf or FRCE clusters"
      case NoGenomeJsons(d) => "No Genome JSONs found in : " + d
  }

  /** Every exit message is marked as an error, and the two folder messages end with the folder they name. */
  lemma FatalMessageNamesFolder(f: Fatal)
    ensures StartsWith(FatalMessage(f), "ERROR: ")
    ensures !f.UnsupportedHost? ==> EndsWith(FatalMessage(f), f.configDir)
  {
    PrefixOfConcat("ERROR: ", FatalMessage(f)[7..]);
    assert FatalMessage(f) == "ERROR: " + FatalMessage(f)[7..];
  }

  function ConfigDir(env: Env): string {
    Join(Install(env), "config")
  }

  function GenomesDir(env: Env): string {
    ConfigDir(env) + "/genomes"
  }

  /** The cluster a host name belongs to; only two hosts are recognised. */
  function ClusterOf(hostname: string): (r: Option<string>)
    ensures r.Some? <==> hostname == BiowulfHost || hostname == FrceHost
    ensures hostname == BiowulfHost ==> r == Some("biowulf")
    ensures hostname == FrceHost ==> r == Some("frce")
  {
    if hostname == BiowulfHost then Some("biowulf")
    else if hostname == FrceHost then Some("frce")
    else None
  }

  /** The text removed from a descriptor's file name to give its genome id. */
  function JsonSuffix(cluster: string): string {
    "." + cluster + ".json"
  }

  /** The key of a descriptor: its base name with every `.<cluster>.json` removed. */
  function GenomeId(path: string, cluster: string): string {
    Remove(Basename(path), JsonSuffix(cluster))
  }

  /** `glob.glob(config_dir + "/genomes/" + "*" + cluster + ".json")`. */
  function Descriptors(env: Env, os: Os, cluster: string): seq<string> {
    GlobStar(GenomesDir(env), os.listDir(GenomesDir(env)), cluster + ".json")
  }

  /** The dictionary the loop fills: files in enumeration order, a later file overwriting an earlier one with the same key. */
  function Collect(files: seq<string>, cluster: string): map<string, string>
    decreases |files|
  {
    if files == [] then map[]
    else
      var last := files[|files| - 1];
      Collect(files[..|files| - 1], cluster)[GenomeId(last, cluster) := last]
  }

  /** `get_combos()`. */
  method GetCombos(env: Env, os: Os) returns (r: Result<map<string, string>, Fatal>)
    ensures !os.pathExists(ConfigDir(env)) ==> r == Err(ConfigDirMissing(ConfigDir(env)))
    ensures os.pathExists(ConfigDir(env)) && ClusterOf(env.hostname) == None ==> r == Err(UnsupportedHost)
    ensures os.pathExists(ConfigDir(env)) && ClusterOf(env.hostname).Some? ==>
      var cluster := ClusterOf(env.hostname).value;
      var files := Descriptors(env, os, cluster);
      r == if files == [] then Err(NoGenomeJsons(ConfigDir(env))) else Ok(Collect(files, cluster))
  {
    var configDir := ConfigDir(env);
    if !os.pathExists(configDir) {
      return Err(ConfigDirMissing(configDir));
    }
    var cluster: string;
    if env.hostname == BiowulfHost {
      cluster := "biowulf";
    } else if env.hostname == FrceHost {
      cluster := "frce";
    } else {
      return Err(UnsupportedHost);
    }
    var jsonFiles := GlobStar(configDir + "/genomes", os.listDir(configDir + "/genomes"), cluster + ".json");
    if |jsonFiles| == 0 {
      return Err(NoGenomeJsons(configDir));
    }
    var jsons := CollectDescriptors(jsonFiles, cluster);
    return Ok(jsons);
  }

  /** The loop of lines 72-75: each file is stored under its id, in enumeration order. */
  method CollectDescriptors(jsonFiles: seq<string>, cluster: string) returns (jsons: map<string, string>)
    ensures jsons == Collect(jsonFiles, cluster)
  {
    jsons := map[];
    var i := 0;
    while i < |jsonFiles|
      invariant 0 <= i <= |jsonFiles|
      invariant jsons == Collect(jsonFiles[..i], cluster)
    {
      var k := Basename(jsonFiles[i]);
      k := Remove(k, "." + cluster + ".json");
      assert jsonFiles[..i + 1] == jsonFiles[..i] + [jsonFiles[i]];
      CollectSnoc(jsonFiles[..i], jsonFiles[i], cluster);
      jsons := jsons[k := jsonFiles[i]];
      i := i + 1;
    }
    assert jsonFiles[..i] == jsonFiles;
  }

  /** One more file is stored under its id, over whatever was there. */
  lemma CollectSnoc(files: seq<string>, f: string, cluster: string)
    ensures Collect(files + [f], cluster) == Collect(files, cluster)[GenomeId(f, cluster) := f]
  {
    assert (files + [f])[..|files|] == files;
  }

  /** The keys are exactly the ids of the files. */
  lemma {:induction false} CollectKeys(files: seq<string>, cluster: string)
    ensures Collect(files, cluster).Keys == set f | f in files :: GenomeId(f, cluster)
    decreases |files|
  {
    if files != [] {
      var init := files[..|files| - 1];
      CollectKeys(init, cluster);
      assert files == init + [files[|files| - 1]];
    }
  }

  /** Every key maps to one of the files, and to a file with that id. */
  lemma {:induction false} CollectValues(files: seq<string>, cluster: string, k: string)
    requires k in Collect(files, cluster)
    ensures Collect(files, cluster)[k] in files
    ensures GenomeId(Collect(files, cluster)[k], cluster) == k
    decreases |files|
  {
    var init := files[..|files| - 1];
    if GenomeId(files[|files| - 1], cluster) != k {
      CollectValues(init, cluster, k);
    }
  }

  /** When several files give the same id, the one enumerated last wins. */
  lemma {:induction false} CollectLastWins(files: seq<string>, cluster: string, i: nat)
    requires i < |files|
    requires forall j :: i < j < |files| ==> GenomeId(files[j], cluster) != GenomeId(files[i], cluster)
    ensures GenomeId(files[i], cluster) in Collect(files, cluster)
    ensures Collect(files, cluster)[GenomeId(files[i], cluster)] == files[i]
    decreases |files|
  {
    var init, last := files[..|files| - 1], files[|files| - 1];
    assert files == init + [last];
    CollectSnoc(init, last, cluster);
    if i < |files| - 1 {
      assert init[i] == files[i];
      assert GenomeId(last, cluster) != GenomeId(files[i], cluster);
      CollectLastWins(init, cluster, i);
    }
  }

  /** Every file's id is a key. */
  lemma CollectHasKey(files: seq<string>, cluster: string, f: string)
    requires f in files
    ensures GenomeId(f, cluster) in Collect(files, cluster)
  {
    CollectKeys(files, cluster);
  }

  /** A successful discovery never returns an empty mapping. */
  lemma CollectNonEmpty(files: seq<string>, cluster: string)
    requires files != []
    ensures |Collect(files, cluster)| > 0
  {
    CollectKeys(files, cluster);
    assert GenomeId(files[0], cluster) in Collect(files, cluster).Keys;
  }

  /** A descriptor `<dir>/<id>.<cluster>.json` whose id has no '.' or '/' is offered as `<id>`. */
  lemma DescriptorId(dir: string, id: string, cluster: string)
    requires '/' !in id && '.' !in id && '/' !in cluster
    ensures GenomeId(dir + "/" + id + JsonSuffix(cluster), cluster) == id
  {
    var name := id + JsonSuffix(cluster);
    assert '/' !in name by {
      forall c | c in name ensures c != '/' {
        assert c in id || c in JsonSuffix(cluster);
      }
    }
    assert dir + "/" + id + JsonSuffix(cluster) == dir + "/" + name;
    BasenameOfEntry(dir, name);
    RemoveAppended(id, JsonSuffix(cluster));
  }

  /** The set of ids offered for a listing: each matching entry name with `.<cluster>.json` removed. */
  function ListedIds(names: seq<string>, cluster: string): set<string> {
    set n | n in names && MatchesStar(n, cluster + ".json") :: Remove(n, JsonSuffix(cluster))
  }

  lemma ListedIdsOffered(dir: string, names: seq<string>, cluster: string, k: string)
    requires forall n :: n in names ==> '/' !in n
    requires k in ListedIds(names, cluster)
    ensures k in Collect(GlobStar(dir, names, cluster + ".json"), cluster)
  {
    var files := GlobStar(dir, names, cluster + ".json");
    var n :| n in names && MatchesStar(n, cluster + ".json") && k == Remove(n, JsonSuffix(cluster));
    GlobStarHas(dir, names, cluster + ".json", n);
    EntryId(dir, n, cluster);
    CollectHasKey(files, cluster, dir + "/" + n);
  }

  /** The id of a listed entry is its name with `.<cluster>.json` removed. */
  lemma EntryId(dir: string, n: string, cluster: string)
    requires '/' !in n
    ensures GenomeId(dir + "/" + n, cluster) == Remove(n, JsonSuffix(cluster))
  {
    BasenameOfEntry(dir, n);
  }

  lemma OfferedIdsListed(dir: string, names: seq<string>, cluster: string, k: string)
    requires forall n :: n in names ==> '/' !in n
    requires k in Collect(GlobStar(dir, names, cluster + ".json"), cluster)
    ensures k in ListedIds(names, cluster)
  {
    var files := GlobStar(dir, names, cluster + ".json");
    CollectKeys(files, cluster);
    var f :| f in files && k == GenomeId(f, cluster);
    var n :| n in names && MatchesStar(n, cluster + ".json") && f == dir + "/" + n;
    BasenameOfEntry(dir, n);
  }

  /**
    With entry names free of '/', as a directory listing's are, the offered ids
    are the matching entry names with `.<cluster>.json` removed.
   */
  lemma OfferedIds(env: Env, os: Os, cluster: string)
    requires forall n :: n in os.listDir(GenomesDir(env)) ==> '/' !in n
    ensures Collect(Descriptors(env, os, cluster), cluster).Keys == ListedIds(os.listDir(GenomesDir(env)), cluster)
  {
    var dir := GenomesDir(env);
    var names := os.listDir(dir);
    var offered := Collect(GlobStar(dir, names, cluster + ".json"), cluster);
    forall k | k in ListedIds(names, cluster) ensures k in offered {
      ListedIdsOffered(dir, names, cluster, k);
    }
    forall k | k in offered ensures k in ListedIds(names, cluster) {
      OfferedIdsListed(dir, names, cluster, k);
    }
    assert offered == Collect(Descriptors(env, os, cluster), cluster);
  }
}
