/**
  `get_fastqs`: the sequencing read files of an input folder, found with two
  globs (`*.fastq.gz`, then `*.fq.gz`) in the normalised folder, the second
  list appended to the first.
 */
module Fastqs {
  import opened PyStr
  import opened Host

  const FastqSuffix := ".fastq.gz"
  const FqSuffix := ".fq.gz"

  /** Whether an entry name is picked up by either glob. */
  predicate IsReadFile(name: string) {
    MatchesStar(name, FastqSuffix) || MatchesStar(name, FqSuffix)
  }

  /** The two glob results, `*.fastq.gz` first. */
  function ReadFiles(dir: string, names: seq<string>): seq<string> {
    GlobStar(dir, names, FastqSuffix) + GlobStar(dir, names, FqSuffix)
  }

  /** `get_fastqs(inputdir)`. */
  method GetFastqs(os: Os, inputDir: string) returns (r: seq<string>)
    ensures var dir := os.fixpath(inputDir);
      forall p :: p in r <==> exists n :: n in os.listDir(dir) && IsReadFile(n) && p == dir + "/" + n
    ensures var dir := os.fixpath(inputDir);
      r == [] <==> forall n :: n in os.listDir(dir) ==> !IsReadFile(n)
    ensures r == ReadFiles(os.fixpath(inputDir), os.listDir(os.fixpath(inputDir)))
  {
    var dir := os.fixpath(inputDir);
    var inputfastqs := GlobStar(dir, os.listDir(dir), FastqSuffix);
    var inputfqs := GlobStar(dir, os.listDir(dir), FqSuffix);
    inputfastqs := inputfastqs + inputfqs;
    r := inputfastqs;
    if r == [] {
      forall n | n in os.listDir(dir) ensures !IsReadFile(n) {
        assert dir + "/" + n !in r;
      }
    } else {
      assert r[0] in r;
    }
  }

  /** No name ends in both suffixes, so the two globs never report the same file. */
  lemma SuffixesExclusive(name: string)
    ensures !(EndsWith(name, FastqSuffix) && EndsWith(name, FqSuffix))
  {
    if EndsWith(name, FastqSuffix) {
      var k := |name|;
      assert name[k - 9..][3] == 's';
      assert name[k - 6..][0] == 's';
    }
  }

  /** Every `.fastq.gz` match comes before every `.fq.gz` match, whatever the listing order. */
  lemma FastqsListedFirst(dir: string, names: seq<string>)
    ensures var r := ReadFiles(dir, names);
      var k := |GlobStar(dir, names, FastqSuffix)|;
      k <= |r| &&
      (forall i :: 0 <= i < k ==> EndsWith(r[i], FastqSuffix)) &&
      (forall i :: k <= i < |r| ==> EndsWith(r[i], FqSuffix))
  {
    var a := GlobStar(dir, names, FastqSuffix);
    var b := GlobStar(dir, names, FqSuffix);
    assert forall i :: 0 <= i < |a| ==> (a + b)[i] == a[i];
    assert forall i :: |a| <= i < |a| + |b| ==> (a + b)[i] == b[i - |a|];
  }

  /** A folder holding `b.fq.gz` and `a.fastq.gz` yields both, the `.fastq.gz` file first. */
  lemma BothExtensionsFound(dir: string)
    ensures ReadFiles(dir, ["b.fq.gz", "a.fastq.gz"]) == [dir + "/a.fastq.gz", dir + "/b.fq.gz"]
  {
    var names := ["b.fq.gz", "a.fastq.gz"];
    assert names[1..] == ["a.fastq.gz"] && names[1..][1..] == [];
    assert "a.fastq.gz"[..1] == "a" && "a.fastq.gz"[1..] == FastqSuffix;
    assert "b.fq.gz"[..1] == "b" && "b.fq.gz"[1..] == FqSuffix;
    assert !MatchesStar("b.fq.gz", FastqSuffix);
    assert MatchesStar("a.fastq.gz", FastqSuffix);
    assert MatchesStar("b.fq.gz", FqSuffix);
    assert !MatchesStar("a.fastq.gz", FqSuffix) by { SuffixesExclusive("a.fastq.gz"); }
    assert GlobStar(dir, names, FastqSuffix) == [dir + "/" + "a.fastq.gz"];
    assert GlobStar(dir, names, FqSuffix) == [dir + "/" + "b.fq.gz"];
    assert dir + "/" + "a.fastq.gz" == dir + "/a.fastq.gz";
    assert dir + "/" + "b.fq.gz" == dir + "/b.fq.gz";
  }

  /** Hidden files are never read files, whatever their extension. */
  lemma HiddenFilesSkipped(name: string)
    requires StartsWith(name, ".")
    ensures !IsReadFile(name)
  {
  }
}
