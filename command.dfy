/**
  The `xavier run` command line built from one read of the form, and the
  `--runmode` token that `run` appends before executing it.

  A read of the form maps each widget key to a string (text fields, the genome
  combo) or a boolean (radio buttons). `Value` keeps both kinds so that the
  Python comparisons `values[k] == True` and `values[k] == ""` are modelled as
  written: a boolean is never equal to a string.
 */
module Command {
  import opened PyStr
  import opened Host

  datatype Value = Str(s: string) | Bool(b: bool)

  /** `v == True` in Python. */
  predicate IsTrue(v: Value) {
    v == Bool(true)
  }

  /** `v == ""` in Python. */
  predicate IsEmptyStr(v: Value) {
    v == Str("")
  }

  /** The `values` dictionary of one `window.read()`. */
  datatype Snapshot = Snapshot(
    indir: string, outdir: string, pairs: string, targets: string, jobname: string, annotation: string,
    tumnorm: Value, tumonly: Value, nocnv: Value, cnv: Value,
    noffpe: Value, ffpe: Value, deftarg: Value, custarg: Value)

  /** One piece of the command line, in the order the builder appends them. */
  datatype Arg =
    | Subcommand(exe: string)
    | Input(dir: string)
    | OutputDir(dir: string, job: string)
    | Genome(genome: string)
    | Targets(pattern: string)
    | SlurmMode
    | SifCache(cache: string)
    | TmpDir
    | Pairs(file: string)
    | Cnv
    | Ffpe

  function Render(a: Arg): string {
    match a
    case Subcommand(exe) => exe + " run "
    case Input(dir) => " --input " + dir + "/*.R?.fastq.gz"
    case OutputDir(dir, job) => " --output " + dir + "/" + job
    case Genome(g) => " --genome " + g
    case Targets(t) => " --targets " + t
    case SlurmMode => " --mode slurm "
    case SifCache(c) => " --sif-cache " + c + "/XAVIER"
    case TmpDir => " --tmp-dir /scratch/cluster_scratch/$USER/"
    case Pairs(p) => " --pairs " + p
    case Cnv => " --cnv "
    case Ffpe => " --ffpe "
  }

  /** The rendered arguments, concatenated in order: how `xavier_cmd` is grown by `+=`. */
  function RenderAll(args: seq<Arg>): string
    decreases |args|
  {
    if args == [] then "" else RenderAll(args[..|args| - 1]) + Render(args[|args| - 1])
  }

  lemma RenderSnoc(args: seq<Arg>, a: Arg)
    ensures RenderAll(args + [a]) == RenderAll(args) + Render(a)
  {
    assert (args + [a])[..|args|] == args;
  }

  lemma RenderSingle(a: Arg)
    ensures RenderAll([a]) == Render(a)
  {
    RenderSnoc([], a);
    assert [] + [a] == [a];
  }

  lemma RenderPair(a: Arg, b: Arg)
    ensures RenderAll([a] + [b]) == Render(a) + Render(b)
  {
    RenderSingle(a);
    RenderSnoc([a], b);
  }

  lemma {:induction false} RenderAppend(a: seq<Arg>, b: seq<Arg>)
    ensures RenderAll(a + b) == RenderAll(a) + RenderAll(b)
    decreases |b|
  {
    if b == [] {
      assert a + b == a;
    } else {
      var init := b[..|b| - 1];
      assert (a + b)[..|a + b| - 1] == a + init;
      RenderAppend(a, init);
      ConcatAssoc(RenderAll(a), RenderAll(init), Render(b[|b| - 1]));
    }
  }

  /** The bundled targets: `os.path.join(XAVIERDIR, XAVIERVER, "resources")`, then a glob on the genome name. */
  function TargetsPattern(env: Env, genome: string): string {
    Join(Install(env), "resources") + "/*" + genome + "*.bed"
  }

  /** The arguments of the run command for one read of the form. */
  function CommandArgs(env: Env, v: Snapshot): seq<Arg> {
    BaseArgs(env, v) + ClusterArgs(env) + ModeArgs(v) + FfpeArgs(v)
  }

  /** The six arguments every command carries, listed as the builder appends them. */
  function BaseArgs(env: Env, v: Snapshot): seq<Arg> {
    [Subcommand(XavierExe(env))] + [Input(v.indir)] + [OutputDir(v.outdir, v.jobname)]
    + [Genome(v.annotation)] + [Targets(TargetsPattern(env, v.annotation))] + [SlurmMode]
  }

  /** The container cache and scratch arguments, added on the FRCE host only. */
  function ClusterArgs(env: Env): seq<Arg> {
    if env.hostname == FrceHost then [SifCache(env.sifCache)] + [TmpDir] else []
  }

  /** The pairs file, and `--cnv` after it, added in tumor-normal mode only. */
  function ModeArgs(v: Snapshot): seq<Arg> {
    if IsTrue(v.tumnorm) then [Pairs(v.pairs)] + (if IsTrue(v.cnv) then [Cnv] else []) else []
  }

  function FfpeArgs(v: Snapshot): seq<Arg> {
    if IsTrue(v.ffpe) then [Ffpe] else []
  }

  /** The command line itself. */
  function CommandLine(env: Env, v: Snapshot): string {
    RenderAll(CommandArgs(env, v))
  }

  /** Lines 381-386: the six fixed arguments. */
  method BaseCommand(env: Env, v: Snapshot) returns (cmd: string)
    ensures cmd == RenderAll(BaseArgs(env, v))
  {
    var genome := v.annotation;
    var targetsFile := Join(Install(env), "resources") + "/*" + genome + "*.bed";
    ghost var args: seq<Arg> := [Subcommand(XavierExe(env))];
    cmd := XavierExe(env) + " run ";
    assert [Subcommand(XavierExe(env))] == [] + [Subcommand(XavierExe(env))];
    RenderSnoc([], Subcommand(XavierExe(env)));
    assert cmd == RenderAll(args);
    cmd := cmd + (" --input " + v.indir + "/*.R?.fastq.gz");
    RenderSnoc(args, Input(v.indir));
    args := args + [Input(v.indir)];
    assert cmd == RenderAll(args);
    cmd := cmd + (" --output " + v.outdir + "/" + v.jobname);
    RenderSnoc(args, OutputDir(v.outdir, v.jobname));
    args := args + [OutputDir(v.outdir, v.jobname)];
    assert cmd == RenderAll(args);
    cmd := cmd + (" --genome " + genome);
    RenderSnoc(args, Genome(genome));
    args := args + [Genome(genome)];
    assert cmd == RenderAll(args);
    cmd := cmd + (" --targets " + targetsFile);
    RenderSnoc(args, Targets(targetsFile));
    args := args + [Targets(targetsFile)];
    assert cmd == RenderAll(args);
    cmd := cmd + " --mode slurm ";
    RenderSnoc(args, SlurmMode);
    args := args + [SlurmMode];
    assert cmd == RenderAll(args);
    assert args == BaseArgs(env, v);
  }

  /** Lines 388-390: the cluster arguments appended to a command. */
  method AppendClusterArgs(env: Env, cmd0: string) returns (cmd: string)
    ensures cmd == cmd0 + RenderAll(ClusterArgs(env))
  {
    cmd := cmd0;
    if env.hostname == FrceHost {
      cmd := cmd + (" --sif-cache " + env.sifCache + "/XAVIER");
      cmd := cmd + " --tmp-dir /scratch/cluster_scratch/$USER/";
      RenderPair(SifCache(env.sifCache), TmpDir);
      ConcatAssoc(cmd0, Render(SifCache(env.sifCache)), Render(TmpDir));
    }
  }

  /** Lines 392-395: the mode arguments appended to a command. */
  method AppendModeArgs(v: Snapshot, cmd0: string) returns (cmd: string)
    ensures cmd == cmd0 + RenderAll(ModeArgs(v))
  {
    cmd := cmd0;
    if IsTrue(v.tumnorm) {
      cmd := cmd + (" --pairs " + v.pairs);
      if IsTrue(v.cnv) {
        cmd := cmd + " --cnv ";
        RenderPair(Pairs(v.pairs), Cnv);
        ConcatAssoc(cmd0, Render(Pairs(v.pairs)), Render(Cnv));
      } else {
        RenderSingle(Pairs(v.pairs));
        assert [Pairs(v.pairs)] + [] == [Pairs(v.pairs)];
      }
    }
  }

  /** Lines 397-398: the FFPE flag appended to a command. */
  method AppendFfpeArgs(v: Snapshot, cmd0: string) returns (cmd: string)
    ensures cmd == cmd0 + RenderAll(FfpeArgs(v))
  {
    cmd := cmd0;
    if IsTrue(v.ffpe) {
      cmd := cmd + " --ffpe ";
      RenderSingle(Ffpe);
    }
  }

  /** The builder of the `-SUBMIT-` branch: `xavier_cmd` grown one argument at a time. */
  method BuildCommand(env: Env, v: Snapshot) returns (cmd: string)
    ensures cmd == CommandLine(env, v)
  {
    var base := BaseCommand(env, v);
    var withCluster := AppendClusterArgs(env, base);
    var withMode := AppendModeArgs(v, withCluster);
    cmd := AppendFfpeArgs(v, withMode);
    var b, c, m, f := BaseArgs(env, v), ClusterArgs(env), ModeArgs(v), FfpeArgs(v);
    RenderAppend(b, c);
    RenderAppend(b + c, m);
    RenderAppend(b + c + m, f);
  }

  lemma ArgsAssoc(a: seq<Arg>, b: seq<Arg>, c: seq<Arg>)
    ensures a + b + c == a + (b + c)
  {
  }

  /** The arguments after the fixed six. */
  function OptionalArgs(env: Env, v: Snapshot): seq<Arg> {
    ClusterArgs(env) + ModeArgs(v) + FfpeArgs(v)
  }

  lemma CommandArgsSplit(env: Env, v: Snapshot)
    ensures CommandArgs(env, v) == BaseArgs(env, v) + OptionalArgs(env, v)
  {
    var b, c, m, f := BaseArgs(env, v), ClusterArgs(env), ModeArgs(v), FfpeArgs(v);
    ArgsAssoc(b, c, m);
    ArgsAssoc(b, c + m, f);
  }

  /** The command line opens with the six fixed arguments, in this order, whatever follows. */
  lemma CommandStartsWithBase(env: Env, v: Snapshot)
    ensures CommandArgs(env, v)[..6] == BaseArgs(env, v)
    ensures StartsWith(CommandLine(env, v), RenderAll(BaseArgs(env, v)))
  {
    var base, rest := BaseArgs(env, v), OptionalArgs(env, v);
    CommandArgsSplit(env, v);
    assert |base| == 6;
    assert (base + rest)[..6] == base;
    RenderAppend(base, rest);
    PrefixOfConcat(RenderAll(base), RenderAll(rest));
  }

  /** The first thing on the command line is the executable followed by `run`. */
  lemma CommandStartsWithExecutable(env: Env, v: Snapshot)
    ensures StartsWith(CommandLine(env, v), XavierExe(env) + " run ")
  {
    var args := CommandArgs(env, v);
    var first := Subcommand(XavierExe(env));
    assert args[0] == first;
    assert args == [first] + args[1..];
    RenderAppend([first], args[1..]);
    RenderSingle(first);
    PrefixOfConcat(Render(first), RenderAll(args[1..]));
  }

  /** The targets argument depends on the genome alone: the custom targets field and its radio never reach the command. */
  lemma CustomTargetsIgnored(env: Env, v: Snapshot, targets: string, custarg: Value, deftarg: Value)
    ensures CommandLine(env, v.(targets := targets, custarg := custarg, deftarg := deftarg)) == CommandLine(env, v)
    ensures Targets(TargetsPattern(env, v.annotation)) in CommandArgs(env, v)
  {
    assert CommandArgs(env, v)[4] == Targets(TargetsPattern(env, v.annotation));
  }

  /** The kinds of argument every command carries. */
  predicate Fixed(a: Arg) {
    a.Subcommand? || a.Input? || a.OutputDir? || a.Genome? || a.Targets? || a.SlurmMode?
  }

  lemma BaseArgsFixed(env: Env, v: Snapshot)
    ensures forall a :: a in BaseArgs(env, v) ==> Fixed(a)
  {
  }

  /** An argument of the command comes from exactly one of its four parts. */
  lemma ArgIn(env: Env, v: Snapshot, a: Arg)
    ensures a in CommandArgs(env, v) <==>
      a in BaseArgs(env, v) || a in ClusterArgs(env) || a in ModeArgs(v) || a in FfpeArgs(v)
  {
  }

  /** The cache and scratch arguments appear exactly on the FRCE host. */
  lemma ClusterArgsOnlyOnFrce(env: Env, v: Snapshot)
    ensures SifCache(env.sifCache) in CommandArgs(env, v) <==> env.hostname == FrceHost
    ensures TmpDir in CommandArgs(env, v) <==> env.hostname == FrceHost
    ensures forall c :: SifCache(c) in CommandArgs(env, v) ==> c == env.sifCache
  {
    BaseArgsFixed(env, v);
    ArgIn(env, v, SifCache(env.sifCache));
    ArgIn(env, v, TmpDir);
    forall c | SifCache(c) in CommandArgs(env, v) ensures c == env.sifCache {
      ArgIn(env, v, SifCache(c));
    }
  }

  /** A pairs file is passed exactly when `-TUMNORM-` reads True, and it is the `-PAIRS-` field. */
  lemma PairsOnlyInTumorNormal(env: Env, v: Snapshot)
    ensures Pairs(v.pairs) in CommandArgs(env, v) <==> IsTrue(v.tumnorm)
    ensures forall p :: Pairs(p) in CommandArgs(env, v) ==> p == v.pairs
  {
    BaseArgsFixed(env, v);
    ArgIn(env, v, Pairs(v.pairs));
    forall p | Pairs(p) in CommandArgs(env, v) ensures p == v.pairs {
      ArgIn(env, v, Pairs(p));
    }
  }

  /** `--cnv` needs both `-TUMNORM-` and `-CNV-` to read True, so a tumor-only read never carries it. */
  lemma CnvNeedsTumorNormal(env: Env, v: Snapshot)
    ensures Cnv in CommandArgs(env, v) <==> IsTrue(v.tumnorm) && IsTrue(v.cnv)
    ensures !IsTrue(v.tumnorm) ==> Cnv !in CommandArgs(env, v) && forall p :: Pairs(p) !in CommandArgs(env, v)
  {
    BaseArgsFixed(env, v);
    ArgIn(env, v, Cnv);
    PairsOnlyInTumorNormal(env, v);
  }

  lemma FfpeFlag(env: Env, v: Snapshot)
    ensures Ffpe in CommandArgs(env, v) <==> IsTrue(v.ffpe)
  {
    BaseArgsFixed(env, v);
    ArgIn(env, v, Ffpe);
  }

  /** A run phase, and the token `run` appends for it. */
  datatype Phase = Init | DryRun | Execute

  function PhaseToken(p: Phase): string {
    match p
    case Init => " --runmode init"
    case DryRun => " --runmode dryrun"
    case Execute => " --runmode run"
  }

  /** The tokens of a list of phases, concatenated in order. */
  function Tokens(ps: seq<Phase>): string
    decreases |ps|
  {
    if ps == [] then "" else Tokens(ps[..|ps| - 1]) + PhaseToken(ps[|ps| - 1])
  }

  lemma TokensSnoc(ps: seq<Phase>, p: Phase)
    ensures Tokens(ps + [p]) == Tokens(ps) + PhaseToken(p)
  {
    assert (ps + [p])[..|ps|] == ps;
  }

  /** The phases whose flags are set, in the order `run` tests them. */
  function Phases(init: bool, dry: bool, run: bool): seq<Phase> {
    (if init then [Init] else []) + (if dry then [DryRun] else []) + (if run then [Execute] else [])
  }

  /** The text of the runner script `run` writes: the command and its phase tokens. */
  function RunLine(cmd: string, init: bool, dry: bool, run: bool): string {
    cmd + Tokens(Phases(init, dry, run))
  }

  /** The text `run` writes to its runner script: the command, then one token per set flag. */
  method RunnerText(cmd: string, init: bool, dry: bool, run: bool) returns (line: string)
    ensures line == RunLine(cmd, init, dry, run)
    ensures StartsWith(line, cmd)
  {
    line := cmd;
    ghost var done: seq<Phase> := [];
    if init {
      line := line + " --runmode init";
      TokensSnoc(done, Init);
      ConcatAssoc(cmd, Tokens(done), PhaseToken(Init));
      done := done + [Init];
    }
    assert line == cmd + Tokens(done);
    if dry {
      line := line + " --runmode dryrun";
      TokensSnoc(done, DryRun);
      ConcatAssoc(cmd, Tokens(done), PhaseToken(DryRun));
      done := done + [DryRun];
    }
    assert line == cmd + Tokens(done);
    if run {
      line := line + " --runmode run";
      TokensSnoc(done, Execute);
      ConcatAssoc(cmd, Tokens(done), PhaseToken(Execute));
      done := done + [Execute];
    }
    assert line == cmd + Tokens(done);
    assert done == Phases(init, dry, run);
    PrefixOfConcat(cmd, Tokens(done));
  }

  /** `run(cmd, init, dry, run)`: writes the runner script, executes it, returns the captured streams. */
  method Run(os: Os, cmd: string, init: bool, dry: bool, run: bool) returns (line: string, out: Output)
    ensures line == RunLine(cmd, init, dry, run)
    ensures StartsWith(line, cmd)
    ensures out == os.shell(line)
  {
    line := RunnerText(cmd, init, dry, run);
    out := os.shell(line);
  }

  lemma TokensSingle(p: Phase)
    ensures Tokens([p]) == PhaseToken(p)
  {
    TokensSnoc([], p);
    assert [] + [p] == [p];
  }

  /** With exactly one flag set, `run` appends exactly that phase's token. */
  lemma SinglePhase(cmd: string, init: bool, dry: bool, run: bool)
    requires (if init then 1 else 0) + (if dry then 1 else 0) + (if run then 1 else 0) == 1
    ensures RunLine(cmd, init, dry, run) ==
      cmd + (if init then " --runmode init" else if dry then " --runmode dryrun" else " --runmode run")
  {
    if init {
      assert Phases(init, dry, run) == [Init];
      TokensSingle(Init);
    } else if dry {
      assert Phases(init, dry, run) == [DryRun];
      TokensSingle(DryRun);
    } else {
      assert Phases(init, dry, run) == [Execute];
      TokensSingle(Execute);
    }
  }

  /** With several flags set, the tokens follow in the order init, dryrun, run. */
  lemma AllPhases(cmd: string)
    ensures RunLine(cmd, true, true, true) == cmd + " --runmode init" + " --runmode dryrun" + " --runmode run"
  {
    var a, b, c := PhaseToken(Init), PhaseToken(DryRun), PhaseToken(Execute);
    assert Phases(true, true, true) == [Init, DryRun] + [Execute];
    assert [Init, DryRun] == [Init] + [DryRun];
    TokensSingle(Init);
    TokensSnoc([Init], DryRun);
    TokensSnoc([Init, DryRun], Execute);
    assert Tokens(Phases(true, true, true)) == (a + b) + c;
    ConcatAssoc(cmd, a + b, c);
    ConcatAssoc(cmd, a, b);
  }
}
