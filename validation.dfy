/**
  The checks of the `-SUBMIT-` branch, made on one read of the form before any
  command is built. They run in a fixed order and the first failing one ends
  the submission; only the re-run question can leave a field changed (the
  output folder is cleared when the user declines).
 */
module Validation {
  import opened PyStr
  import opened Host
  import opened Fastqs
  import opened Command

  /** Why a submission was turned down. */
  datatype Reason =
    | InputMissing
    | InputNotFound
    | NoFastqs
    | OutputMissing
    | RerunDeclined
    | TargetsMissing
    | NoMode
    | PairsMissing

  datatype Verdict = Pass | Fail(reason: Reason)

  /** The error popup shown for a reason; declining the re-run question shows none. */
  function ErrorPopup(r: Reason): string {
    match r
    case InputMissing => "Input folder must be provided!!"
    case InputNotFound => "Input folder doesn't exist!!"
    case NoFastqs => "Input folder has no fastqs!!"
    case OutputMissing => "Output folder must be provided!!"
    case RerunDeclined => ""
    case TargetsMissing => "Custom Targets BED file selected but not provided!!"
    case NoMode => "Select an analysis mode"
    case PairsMissing => "Tumor-normal mode selected. Need Pairs file to continue"
  }

  /** Every refusal shows a popup except declining the re-run question. */
  lemma ErrorPopupShown(r: Reason)
    ensures ErrorPopup(r) == "" <==> r == RerunDeclined
  {
  }

  /** The folder the job writes to. */
  function OutputFolder(v: Snapshot): string {
    v.outdir + "/" + v.jobname
  }

  /** The read files `get_fastqs` finds for the input field. */
  function InputReads(v: Snapshot, os: Os): seq<string> {
    ReadFiles(os.fixpath(v.indir), os.listDir(os.fixpath(v.indir)))
  }

  /** The position of each check in the chain. */
  function Rank(r: Reason): nat {
    match r
    case InputMissing => 0
    case InputNotFound => 1
    case NoFastqs => 2
    case OutputMissing => 3
    case RerunDeclined => 4
    case TargetsMissing => 5
    case NoMode => 6
    case PairsMissing => 7
  }

  /**
    Each check on its own, as if it were the only one made. `rerun` is the
    answer the user would give to the re-run question.
   */
  predicate Fails(r: Reason, v: Snapshot, os: Os, rerun: Answer) {
    match r
    case InputMissing => v.indir == ""
    case InputNotFound => !os.pathExists(v.indir)
    case NoFastqs => |InputReads(v, os)| == 0
    case OutputMissing => v.outdir == ""
    case RerunDeclined => os.pathExists(OutputFolder(v)) && rerun == No
    case TargetsMissing => IsTrue(v.custarg) && v.targets == ""
    case NoMode => IsEmptyStr(v.tumnorm) && IsEmptyStr(v.tumonly)
    case PairsMissing => IsTrue(v.tumnorm) && v.pairs == ""
  }

  /** The chain of lines 316-371, stopping at the first failure. */
  function Validate(v: Snapshot, os: Os, rerun: Answer): (r: Verdict)
    ensures r.Fail? ==> Fails(r.reason, v, os, rerun)
  {
    if v.indir == "" then Fail(InputMissing)
    else if !os.pathExists(v.indir) then Fail(InputNotFound)
    else if |InputReads(v, os)| == 0 then Fail(NoFastqs)
    else if v.outdir == "" then Fail(OutputMissing)
    else if os.pathExists(OutputFolder(v)) && rerun == No then Fail(RerunDeclined)
    else if IsTrue(v.custarg) && v.targets == "" then Fail(TargetsMissing)
    else if IsEmptyStr(v.tumnorm) && IsEmptyStr(v.tumonly) then Fail(NoMode)
    else if IsTrue(v.tumnorm) && v.pairs == "" then Fail(PairsMissing)
    else Pass
  }

  /**
    The chain reports the failing check of lowest rank, and passes exactly when
    no check fails.
   */
  lemma ValidateIsFirstFailure(v: Snapshot, os: Os, rerun: Answer)
    ensures Validate(v, os, rerun) == Pass <==> forall c :: !Fails(c, v, os, rerun)
    ensures Validate(v, os, rerun).Fail? ==>
      forall c :: Rank(c) < Rank(Validate(v, os, rerun).reason) ==> !Fails(c, v, os, rerun)
  {
    var r := Validate(v, os, rerun);
    forall c | Fails(c, v, os, rerun) ensures r.Fail? && Rank(r.reason) <= Rank(c) {
      match c
      case InputMissing =>
      case InputNotFound =>
      case NoFastqs =>
      case OutputMissing =>
      case RerunDeclined =>
      case TargetsMissing =>
      case NoMode =>
      case PairsMissing =>
    }
  }

  /** What a passing read guarantees about the fields the command is built from. */
  lemma PassRequiresInputs(v: Snapshot, os: Os, rerun: Answer)
    requires Validate(v, os, rerun) == Pass
    ensures v.indir != "" && os.pathExists(v.indir) && |InputReads(v, os)| > 0
    ensures v.outdir != ""
    ensures IsTrue(v.custarg) ==> v.targets != ""
    ensures IsTrue(v.tumnorm) ==> v.pairs != ""
    ensures os.pathExists(OutputFolder(v)) ==> rerun != No
  {
    ValidateIsFirstFailure(v, os, rerun);
    assert !Fails(InputMissing, v, os, rerun) && !Fails(InputNotFound, v, os, rerun);
    assert !Fails(NoFastqs, v, os, rerun) && !Fails(OutputMissing, v, os, rerun);
    assert !Fails(RerunDeclined, v, os, rerun) && !Fails(TargetsMissing, v, os, rerun);
    assert !Fails(PairsMissing, v, os, rerun);
  }

  /** Whether the re-run question is put: every earlier check passed and the output folder exists. */
  predicate AsksRerun(v: Snapshot, os: Os) {
    v.indir != "" && os.pathExists(v.indir) && |InputReads(v, os)| > 0 && v.outdir != ""
    && os.pathExists(OutputFolder(v))
  }

  /**
    Only "No" declines: closing the question counts as going on, and the answer
    matters only when the question is put.
   */
  lemma RerunAnswer(v: Snapshot, os: Os, a: Answer, b: Answer)
    ensures Validate(v, os, Closed) == Validate(v, os, Yes)
    ensures !AsksRerun(v, os) ==> Validate(v, os, a) == Validate(v, os, b)
    ensures Validate(v, os, a) == Fail(RerunDeclined) <==> AsksRerun(v, os) && a == No
  {
  }

  /**
    The mode check compares the two mode radios with the empty string, which a
    radio's boolean value never equals: a read of real widgets is never turned
    down for want of a mode, even when neither mode is selected.
   */
  lemma BooleanRadiosPassModeCheck(v: Snapshot, os: Os, rerun: Answer)
    requires v.tumnorm.Bool? && v.tumonly.Bool?
    ensures Validate(v, os, rerun) != Fail(NoMode)
    ensures !Fails(NoMode, v, os, rerun)
  {
  }

  /** With neither mode selected, a passing read builds a command with no pairs file and no `--cnv`. */
  lemma NoModeBuildsTumorOnlyCommand(env: Env, v: Snapshot, os: Os, rerun: Answer)
    requires v.tumnorm == Bool(false) && v.tumonly == Bool(false)
    requires Validate(v, os, rerun) == Pass
    ensures Cnv !in CommandArgs(env, v)
    ensures forall p :: Pairs(p) !in CommandArgs(env, v)
  {
    CnvNeedsTumorNormal(env, v);
  }

  /** A tumor-normal read that passes always hands a non-empty pairs file to the command. */
  lemma PassedPairsNonEmpty(env: Env, v: Snapshot, os: Os, rerun: Answer)
    requires Validate(v, os, rerun) == Pass && IsTrue(v.tumnorm)
    ensures Pairs(v.pairs) in CommandArgs(env, v) && v.pairs != ""
  {
    PassRequiresInputs(v, os, rerun);
    PairsOnlyInTumorNormal(env, v);
  }

  /**
    The checks as the `-SUBMIT-` branch makes them: the listing is taken only
    once the input folder is known to exist.
   */
  method CheckSubmission(v: Snapshot, os: Os, rerun: Answer) returns (r: Verdict)
    ensures r == Validate(v, os, rerun)
  {
    if v.indir == "" {
      return Fail(InputMissing);
    } else if !os.pathExists(v.indir) {
      return Fail(InputNotFound);
    }
    var inputfastqs := GetFastqs(os, v.indir);
    if |inputfastqs| == 0 {
      return Fail(NoFastqs);
    }
    if v.outdir == "" {
      return Fail(OutputMissing);
    }
    var outputFolder := v.outdir + "/" + v.jobname;
    if os.pathExists(outputFolder) && rerun == No {
      return Fail(RerunDeclined);
    }
    if IsTrue(v.custarg) && v.targets == "" {
      return Fail(TargetsMissing);
    }
    if IsEmptyStr(v.tumnorm) && IsEmptyStr(v.tumonly) {
      return Fail(NoMode);
    }
    if IsTrue(v.tumnorm) && v.pairs == "" {
      return Fail(PairsMissing);
    }
    return Pass;
  }
}
