/**
  The event loop of `main`: the form's widgets and the visibility of its four
  panels, what each event does to them, and the `-SUBMIT-` branch that checks
  a read, builds the command, runs `init` and `dryrun`, gates on the dry-run
  output and, on the user's say-so, submits.

  `Transition` states one pass of the loop on values; `Window` holds the same
  state in fields and `Window.Step` is proved to perform that pass.
 */
module Form {
  import opened Wrappers
  import opened PyStr
  import opened Host
  import opened Command
  import opened Validation

  /** What `window.read()` can return as the event: a closed window, or the key of a button or radio. */
  datatype Event =
    | WindowClosed
    | Cancel
    | TumorNormal
    | TumorOnly
    | NoCnv
    | WithCnv
    | Documentation
    | Help
    | Settings
    | NoFfpe
    | WithFfpe
    | DefaultTargets
    | CustomTargets
    | Discard
    | Submit

  /** The key a widget event carries. */
  function EventKey(e: Event): Option<string> {
    match e
    case WindowClosed => None
    case Cancel => Some("--CANCEL--")
    case TumorNormal => Some("-TUMNORM-")
    case TumorOnly => Some("-TUMONLY-")
    case NoCnv => Some("-NOCNV-")
    case WithCnv => Some("-CNV-")
    case Documentation => Some("--DOC--")
    case Help => Some("--HELP--")
    case Settings => Some("-SETTINGS-")
    case NoFfpe => Some("-NOFFPE-")
    case WithFfpe => Some("-FFPE-")
    case DefaultTargets => Some("-DEFTARG-")
    case CustomTargets => Some("-CUSTARG-")
    case Discard => Some("-DISCSET-")
    case Submit => Some("-SUBMIT-")
  }

  /** Only a closed window comes without a key, and no two events share one. */
  lemma EventKeysDistinct(a: Event, b: Event)
    ensures EventKey(a) == None <==> a == WindowClosed
    ensures EventKey(a) == EventKey(b) ==> a == b
  {
  }

  /** The values the widgets hold: six text fields (the genome combo among them) and eight radios. */
  datatype Widgets = Widgets(
    indir: string, outdir: string, pairs: string, targets: string, jobname: string, annotation: string,
    tumnorm: bool, tumonly: bool, nocnv: bool, cnv: bool,
    noffpe: bool, ffpe: bool, deftarg: bool, custarg: bool)

  /** Whether `-PAIROPTS-`, `-ONLYOPTS-`, `-SET-` and `-BED-` are visible. */
  datatype Panels = Panels(pairOpts: bool, onlyOpts: bool, settings: bool, bed: bool)

  datatype Form = Form(w: Widgets, p: Panels)

  /** The form as laid out: empty fields, no mode, the `default=True` radios selected, all four panels hidden. */
  const InitialForm := Form(
    Widgets("", "", "", "", "", "", false, false, true, false, true, false, true, false),
    Panels(false, false, false, false))

  /** The text fields a user can type into (the `textKeys` of lines 205-212). */
  datatype Field = InDir | OutDir | PairsFile | TargetsFile | JobName | Annotation

  function Typed(w: Widgets, fld: Field, s: string): Widgets {
    match fld
    case InDir => w.(indir := s)
    case OutDir => w.(outdir := s)
    case PairsFile => w.(pairs := s)
    case TargetsFile => w.(targets := s)
    case JobName => w.(jobname := s)
    case Annotation => w.(annotation := s)
  }

  /** `window.read()`: text fields read as strings, radios as booleans. */
  function Snap(w: Widgets): Snapshot {
    Snapshot(w.indir, w.outdir, w.pairs, w.targets, w.jobname, w.annotation,
      Bool(w.tumnorm), Bool(w.tumonly), Bool(w.nocnv), Bool(w.cnv),
      Bool(w.noffpe), Bool(w.ffpe), Bool(w.deftarg), Bool(w.custarg))
  }

  /** A radio event is delivered after the click has selected that radio and cleared the other of its group. */
  function Click(w: Widgets, e: Event): Widgets {
    match e
    case TumorNormal => w.(tumnorm := true, tumonly := false)
    case TumorOnly => w.(tumnorm := false, tumonly := true)
    case NoCnv => w.(nocnv := true, cnv := false)
    case WithCnv => w.(nocnv := false, cnv := true)
    case NoFfpe => w.(noffpe := true, ffpe := false)
    case WithFfpe => w.(noffpe := false, ffpe := true)
    case DefaultTargets => w.(deftarg := true, custarg := false)
    case CustomTargets => w.(deftarg := false, custarg := true)
    case _ => w
  }

  /** `default_values` (lines 197-204) written back to their radios. */
  function RestoreDefaults(w: Widgets): Widgets {
    w.(nocnv := true, cnv := false, noffpe := true, ffpe := false, deftarg := true, custarg := false)
  }

  /** Declining submission (lines 451-460): every text key emptied, radio defaults, no mode. */
  function DeclineReset(f: Form): Form {
    var w := RestoreDefaults(f.w.(indir := "", outdir := "", pairs := "", targets := "", jobname := "", annotation := ""));
    Form(w.(tumnorm := false, tumonly := false), f.p.(pairOpts := false, onlyOpts := false))
  }

  /** How one pass of the loop ends: it goes on reading, the session is cancelled, it is finished, or a new job is asked for. */
  datatype Outcome = Idle | Cancelled | Finished | Restart

  /** `sys.exit(69)` on cancel; the other endings leave the process running or return from `main`. */
  function ExitCode(o: Outcome): Option<int> {
    if o == Cancelled then Some(69) else None
  }

  /** The answers the user would give to the three yes/no questions of a submission. */
  datatype Answers = Answers(rerun: Answer, submit: Answer, another: Answer)

  /** The new form, how the pass ended, the runner scripts executed in order, and the reason a submission was refused. */
  datatype StepResult = StepResult(form: Form, outcome: Outcome, runs: seq<string>, rejected: Option<Reason>)

  /** The combined dry-run report, `"{}\n{}".format(stdout, stderr)`. */
  function Report(out: Output): string {
    out.stdout + "\n" + out.stderr
  }

  /** The gate of line 410. */
  predicate ReportsError(s: string) {
    Contains(s, "error") || Contains(s, "Error") || Contains(s, "ERROR")
  }

  /**
    The error words contain no line break, so the combined report mentions one
    exactly when the dry run's standard output or its standard error does.
   */
  lemma ReportSplit(out: Output)
    ensures ReportsError(Report(out)) <==> ReportsError(out.stdout) || ReportsError(out.stderr)
  {
    ContainsAcrossNewline(out.stdout, out.stderr, "error");
    ContainsAcrossNewline(out.stdout, out.stderr, "Error");
    ContainsAcrossNewline(out.stdout, out.stderr, "ERROR");
  }

  /** The runner script text of each phase for a read. */
  function InitLine(env: Env, v: Snapshot): string {
    RunLine(CommandLine(env, v), true, false, false)
  }

  function DryLine(env: Env, v: Snapshot): string {
    RunLine(CommandLine(env, v), false, true, false)
  }

  function SubmitLine(env: Env, v: Snapshot): string {
    RunLine(CommandLine(env, v), false, false, true)
  }

  /** Whether a read that passed the checks gets past the dry-run gate. */
  predicate DryRunClean(env: Env, os: Os, v: Snapshot) {
    !ReportsError(Report(os.shell(DryLine(env, v))))
  }

  /** The submit question after a clean dry run (lines 412-460), with the scripts it runs. */
  function Decision(f: Form, env: Env, ans: Answers): (r: StepResult)
    ensures r.outcome != Cancelled && r.rejected == None
  {
    match ans.submit
    case Yes =>
      var outcome := match ans.another case Yes => Restart case No => Finished case Closed => Idle;
      StepResult(f, outcome, [SubmitLine(env, Snap(f.w))], None)
    case No => StepResult(DeclineReset(f), Idle, [], None)
    case Closed => StepResult(f, Idle, [], None)
  }

  /** What a submission whose read passed the checks does: two runs, the dry-run gate, then the submit question (lines 400-460). */
  function AfterChecks(f: Form, env: Env, os: Os, ans: Answers): (r: StepResult)
    ensures r.outcome != Cancelled && r.rejected == None
  {
    var v := Snap(f.w);
    var dry := [InitLine(env, v), DryLine(env, v)];
    if !DryRunClean(env, os, v) then StepResult(f, Idle, dry, None)
    else
      var d := Decision(f, env, ans);
      StepResult(d.form, d.outcome, dry + d.runs, None)
  }

  /** The `-SUBMIT-` branch (lines 314-460). */
  function SubmitTransition(f: Form, env: Env, os: Os, ans: Answers): (r: StepResult)
    ensures r.outcome != Cancelled
  {
    match Validate(Snap(f.w), os, ans.rerun)
    case Fail(RerunDeclined) => StepResult(f.(w := f.w.(outdir := "")), Idle, [], Some(RerunDeclined))
    case Fail(reason) => StepResult(f, Idle, [], Some(reason))
    case Pass => AfterChecks(f, env, os, ans)
  }

  /** What a button or radio other than Cancel and Submit does to the form (lines 277-313). */
  function WidgetTransition(f: Form, e: Event): Form {
    var w := Click(f.w, e);
    match e
    case TumorNormal => Form(w, f.p.(pairOpts := true, onlyOpts := false))
    case TumorOnly => Form(w, f.p.(pairOpts := false, onlyOpts := true))
    case Settings => f.(p := f.p.(settings := true))
    case DefaultTargets => Form(w, f.p.(bed := false))
    case CustomTargets => Form(w, f.p.(bed := true))
    case Discard => Form(RestoreDefaults(w), f.p.(settings := false, bed := false))
    case _ => Form(w, f.p)
  }

  /** One pass of the `while True` loop for an event. */
  function Transition(f: Form, e: Event, env: Env, os: Os, ans: Answers): (r: StepResult)
    ensures r.outcome == Cancelled <==> e == Cancel || e == WindowClosed
    ensures e != Submit ==> r.runs == [] && r.rejected == None
  {
    if e == Cancel || e == WindowClosed then StepResult(f, Cancelled, [], None)
    else if e == Submit then SubmitTransition(f, env, os, ans)
    else StepResult(WidgetTransition(f, e), Idle, [], None)
  }

  /**
    The consistency the loop keeps: the three radio groups with a default have
    one radio selected, the mode group at most one, and each mode panel is
    visible exactly when its mode radio is selected.
   */
  predicate WellFormed(f: Form) {
    RadiosConsistent(f.w) && f.p.pairOpts == f.w.tumnorm && f.p.onlyOpts == f.w.tumonly
  }

  predicate RadiosConsistent(w: Widgets) {
    !(w.tumnorm && w.tumonly) && w.nocnv != w.cnv && w.noffpe != w.ffpe && w.deftarg != w.custarg
  }

  lemma InitialWellFormed()
    ensures WellFormed(InitialForm)
    ensures !InitialForm.p.pairOpts && !InitialForm.p.onlyOpts && !InitialForm.p.settings && !InitialForm.p.bed
  {
  }

  lemma SubmitPreservesWellFormed(f: Form, env: Env, os: Os, ans: Answers)
    requires WellFormed(f)
    ensures WellFormed(SubmitTransition(f, env, os, ans).form)
  {
    var g := SubmitTransition(f, env, os, ans).form;
    assert g == f || g == f.(w := f.w.(outdir := "")) || g == DeclineReset(f);
  }

  /** A mode click selects one mode and touches no other group. */
  lemma ModeClickKeepsGroups(w: Widgets, e: Event)
    requires RadiosConsistent(w) && (e == TumorNormal || e == TumorOnly)
    ensures RadiosConsistent(Click(w, e))
  {
    var c := Click(w, e);
    assert c.nocnv == w.nocnv && c.cnv == w.cnv && c.noffpe == w.noffpe && c.ffpe == w.ffpe;
    assert c.deftarg == w.deftarg && c.custarg == w.custarg;
  }

  /** A CNV, FFPE or targets click flips its own group and leaves the mode radios alone. */
  lemma OptionClickKeepsGroups(w: Widgets, e: Event)
    requires RadiosConsistent(w) && e != TumorNormal && e != TumorOnly
    ensures RadiosConsistent(Click(w, e))
    ensures Click(w, e).tumnorm == w.tumnorm && Click(w, e).tumonly == w.tumonly
  {
    var c := Click(w, e);
    if e == NoCnv || e == WithCnv {
      assert c.noffpe == w.noffpe && c.ffpe == w.ffpe && c.deftarg == w.deftarg && c.custarg == w.custarg;
    } else if e == NoFfpe || e == WithFfpe {
      assert c.nocnv == w.nocnv && c.cnv == w.cnv && c.deftarg == w.deftarg && c.custarg == w.custarg;
    } else if e == DefaultTargets || e == CustomTargets {
      assert c.nocnv == w.nocnv && c.cnv == w.cnv && c.noffpe == w.noffpe && c.ffpe == w.ffpe;
    } else {
      assert c == w;
    }
  }

  lemma WidgetPreservesWellFormed(f: Form, e: Event)
    requires WellFormed(f)
    ensures WellFormed(WidgetTransition(f, e))
  {
    if e == TumorNormal || e == TumorOnly {
      ModeClickKeepsGroups(f.w, e);
    } else {
      OptionClickKeepsGroups(f.w, e);
    }
  }

  /** Every event keeps the form consistent; in particular the two mode panels are never shown together. */
  lemma TransitionPreservesWellFormed(f: Form, e: Event, env: Env, os: Os, ans: Answers)
    requires WellFormed(f)
    ensures WellFormed(Transition(f, e, env, os, ans).form)
    ensures !(Transition(f, e, env, os, ans).form.p.pairOpts && Transition(f, e, env, os, ans).form.p.onlyOpts)
  {
    var g := Transition(f, e, env, os, ans).form;
    if e == Cancel || e == WindowClosed {
      assert g == f;
    } else if e == Submit {
      SubmitPreservesWellFormed(f, env, os, ans);
      assert g == SubmitTransition(f, env, os, ans).form;
    } else {
      WidgetPreservesWellFormed(f, e);
      assert g == WidgetTransition(f, e);
    }
  }

  lemma TypingPreservesWellFormed(f: Form, fld: Field, s: string)
    requires WellFormed(f)
    ensures WellFormed(f.(w := Typed(f.w, fld, s)))
  {
  }

  /** Cancel or closing the window ends the session with status 69 and nothing else happens. */
  lemma CancelEndsSession(f: Form, e: Event, env: Env, os: Os, ans: Answers)
    requires e == Cancel || e == WindowClosed
    ensures Transition(f, e, env, os, ans) == StepResult(f, Cancelled, [], None)
    ensures ExitCode(Transition(f, e, env, os, ans).outcome) == Some(69)
  {
  }

  /**
    A mode radio shows its own panel and hides the other one. The tumor-only
    event's `values["-CNV-"] = False` concerns only that pass's read: the CNV
    radios and every other widget keep their values.
   */
  lemma ModeEventsTogglePanels(f: Form, e: Event, env: Env, os: Os, ans: Answers)
    requires e == TumorNormal || e == TumorOnly
    ensures var g := Transition(f, e, env, os, ans).form;
      g.p.pairOpts == (e == TumorNormal) && g.p.onlyOpts == (e == TumorOnly)
      && g.w.tumnorm == (e == TumorNormal) && g.w.tumonly == (e == TumorOnly)
      && g.w.cnv == f.w.cnv && g.w.nocnv == f.w.nocnv
      && g.p.settings == f.p.settings && g.p.bed == f.p.bed
      && g.w.(tumnorm := f.w.tumnorm, tumonly := f.w.tumonly) == f.w
  {
  }

  /** `-SETTINGS-` shows the settings panel; the targets radios show or hide the custom targets panel. */
  lemma SettingsEventsTogglePanels(f: Form, e: Event, env: Env, os: Os, ans: Answers)
    requires e == Settings || e == DefaultTargets || e == CustomTargets
    ensures var g := Transition(f, e, env, os, ans).form;
      (e == Settings ==> g == f.(p := f.p.(settings := true)))
      && (e == DefaultTargets ==> g.p == f.p.(bed := false) && g.w == f.w.(deftarg := true, custarg := false))
      && (e == CustomTargets ==> g.p == f.p.(bed := true) && g.w == f.w.(deftarg := false, custarg := true))
  {
  }

  /** The CNV and FFPE radios select themselves and clear their partner; nothing else changes. */
  lemma OptionEventsChangeOneGroup(f: Form, e: Event, env: Env, os: Os, ans: Answers)
    requires e == NoCnv || e == WithCnv || e == NoFfpe || e == WithFfpe
    ensures var r := Transition(f, e, env, os, ans);
      r.outcome == Idle && r.form.p == f.p
      && (e == NoCnv ==> r.form.w == f.w.(nocnv := true, cnv := false))
      && (e == WithCnv ==> r.form.w == f.w.(nocnv := false, cnv := true))
      && (e == NoFfpe ==> r.form.w == f.w.(noffpe := true, ffpe := false))
      && (e == WithFfpe ==> r.form.w == f.w.(noffpe := false, ffpe := true))
  {
  }

  /** The documentation and help buttons leave the form as it is. */
  lemma InfoEventsChangeNothing(f: Form, e: Event, env: Env, os: Os, ans: Answers)
    requires e == Documentation || e == Help
    ensures Transition(f, e, env, os, ans) == StepResult(f, Idle, [], None)
  {
  }

  /**
    Discard hides the settings and custom targets panels and restores the six
    radio defaults, leaving text fields, mode radios and mode panels unchanged.
   */
  lemma DiscardRestoresDefaults(f: Form, env: Env, os: Os, ans: Answers)
    ensures var g := Transition(f, Discard, env, os, ans).form;
      !g.p.settings && !g.p.bed && g.p.pairOpts == f.p.pairOpts && g.p.onlyOpts == f.p.onlyOpts
      && g.w.nocnv && !g.w.cnv && g.w.noffpe && !g.w.ffpe && g.w.deftarg && !g.w.custarg
      && g.w.indir == f.w.indir && g.w.outdir == f.w.outdir && g.w.pairs == f.w.pairs
      && g.w.targets == f.w.targets && g.w.jobname == f.w.jobname && g.w.annotation == f.w.annotation
      && g.w.tumnorm == f.w.tumnorm && g.w.tumonly == f.w.tumonly
  {
  }

  /**
    A submission is refused exactly when a check fails, with the first failing
    check as its reason; a refused submission runs nothing and changes nothing,
    except that declining the re-run question empties the output folder field.
   */
  lemma RefusedSubmissionRunsNothing(f: Form, env: Env, os: Os, ans: Answers)
    ensures var r := Transition(f, Submit, env, os, ans);
      (r.rejected.Some? <==> Validate(Snap(f.w), os, ans.rerun).Fail?)
      && (r.rejected.Some? ==>
            r.rejected.value == Validate(Snap(f.w), os, ans.rerun).reason
            && r.runs == [] && r.outcome == Idle
            && r.form == (if r.rejected.value == RerunDeclined then f.(w := f.w.(outdir := "")) else f))
  {
  }

  /** A dry run whose report mentions an error ends the submission before the submit question. */
  lemma DryRunGate(f: Form, env: Env, os: Os, ans: Answers)
    requires Validate(Snap(f.w), os, ans.rerun) == Pass
    requires ReportsError(Report(os.shell(DryLine(env, Snap(f.w)))))
    ensures Transition(f, Submit, env, os, ans) ==
      StepResult(f, Idle, [InitLine(env, Snap(f.w)), DryLine(env, Snap(f.w))], None)
  {
  }

  /** The three runner texts of one read are distinct: their phase tokens differ in length. */
  lemma PhaseLinesDistinct(env: Env, v: Snapshot)
    ensures SubmitLine(env, v) != InitLine(env, v) && SubmitLine(env, v) != DryLine(env, v)
    ensures InitLine(env, v) != DryLine(env, v)
  {
    var cmd := CommandLine(env, v);
    SinglePhase(cmd, true, false, false);
    SinglePhase(cmd, false, true, false);
    SinglePhase(cmd, false, false, true);
  }

  /**
    The `--runmode run` script is executed exactly when the read passed the
    checks, the dry run reported no error and the user said Yes to submitting.
   */
  lemma SubmitOnlyAfterCleanDryRun(f: Form, env: Env, os: Os, ans: Answers)
    ensures var v := Snap(f.w);
      SubmitLine(env, v) in Transition(f, Submit, env, os, ans).runs <==>
        Validate(v, os, ans.rerun) == Pass && DryRunClean(env, os, v) && ans.submit == Yes
  {
    PhaseLinesDistinct(env, Snap(f.w));
  }

  /**
    `main` returns after a pass exactly when the read passed the checks, the dry
    run was clean, the user submitted and then declined another job; a closed
    "another job" question keeps the loop going, and Yes asks for a new job.
   */
  lemma FinishedExactly(f: Form, e: Event, env: Env, os: Os, ans: Answers)
    ensures var o := Transition(f, e, env, os, ans).outcome;
      var cleared := e == Submit && Validate(Snap(f.w), os, ans.rerun) == Pass
        && DryRunClean(env, os, Snap(f.w)) && ans.submit == Yes;
      (o == Finished <==> cleared && ans.another == No)
      && (o == Restart <==> cleared && ans.another == Yes)
  {
    var r := Transition(f, e, env, os, ans);
    var v := Snap(f.w);
    if e != Submit {
      assert r.outcome == Idle || r.outcome == Cancelled;
    } else if Validate(v, os, ans.rerun).Fail? {
      assert r.outcome == Idle;
    } else if !DryRunClean(env, os, v) {
      assert r == AfterChecks(f, env, os, ans);
      assert r.outcome == Idle;
    } else {
      assert r.outcome == Decision(f, env, ans).outcome;
    }
  }

  /** Every script run is the command built from the read, followed by its phase tokens. */
  lemma RunsExtendTheCommand(f: Form, e: Event, env: Env, os: Os, ans: Answers)
    ensures forall l :: l in Transition(f, e, env, os, ans).runs ==> StartsWith(l, CommandLine(env, Snap(f.w)))
  {
    if e == Submit && Validate(Snap(f.w), os, ans.rerun) == Pass {
      AfterChecksRunsExtend(f, env, os, ans);
    } else {
      assert Transition(f, e, env, os, ans).runs == [];
    }
  }

  lemma AfterChecksRunsExtend(f: Form, env: Env, os: Os, ans: Answers)
    ensures forall l :: l in AfterChecks(f, env, os, ans).runs ==> StartsWith(l, CommandLine(env, Snap(f.w)))
  {
    var v := Snap(f.w);
    var cmd := CommandLine(env, v);
    PrefixOfConcat(cmd, Tokens(Phases(true, false, false)));
    PrefixOfConcat(cmd, Tokens(Phases(false, true, false)));
    PrefixOfConcat(cmd, Tokens(Phases(false, false, true)));
    var dry := [InitLine(env, v), DryLine(env, v)];
    var d := Decision(f, env, ans);
    assert d.runs == [] || d.runs == [SubmitLine(env, v)];
    var r := AfterChecks(f, env, os, ans).runs;
    assert r == dry || r == dry + d.runs;
  }

  /** A submission made with the tumor-only radio selected never passes `--cnv` or a pairs file. */
  lemma TumorOnlyNeverCnv(f: Form, env: Env)
    requires WellFormed(f) && f.w.tumonly
    ensures Cnv !in CommandArgs(env, Snap(f.w))
    ensures forall p :: Pairs(p) !in CommandArgs(env, Snap(f.w))
  {
    CnvNeedsTumorNormal(env, Snap(f.w));
  }

  /**
    Declining submission empties every text field, restores the radio defaults,
    clears both mode radios and hides both mode panels. The settings and custom
    targets panels keep their visibility, so the custom targets panel can stay
    on view with the default targets radio selected.
   */
  lemma DeclineResetsForm(f: Form, env: Env, os: Os, ans: Answers)
    requires Validate(Snap(f.w), os, ans.rerun) == Pass && DryRunClean(env, os, Snap(f.w)) && ans.submit == No
    ensures var g := Transition(f, Submit, env, os, ans).form;
      g.w == Widgets("", "", "", "", "", "", false, false, true, false, true, false, true, false)
      && !g.p.pairOpts && !g.p.onlyOpts && g.p.settings == f.p.settings && g.p.bed == f.p.bed
    ensures Transition(f, Submit, env, os, ans).runs == [InitLine(env, Snap(f.w)), DryLine(env, Snap(f.w))]
  {
  }

  /** The window: its widget values and panel visibility, updated in place, and the runner scripts executed so far. */
  class Window {
    var widgets: Widgets
    var panels: Panels
    /** The runner script texts executed so far, in order. */
    var runs: seq<string>

    function State(): Form
      reads this
    {
      Form(widgets, panels)
    }

    /** `sg.Window(...)` over the layout, with nothing run yet. */
    constructor ()
      ensures State() == InitialForm && runs == []
    {
      widgets := InitialForm.w;
      panels := InitialForm.p;
      runs := [];
    }

    /** The user typing into a text field (or the genome combo), which raises no event. */
    method TypeInto(fld: Field, s: string)
      modifies this
      ensures widgets == Typed(old(widgets), fld, s)
      ensures panels == old(panels) && runs == old(runs)
    {
      match fld
      case InDir => widgets := widgets.(indir := s);
      case OutDir => widgets := widgets.(outdir := s);
      case PairsFile => widgets := widgets.(pairs := s);
      case TargetsFile => widgets := widgets.(targets := s);
      case JobName => widgets := widgets.(jobname := s);
      case Annotation => widgets := widgets.(annotation := s);
    }

    /** A runner script executed: its text is recorded and its captured streams returned. */
    method Execute(os: Os, cmd: string, init: bool, dry: bool, run: bool) returns (out: Output)
      modifies this
      ensures widgets == old(widgets) && panels == old(panels)
      ensures runs == old(runs) + [RunLine(cmd, init, dry, run)]
      ensures out == os.shell(RunLine(cmd, init, dry, run))
    {
      var line;
      line, out := Run(os, cmd, init, dry, run);
      runs := runs + [line];
    }

    /** The declined-submission reset of lines 451-460 on the window. */
    method ResetAfterDecline()
      modifies this
      ensures State() == DeclineReset(old(State()))
      ensures runs == old(runs)
    {
      widgets := widgets.(indir := "", outdir := "", pairs := "", targets := "", jobname := "", annotation := "");
      widgets := RestoreDefaults(widgets);
      panels := panels.(pairOpts := false, onlyOpts := false);
      widgets := widgets.(tumnorm := false, tumonly := false);
    }

    /** Lines 400-460 on the window, once the read has passed the checks. */
    method RunChecked(env: Env, os: Os, ans: Answers) returns (outcome: Outcome)
      modifies this
      ensures var r := AfterChecks(old(State()), env, os, ans);
        State() == r.form && outcome == r.outcome && r.rejected == None && runs == old(runs) + r.runs
    {
      var cmd := BuildCommand(env, Snap(widgets));
      var clean := DryRun(os, env, cmd);
      if !clean {
        return Idle;
      }
      outcome := Decide(os, env, ans, cmd);
    }

    /** Lines 400-411: the init and dryrun scripts, and the error-word gate on the combined report. */
    method DryRun(os: Os, env: Env, cmd: string) returns (clean: bool)
      requires cmd == CommandLine(env, Snap(widgets))
      modifies this
      ensures widgets == old(widgets) && panels == old(panels)
      ensures runs == old(runs) + [InitLine(env, Snap(widgets)), DryLine(env, Snap(widgets))]
      ensures clean == DryRunClean(env, os, Snap(widgets))
    {
      var out := Execute(os, cmd, true, false, false);
      out := Execute(os, cmd, false, true, false);
      var allout := out.stdout + "\n" + out.stderr;
      clean := !(Contains(allout, "error") || Contains(allout, "Error") || Contains(allout, "ERROR"));
    }

    /** The submit question on the window, given the command of its current read. */
    method Decide(os: Os, env: Env, ans: Answers, cmd: string) returns (outcome: Outcome)
      requires cmd == CommandLine(env, Snap(widgets))
      modifies this
      ensures var r := Decision(old(State()), env, ans);
        State() == r.form && outcome == r.outcome && runs == old(runs) + r.runs
    {
      if ans.submit == Yes {
        var out := Execute(os, cmd, false, false, true);
        outcome := if ans.another == Yes then Restart else if ans.another == No then Finished else Idle;
        return outcome;
      } else if ans.submit == No {
        ResetAfterDecline();
      }
      return Idle;
    }

    /** The `-SUBMIT-` branch on the window. */
    method SubmitStep(env: Env, os: Os, ans: Answers) returns (outcome: Outcome, rejected: Option<Reason>)
      modifies this
      ensures var r := SubmitTransition(old(State()), env, os, ans);
        State() == r.form && outcome == r.outcome && rejected == r.rejected && runs == old(runs) + r.runs
    {
      var verdict := CheckSubmission(Snap(widgets), os, ans.rerun);
      if verdict.Fail? {
        if verdict.reason == RerunDeclined {
          widgets := widgets.(outdir := "");
        }
        return Idle, Some(verdict.reason);
      }
      outcome := RunChecked(env, os, ans);
      rejected := None;
    }

    /** The handlers of the buttons and radios other than Cancel and Submit (lines 277-313). */
    method WidgetEvent(e: Event)
      modifies this
      ensures State() == WidgetTransition(old(State()), e)
      ensures runs == old(runs)
    {
      widgets := Click(widgets, e);
      var values := Snap(widgets);
      if e == TumorNormal {
        panels := panels.(pairOpts := true, onlyOpts := false);
      } else if e == TumorOnly {
        panels := panels.(pairOpts := false, onlyOpts := true);
        values := values.(cnv := Bool(false));
      }
      if e == Settings {
        panels := panels.(settings := true);
      }
      if e == DefaultTargets {
        panels := panels.(bed := false);
      }
      if e == CustomTargets {
        panels := panels.(bed := true);
      }
      if e == Discard {
        panels := panels.(settings := false, bed := false);
        widgets := RestoreDefaults(widgets);
      }
    }

    /** One pass of the loop: the event's handler applied to the window. */
    method Step(e: Event, env: Env, os: Os, ans: Answers) returns (outcome: Outcome, rejected: Option<Reason>)
      modifies this
      ensures var r := Transition(old(State()), e, env, os, ans);
        State() == r.form && outcome == r.outcome && rejected == r.rejected && runs == old(runs) + r.runs
    {
      if e == Cancel || e == WindowClosed {
        return Cancelled, None;
      }
      if e == Submit {
        outcome, rejected := SubmitStep(env, os, ans);
        return;
      }
      WidgetEvent(e);
      return Idle, None;
    }
  }
}
