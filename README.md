# XAVIER launcher form, modelled in Dafny

XAVIER's graphical launcher (`src/xavier/gui.py`) collects the parameters of an
exome-analysis run. It checks them, builds an `xavier run` command line, and runs
that command three times through a runner script: `--runmode init`,
`--runmode dryrun` and, if the user agrees, `--runmode run`. This project models
the launcher's logic and proves properties of it:

- **Genome discovery** (`Genomes`). This is `get_combos`. The cluster comes from
  the host name. The genome descriptors are the `*<cluster>.json` files under
  `<XAVIERDIR>/<XAVIERVER>/config/genomes`. Each descriptor is keyed by its base
  name with `.<cluster>.json` removed. There are three fatal exits, in a fixed
  order. `GetCombos` is a method whose loop fills the dictionary. It is proved
  equal to the function `Collect`, and lemmas about `Collect` give the key set,
  the values and the last-wins rule.
- **Read-file discovery** (`Fastqs`). This is `get_fastqs`: the `*.fastq.gz`
  matches of the normalised input folder, followed by its `*.fq.gz` matches.
- **Command line** (`Command`). The builder appends `xavier_cmd` piece by piece.
  It is specified by the list of arguments, `CommandArgs`, and their rendering.
  `run` appends one `--runmode` token for each flag that is set, in the order
  init, dryrun, run.
- **Submission checks** (`Validation`). These are the eight ordered checks of the
  `-SUBMIT-` branch. `Validate` is the short-circuit chain. `Fails` states each
  check on its own. A lemma proves that the chain reports the failing check of
  lowest rank.
- **Event loop** (`Form`). `Transition` is one pass of the `while True` loop, on
  values: widget values, panel visibility, the runner scripts executed and the
  way the pass ends. `Window` holds the same state in fields, and `Window.Step`
  is proved to perform `Transition`. Lemmas cover:
  - the panel toggles;
  - Discard;
  - cancellation (exit status 69);
  - refused submissions;
  - the dry-run gate;
  - the decline reset;
  - an invariant that every event preserves: radio groups are consistent and
    each mode panel is shown exactly when its mode radio is selected.
- **Python support** (`PyStr`). This covers `str.replace(pat, "")`, the `in`
  test, `startswith`/`endswith`, POSIX `os.path.join` and `basename`, and the
  names a `glob` pattern `dir + "/" + "*" + suffix` picks from a listing.

The environment and the operating system are parameters:
- `Host.Env` holds `XAVIERDIR`, `XAVIERVER`, `SIFCACHE` and `HOSTNAME`;
- `Host.Os` holds path existence, directory listings, `fixpath`, and the
  captured output of a runner script, as a function of the script's text;
- `Host.Answer` is the answer to a yes/no popup.

The model reproduces these behaviours of the code as written:

- Choosing tumor-only does not reset the CNV radio. `values["-CNV-"] = False`
  at `src/xavier/gui.py:283` changes only that pass's read. `ModeEventsTogglePanels`
  proves that the CNV widgets keep their values. A tumor-only command never
  carries `--cnv` only because of the nesting at lines 392-395
  (`CnvNeedsTumorNormal`, `TumorOnlyNeverCnv`).
- An error word in the dry-run report ends the submission before the submit
  question. The user cannot go on to the real run (line 410, `DryRunGate`).
- The analysis-mode check compares both mode radios with `""` (line 360). A
  radio reads as a boolean, so on a real read this check never refuses a
  submission, even with no mode selected (`BooleanRadiosPassModeCheck`). Such a
  read then builds a command without `--pairs` or `--cnv`
  (`NoModeBuildsTumorOnlyCommand`). `Command.Value` keeps strings and booleans
  apart, so the comparison is modelled as written.
- The custom targets file is checked for presence (lines 351-359) and then
  overwritten by the bundled pattern (lines 374-379). `CustomTargetsIgnored`
  proves that the command does not depend on it.
- Declining submission resets the radios but not the custom-targets panel. The
  `-BED-` panel can stay visible with the default targets radio selected
  (`DeclineResetsForm`).

## Model

| member | source | states |
|---|---|---|
| Genomes.GetCombos | src/xavier/gui.py:57-76 | Three fatal exits, in order: missing config folder, unknown host, no descriptors. Otherwise the result is the dictionary the loop fills from the descriptors, in enumeration order. |
| Genomes.FatalMessageNamesFolder | src/xavier/gui.py:57-70 | Every exit message starts with `ERROR: `, and the missing-folder and no-descriptor messages end with the config folder. |
| Genomes.ClusterOf | src/xavier/gui.py:61-67 | `biowulf.nih.gov` gives `biowulf`, `fsitgl-head01p.ncifcrf.gov` gives `frce`, and any other host gives no cluster. |
| Genomes.CollectDescriptors | src/xavier/gui.py:71-75 | The loop stores each descriptor under its id in enumeration order, giving `Collect` of the glob result. |
| Genomes.CollectSnoc | src/xavier/gui.py:72-75 | One more file is stored under its id, overwriting any earlier file with that id. |
| Genomes.EntryId | src/xavier/gui.py:73-74 | The id of `dir/name` is `name` with `.<cluster>.json` removed. |
| Genomes.CollectKeys | src/xavier/gui.py:72-76 | The keys are exactly the ids of the descriptor files: base name with `.<cluster>.json` removed. |
| Genomes.CollectValues | src/xavier/gui.py:72-76 | Every key maps to one of the descriptor files, and that file's id is the key. |
| Genomes.CollectLastWins | src/xavier/gui.py:72-75 | When several files give the same id, the file enumerated last is the value. |
| Genomes.CollectNonEmpty | src/xavier/gui.py:69-76 | A successful discovery never returns an empty dictionary. |
| Genomes.DescriptorId | src/xavier/gui.py:73-75 | `<dir>/<id>.<cluster>.json` is offered as `<id>` when the id has no '.' or '/'. |
| Genomes.OfferedIds | src/xavier/gui.py:67-76 | The offered ids are the matching entry names of the genomes folder with `.<cluster>.json` removed. |
| Genomes.ListedIdsOffered | src/xavier/gui.py:67-76 | Every matching entry name of a listing, stripped, is a key of the dictionary built from its glob. |
| Genomes.OfferedIdsListed | src/xavier/gui.py:67-76 | Every key of the dictionary built from a listing's glob comes from a matching entry name. |
| PyStr.Remove | src/xavier/gui.py:74 | `str.replace(pat, "")` never lengthens a string. |
| PyStr.RemoveKeepsChars | src/xavier/gui.py:74 | `str.replace(pat, "")` introduces no character that was not in the string. |
| PyStr.RemoveAppended | src/xavier/gui.py:74 | Removing `pat` from `id + pat` gives `id` when `pat`'s first character is not in `id`. |
| PyStr.RemoveAbsent | src/xavier/gui.py:74 | A string without the pattern is returned unchanged. |
| PyStr.BasenameIsLastComponent | src/xavier/gui.py:73 | `os.path.basename` has no '/' and is a suffix of the path. |
| PyStr.BasenameOfEntry | src/xavier/gui.py:73 | The base name of `dir/name` is `name` for a name without '/'. |
| PyStr.GlobStar | src/xavier/gui.py:68-69 | The glob result has no more entries than the listing. Its members are exactly `dir/name` for the listed names that match, and each ends in the suffix. |
| PyStr.GlobStarHas | src/xavier/gui.py:68-69 | Every listed name that matches is picked, as `dir/name`. |
| PyStr.ContainsAcrossNewline | src/xavier/gui.py:406-410 | A word without a newline occurs in `stdout + "\n" + stderr` exactly when it occurs in one of the two. |
| PyStr.ContainsLeft | src/xavier/gui.py:410 | An occurrence in a prefix is an occurrence in the whole string. |
| PyStr.ContainsRight | src/xavier/gui.py:410 | An occurrence in a suffix is an occurrence in the whole string. |
| Fastqs.GetFastqs | src/xavier/gui.py:83-88 | The result holds exactly the `.fastq.gz` and `.fq.gz` entries of the normalised folder, as paths. It is empty exactly when no entry is a read file, and it lists the first glob's matches, then the second's. |
| Fastqs.FastqsListedFirst | src/xavier/gui.py:85-87 | Every `.fastq.gz` path comes before every `.fq.gz` path. |
| Fastqs.SuffixesExclusive | src/xavier/gui.py:85-86 | No name ends in both suffixes, so the two globs never report the same file. |
| Fastqs.BothExtensionsFound | src/xavier/gui.py:83-88 | A folder holding `b.fq.gz` and `a.fastq.gz` yields both, `.fastq.gz` first. |
| Fastqs.HiddenFilesSkipped | src/xavier/gui.py:85-86 | A name starting with '.' is never picked up. |
| Command.BuildCommand | src/xavier/gui.py:373-398 | The built command is the rendering of `CommandArgs`: six fixed arguments, then the cluster, mode and FFPE arguments. |
| Command.BaseCommand | src/xavier/gui.py:373-386 | The first six `+=` give the rendering of the fixed arguments. |
| Command.AppendClusterArgs | src/xavier/gui.py:388-390 | The FRCE block appends the rendering of the cluster arguments. |
| Command.AppendModeArgs | src/xavier/gui.py:392-395 | The tumor-normal block appends the rendering of the mode arguments. |
| Command.AppendFfpeArgs | src/xavier/gui.py:397-398 | The FFPE block appends `--ffpe` exactly when the FFPE radio reads True. |
| Command.CommandStartsWithBase | src/xavier/gui.py:381-386 | The command always opens with the six fixed arguments in this order: executable, input glob, output folder, genome, targets, slurm mode. |
| Command.CommandStartsWithExecutable | src/xavier/gui.py:381 | The command line starts with `XAVIER + " run "`. |
| Command.CustomTargetsIgnored | src/xavier/gui.py:351-386 | The command does not depend on the custom targets field or the targets radios. The targets argument is the bundled pattern for the genome. |
| Command.ClusterArgsOnlyOnFrce | src/xavier/gui.py:388-390 | `--sif-cache` (with `SIFCACHE`) and `--tmp-dir` appear exactly on the FRCE host. |
| Command.PairsOnlyInTumorNormal | src/xavier/gui.py:392-393 | A pairs argument appears exactly when `-TUMNORM-` reads True, and it is the `-PAIRS-` field. |
| Command.CnvNeedsTumorNormal | src/xavier/gui.py:392-395 | `--cnv` appears exactly when both `-TUMNORM-` and `-CNV-` read True. Without tumor-normal there is neither `--cnv` nor a pairs file. |
| Command.FfpeFlag | src/xavier/gui.py:397-398 | `--ffpe` appears exactly when `-FFPE-` reads True. |
| Command.CommandArgsSplit | src/xavier/gui.py:381-398 | The arguments are the fixed six followed by the optional ones. |
| Command.RenderAppend | src/xavier/gui.py:381-398 | Rendering a concatenation of argument lists is the concatenation of their renderings. |
| Command.RunnerText | src/xavier/gui.py:96-102 | The runner script text is the command followed by one token per set flag, in the order init, dryrun, run. It starts with the command. |
| Command.Run | src/xavier/gui.py:96-111 | `run` executes that text and returns what the shell reports for it. |
| Command.SinglePhase | src/xavier/gui.py:96-102 | With exactly one flag set, exactly that flag's token is appended. |
| Command.AllPhases | src/xavier/gui.py:96-102 | With all flags set, the tokens follow as init, dryrun, run. |
| Validation.ErrorPopupShown | src/xavier/gui.py:316-371 | Every refusal shows an error popup, except declining the re-run question. |
| Validation.Validate | src/xavier/gui.py:315-371 | The check chain. A refusal names a check that fails. |
| Validation.ValidateIsFirstFailure | src/xavier/gui.py:315-371 | The chain passes exactly when no check fails. Otherwise it reports the failing check of lowest rank. |
| Validation.PassRequiresInputs | src/xavier/gui.py:315-371 | A passing read has: an input folder that exists and holds read files; an output folder; custom targets if selected; a pairs file in tumor-normal mode; and no declined re-run. |
| Validation.RerunAnswer | src/xavier/gui.py:341-350 | Only "No" declines, and closing the question proceeds. The answer matters only when the question is asked, which is when earlier checks passed and `outdir/jobname` exists. |
| Validation.BooleanRadiosPassModeCheck | src/xavier/gui.py:360-362 | Boolean mode radios never trigger the empty-string mode check. |
| Validation.NoModeBuildsTumorOnlyCommand | src/xavier/gui.py:360-395 | A passing read with neither mode selected builds a command with no pairs file and no `--cnv`. |
| Validation.PassedPairsNonEmpty | src/xavier/gui.py:363-393 | A passing tumor-normal read passes a non-empty pairs file. |
| Validation.CheckSubmission | src/xavier/gui.py:315-371 | The imperative chain, which lists the folder only after the existence check, agrees with `Validate`. |
| Form.EventKeysDistinct | src/xavier/gui.py:270-314 | Only a closed window comes without a key, and no two events share a key. |
| Form.ReportSplit | src/xavier/gui.py:406-410 | The combined dry-run report contains an error word exactly when its standard output or its standard error does. |
| Form.Transition | src/xavier/gui.py:267-460 | Only cancel and window close end the pass as `Cancelled` (exit status 69). Events other than Submit run nothing and refuse nothing. |
| Form.FinishedExactly | src/xavier/gui.py:400-450 | `main` returns after a pass exactly when the read passed the checks, the dry run was clean, the user submitted and then answered No to another job. A new job is asked for exactly when the last answer is Yes. |
| Form.InitialWellFormed | src/xavier/gui.py:124-262 | The form as laid out is consistent, and all four panels are hidden. |
| Form.TransitionPreservesWellFormed | src/xavier/gui.py:277-460 | Every event keeps the form consistent, and the two mode panels are never shown together. |
| Form.SubmitPreservesWellFormed | src/xavier/gui.py:314-460 | The submit branch keeps the form consistent. |
| Form.ModeClickKeepsGroups | src/xavier/gui.py:277-283 | A mode click keeps the radio groups consistent. |
| Form.OptionClickKeepsGroups | src/xavier/gui.py:302-308 | A CNV, FFPE or targets click keeps the radio groups consistent and leaves the mode radios alone. |
| Form.WidgetPreservesWellFormed | src/xavier/gui.py:277-313 | Every button and radio handler keeps the form consistent. |
| Form.TypingPreservesWellFormed | src/xavier/gui.py:205-212 | Typing into a text field keeps the form consistent. |
| Form.CancelEndsSession | src/xavier/gui.py:272-276 | Cancel or window close change nothing, run nothing and exit with status 69. |
| Form.ModeEventsTogglePanels | src/xavier/gui.py:277-283 | A mode radio shows its panel and hides the other. Only the mode radios change, and the CNV radios keep their values. |
| Form.SettingsEventsTogglePanels | src/xavier/gui.py:299-308 | `-SETTINGS-` shows the settings panel and changes nothing else. `-DEFTARG-` and `-CUSTARG-` hide or show the custom targets panel, select their radio, clear the other, and change no other widget or panel. |
| Form.OptionEventsChangeOneGroup | src/xavier/gui.py:270-314 | `-NOCNV-`, `-CNV-`, `-NOFFPE-` and `-FFPE-` match no handler: the click alone selects the radio and clears its partner. No other widget and no panel changes. |
| Form.InfoEventsChangeNothing | src/xavier/gui.py:284-301 | The documentation and help buttons leave the form as it is. |
| Form.DiscardRestoresDefaults | src/xavier/gui.py:309-313 | Discard hides the settings and targets panels and restores the six radio defaults. Text fields, mode radios and mode panels are unchanged. |
| Form.RefusedSubmissionRunsNothing | src/xavier/gui.py:314-371 | A submission is refused exactly when a check fails, for the first failing check. It runs nothing and changes nothing, except that a declined re-run empties `-OUTDIR-`. |
| Form.DryRunGate | src/xavier/gui.py:400-411 | When the dry-run report contains `error`, `Error` or `ERROR`, only the init and dryrun scripts run and the form is unchanged. |
| Form.PhaseLinesDistinct | src/xavier/gui.py:400-418 | The init, dryrun and run scripts of one command differ. |
| Form.SubmitOnlyAfterCleanDryRun | src/xavier/gui.py:400-418 | The `--runmode run` script is executed exactly when the checks passed, the dry run reported no error and the user answered Yes. |
| Form.RunsExtendTheCommand | src/xavier/gui.py:400-418 | Every script executed starts with the command built from the read. |
| Form.AfterChecksRunsExtend | src/xavier/gui.py:400-418 | After the checks pass, every script executed starts with the command built from the read. |
| Form.TumorOnlyNeverCnv | src/xavier/gui.py:277-283 | With the tumor-only radio selected, the command carries no `--cnv` and no pairs file. |
| Form.DeclineResetsForm | src/xavier/gui.py:451-460 | Declining submission empties every text field, restores the radio defaults, clears both mode radios and hides both mode panels. The settings and targets panels keep their visibility. |
| Form.Window.constructor | src/xavier/gui.py:262 | A new window shows the form as laid out and has run nothing. |
| Form.Window.TypeInto | src/xavier/gui.py:205-212 | Typing changes exactly the one text field. |
| Form.Window.Execute | src/xavier/gui.py:96-111 | Executing a runner script records its text and returns its output; the form is unchanged. |
| Form.Window.ResetAfterDecline | src/xavier/gui.py:451-460 | The window's fields after the decline reset are `DeclineReset` of the old form. |
| Form.Window.RunChecked | src/xavier/gui.py:400-460 | After the checks pass, the window runs, gates and resets as `AfterChecks` says. |
| Form.Window.DryRun | src/xavier/gui.py:400-411 | The init and dryrun scripts are executed in that order. The form is unchanged, and the gate passes exactly when the dry run is clean. |
| Form.Window.Decide | src/xavier/gui.py:412-460 | The submit question on the window performs `Decision`: submit and ask about another job, reset on No, or go on. |
| Form.Window.SubmitStep | src/xavier/gui.py:314-460 | The submit branch on the window's fields performs `SubmitTransition`. |
| Form.Window.WidgetEvent | src/xavier/gui.py:277-313 | The button and radio handlers on the window's fields perform `WidgetTransition`. |
| Form.Window.Step | src/xavier/gui.py:267-460 | One pass of the loop on the window performs `Transition`: the new form, the outcome, the refusal reason, and the appended runner scripts. |

## Left out

- The PySimpleGUI layout, window drawing, popups, and the clipboard
  (`copy_to_clipboard`). Also `version_check` and the DEBUG prints. These are user
  interface and foreign-library calls. Popup answers are inputs (`Answers`).
- Writing, `chmod`-ing and executing the runner file, `subprocess.run`, and the
  UTF-8 round trip of its output (lines 103-111). These are process and file I/O;
  `Os.shell` gives the captured streams for a script text.
- `deletefiles` and `FILES2DELETE` (lines 91-93, 430-433, 462-464): temporary-file
  bookkeeping on the file system.
- `glob.glob`, `os.path.exists`, `fixpath` and `os.getenv`. These depend on the
  operating system. They are the `Os` and `Env` parameters, and every
  environment variable is taken to be set.
- The "Submit another XAVIER job?" Yes branch (lines 437-443). It iterates over
  the result of a blocking `window.read()`, so its effect depends on the GUI
  toolkit. The model ends the pass with outcome `Restart` and the form unchanged.
- Sorting the genome list for the combo box (lines 117-118). It is display only;
  the offered ids are given as a set (`OfferedIds`).
- The second, unreachable "no fastqs" branch (lines 326-337), which lists the
  folder again. With one listing per folder it can never fire, so the listing is
  modelled once.
- The `targets_file` assignment on the `-CUSTARG-` event (line 308). It is
  overwritten before use.
- PyStr.GlobStar: directory names are taken as glob-literal (no `*`, `?` or `[`),
  without a trailing '/'. Matches come in listing order. Glob's handling of
  other special cases (symbolic links, unreadable folders) is not modelled.
- Command.Run: the shell's output is a function of the script text alone. The
  effect of an earlier run on a later one (init before dryrun) is not modelled.
- Form.Transition: a radio event is taken to arrive after the click selected
  that radio, as the toolkit does; the model does not restrict which widgets
  are visible when an event arrives.
- Integer widths, Unicode normalisation and case folding play no part. Strings
  are sequences of characters.
