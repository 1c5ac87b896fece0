/**
 * The application's mutable state and the event handlers that change it:
 * the two chosen paths and the Analyze button (module-level variables of the
 * program), the gauge and the report the analysis writes, and the
 * browse-only file area that caps a choice at two files.
 */
module Checker {
  import opened Wrappers
  import opened Tiers
  import opened FileSelection

  /** The gauge as last drawn: the score and the style chosen for it. */
  datatype GaugeView = GaugeView(score: real, style: GaugeStyle)

  /** The report text area: the welcome text, the "Analyzing..." line, or a finished report. */
  datatype ReportView =
    | Welcome
    | Analyzing
    | Finished(path1: string, path2: string, score: real, style: ReportStyle)

  /** What pressing Analyze did: a warning that two files are needed, an error box, or a new score. */
  datatype Outcome = Warned | ErrorShown(message: string) | Scored(score: real)

  class App {
    var file1: Option<string>
    var file2: Option<string>
    var analyzeEnabled: bool
    var gauge: GaugeView
    var report: ReportView

    /** The selection part of the state, as a value. */
    function Current(): Selection
      reads this
    {
      Selection(file1, file2, analyzeEnabled)
    }

    /** Start-up: no file chosen, Analyze disabled, the welcome text, and the gauge drawn at 0. */
    constructor ()
      ensures Current() == Initial
      ensures gauge == GaugeView(0.0, GaugeStyleOf(0.0)) && gauge.style.caption == "Low Similarity"
      ensures report == Welcome
    {
      file1 := None;
      file2 := None;
      analyzeEnabled := false;
      gauge := GaugeView(0.0, GaugeStyleOf(0.0));
      report := Welcome;
    }

    /** Redisplay the chosen files from `paths`: reset both slots, fill them from the first two paths, set the button. */
    method UpdateFileDisplay(paths: seq<string>)
      modifies this`file1, this`file2, this`analyzeEnabled
      ensures Current() == Display(paths)
    {
      file1, file2 := None, None;
      if |paths| >= 1 {
        file1 := Some(paths[0]);
      }
      if |paths| >= 2 {
        file2 := Some(paths[1]);
      }
      if |paths| >= 2 {
        analyzeEnabled := true;
      } else {
        analyzeEnabled := false;
      }
    }

    /** The "Select Files" button: a cancelled dialog (no path) changes nothing, otherwise every chosen path is displayed. */
    method UploadFiles(chosen: seq<string>)
      modifies this`file1, this`file2, this`analyzeEnabled
      ensures Current() == Step(old(Current()), Chose(chosen))
      ensures chosen == [] ==> Current() == old(Current())
    {
      if chosen != [] {
        UpdateFileDisplay(chosen);
      }
    }

    /** The remove button of file `n`: clear that slot (slot 2 for any number but 1) and redisplay what is left. */
    method RemoveFile(n: int)
      modifies this`file1, this`file2, this`analyzeEnabled
      ensures Current() == Remove(old(Current()), n)
      ensures Current().WellFormed() && !analyzeEnabled
      ensures Current().Count() <= old(Current().Count())
    {
      if n == 1 {
        file1 := None;
      } else {
        file2 := None;
      }
      // Rebuild the list from the slots still holding a true path. Slot 1
      // comes first; with one slot just cleared, at most one path remains.
      var paths := Compact(file1, file2);
      UpdateFileDisplay(paths);
    }

    /**
     * The Analyze button. Without two chosen files it only warns. Otherwise
     * it shows "Analyzing...", asks `check` for the percentage score of the
     * two files, and on success redraws the gauge and writes the report; an
     * error from `check` leaves the gauge as it was and the report at
     * "Analyzing...".
     */
    method AnalyzePlagiarism(check: (string, string) -> Result<real>) returns (outcome: Outcome)
      modifies this`gauge, this`report
      ensures !Current().CanAnalyze() ==> outcome == Warned && gauge == old(gauge) && report == old(report)
      ensures Current().CanAnalyze() ==>
        match check(file1.value, file2.value)
        case Err(msg) => outcome == ErrorShown(msg) && gauge == old(gauge) && report == Analyzing
        case Ok(score) =>
          outcome == Scored(score) &&
          gauge == GaugeView(score, GaugeStyleOf(score)) &&
          report == Finished(file1.value, file2.value, score, ReportStyleOf(score))
    {
      if !Current().CanAnalyze() {
        return Warned;
      }
      report := Analyzing;
      var result := check(file1.value, file2.value);
      match result
      case Err(msg) =>
        outcome := ErrorShown(msg);
      case Ok(score) =>
        gauge := GaugeView(score, GaugeStyleOf(score));
        report := Finished(file1.value, file2.value, score, ReportStyleOf(score));
        outcome := Scored(score);
    }
  }

  /** A click-to-browse area that passes at most `maxFiles` chosen paths to its command. */
  class FileDropArea {
    var files: seq<string>
    const maxFiles: nat := 2
    /** Whether a command was given to the area; a missing command makes the area only remember the paths. */
    const hasCommand: bool

    constructor (hasCommand: bool)
      ensures files == [] && maxFiles == 2 && this.hasCommand == hasCommand
    {
      files := [];
      this.hasCommand := hasCommand;
    }

    /**
     * A click: a cancelled dialog changes nothing; otherwise the area keeps
     * the first `maxFiles` chosen paths and hands them to its command, if any.
     */
    method BrowseFiles(chosen: seq<string>) returns (forwarded: Option<seq<string>>)
      modifies this`files
      ensures chosen == [] ==> files == old(files) && forwarded == None
      ensures chosen != [] ==> files == Take(chosen, maxFiles) && |files| <= maxFiles
      ensures chosen != [] ==> forwarded == (if hasCommand then Some(files) else None)
      ensures forwarded.Some? ==> Display(forwarded.value) == Display(chosen)
    {
      forwarded := None;
      if chosen != [] {
        files := Take(chosen, maxFiles);
        if hasCommand {
          forwarded := Some(files);
          DisplayIgnoresExtraPaths(chosen, maxFiles);
        }
      }
    }
  }
}
