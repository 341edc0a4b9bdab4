/** The bookkeeping of `LocalCodeExecutor` (backend.py): the output directory
    is the set of names of the regular files in it, the scratch directory the
    set of script names written there. The subprocess run itself is an
    abstract `RunOutcome`, together with the set of files the script writes. */
module Executor {
  import opened Wrappers
  import opened Strings

  /** How a run of the scratch script ended. */
  datatype RunOutcome =
    | Completed(returncode: int, stdout: string, stderr: string)
    | Timeout
    | LaunchError(msg: string)   // any other exception, with its `str(e)`

  /** One entry of `output_files`; the directory is the relative path `output`. */
  datatype OutputFile = OutputFile(fileName: string, filePath: string)

  datatype ExecResult = ExecResult(success: bool, output: string, outputFiles: seq<OutputFile>, error: Option<string>)

  const ChartName := "analysis_chart.png"
  const TimeoutError := "Code execution timed out (exceeded 2 minutes)"
  const LaunchErrorPrefix := "Failed to execute code - "

  /** `output_dir.glob("*.png")` matches exactly the names ending in `.png`. */
  predicate IsChart(name: string) { EndsWith(name, ".png") }

  function OutputPath(name: string): string { "output/" + name }

  /** The names listed by a sequence of output entries. */
  function Names(files: seq<OutputFile>): set<string> {
    set i | 0 <= i < |files| :: files[i].fileName
  }

  /** A listing of a directory: each file once, each with its path under `output`. */
  predicate Lists(files: seq<OutputFile>, dir: set<string>) {
    && Names(files) == dir
    && (forall i, j :: 0 <= i < j < |files| ==> files[i].fileName != files[j].fileName)
    && (forall i :: 0 <= i < |files| ==> files[i].filePath == OutputPath(files[i].fileName))
  }

  /** The result record for a run outcome, given the listing taken after a
      normal completion. */
  function OutcomeResult(outcome: RunOutcome, listing: seq<OutputFile>): ExecResult {
    match outcome
    case Completed(rc, out, err) =>
      ExecResult(rc == 0,
                 if err != "" && rc != 0 then out + "\n\nErrors:\n" + err else out,
                 listing,
                 if rc != 0 then Some(err) else None)
    case Timeout => ExecResult(false, "", [], Some(TimeoutError))
    case LaunchError(msg) => ExecResult(false, "", [], Some(LaunchErrorPrefix + msg))
  }

  /** The result record is consistent whatever the outcome: success exactly
      when a normal run returned 0, an error exactly when there is no success,
      standard output always first, and no files unless the run completed. */
  lemma {:induction false} OutcomeResultConsistent(outcome: RunOutcome, listing: seq<OutputFile>)
    ensures var r := OutcomeResult(outcome, listing);
      && (r.success <==> outcome.Completed? && outcome.returncode == 0)
      && (r.error.None? <==> r.success)
      && (outcome.Completed? ==> StartsWith(r.output, outcome.stdout) && r.outputFiles == listing)
      && (outcome.Completed? && r.output != outcome.stdout ==>
            (!r.success && r.error == Some(outcome.stderr) && EndsWith(r.output, outcome.stderr)))
      && (!outcome.Completed? ==> r.output == "" && r.outputFiles == [] && r.error.Some?)
  {
  }

  /** A failed run reports standard error after a fixed separator, and only
      when there is something on standard error. */
  lemma {:induction false} FailedRunOutput(rc: int, out: string, err: string, listing: seq<OutputFile>)
    requires rc != 0
    ensures var r := OutcomeResult(Completed(rc, out, err), listing);
      && r.error == Some(err)
      && (err == "" <==> r.output == out)
      && (err != "" ==> r.output[|out|..] == "\n\nErrors:\n" + err)
  {
  }

  /** `line.strip()` is falsy exactly on whitespace-only lines; those stay as they are. */
  function IndentLine(line: string, spaces: nat): string {
    if Blank(line) then line else Repeat(' ', spaces) + line
  }

  /** `_indent_code`: every line that is not whitespace-only gets `spaces` leading spaces. */
  function IndentCode(code: string, spaces: nat): string {
    var lines := Split(code, '\n');
    Join(seq(|lines|, i requires 0 <= i < |lines| => IndentLine(lines[i], spaces)), "\n")
  }

  /** Removes the prefix that `IndentLine` adds. */
  function UnindentLine(line: string, spaces: nat): string {
    if Blank(line) || |line| < spaces then line else line[spaces..]
  }

  function UnindentCode(code: string, spaces: nat): string {
    var lines := Split(code, '\n');
    Join(seq(|lines|, i requires 0 <= i < |lines| => UnindentLine(lines[i], spaces)), "\n")
  }

  lemma {:induction false} IndentLineNoNewline(line: string, spaces: nat)
    requires '\n' !in line
    ensures '\n' !in IndentLine(line, spaces)
  {
  }

  /** The lines of the indented code are the indented lines of the code: as
      many, the blank ones untouched, every other one behind `spaces` spaces. */
  lemma {:induction false} IndentCodeLines(code: string, spaces: nat)
    ensures var before := Split(code, '\n');
            var after := Split(IndentCode(code, spaces), '\n');
            && |after| == |before|
            && (forall i :: 0 <= i < |before| ==> after[i] == IndentLine(before[i], spaces))
            && (forall i :: 0 <= i < |before| && Blank(before[i]) ==> after[i] == before[i])
            && (forall i :: 0 <= i < |before| && !Blank(before[i]) ==>
                  after[i] == Repeat(' ', spaces) + before[i])
  {
    var lines := Split(code, '\n');
    var indented := seq(|lines|, i requires 0 <= i < |lines| => IndentLine(lines[i], spaces));
    forall k | 0 <= k < |indented| ensures '\n' !in indented[k] {
      IndentLineNoNewline(lines[k], spaces);
    }
    SplitJoin(indented, '\n');
  }

  /** A line that `IndentLine` changed is no longer blank, so it is unindented again. */
  lemma {:induction false} UnindentIndentLine(line: string, spaces: nat)
    ensures UnindentLine(IndentLine(line, spaces), spaces) == line
  {
    if !Blank(line) {
      var k :| 0 <= k < |line| && !IsSpace(line[k]);
      var r := Repeat(' ', spaces) + line;
      assert r[spaces + k] == line[k];
      assert !Blank(r);
      assert r[spaces..] == line;
    }
  }

  /** Removing the added indentation recovers the code. */
  lemma {:induction false} UnindentIndentCode(code: string, spaces: nat)
    ensures UnindentCode(IndentCode(code, spaces), spaces) == code
  {
    var lines := Split(code, '\n');
    IndentCodeLines(code, spaces);
    var after := Split(IndentCode(code, spaces), '\n');
    var back := seq(|after|, i requires 0 <= i < |after| => UnindentLine(after[i], spaces));
    forall i | 0 <= i < |lines| ensures back[i] == lines[i] {
      UnindentIndentLine(lines[i], spaces);
    }
    assert back == lines;
    JoinSplit(code, '\n');
  }

  class LocalCodeExecutor {
    /** Regular files in the output directory. */
    var outputFiles: set<string>
    /** Scripts present in the scratch directory. */
    var scratch: set<string>

    /** The output directory already exists with `existing` in it; the scratch
        directory is new and empty. */
    constructor(existing: set<string>)
      ensures outputFiles == existing && scratch == {}
    {
      outputFiles := existing;
      scratch := {};
    }

    /** `_clear_previous_charts`: unlinks every `*.png`, one at a time. */
    method ClearPreviousCharts()
      modifies this
      ensures outputFiles == set f | f in old(outputFiles) && !IsChart(f)
      ensures scratch == old(scratch)
    {
      var charts := set f | f in outputFiles && IsChart(f);
      ghost var kept := set f | f in outputFiles && !IsChart(f);
      while charts != {}
        invariant charts <= outputFiles
        invariant outputFiles == kept + charts
        invariant forall f :: f in charts ==> IsChart(f)
        invariant scratch == old(scratch)
        invariant kept == set f | f in old(outputFiles) && !IsChart(f)
        decreases charts
      {
        var chart :| chart in charts;
        outputFiles := outputFiles - {chart};
        charts := charts - {chart};
      }
    }

    /** `_get_output_files`: one entry per regular file in the output directory. */
    method GetOutputFiles() returns (files: seq<OutputFile>)
      ensures Lists(files, outputFiles)
    {
      files := [];
      var remaining := outputFiles;
      while remaining != {}
        invariant remaining <= outputFiles
        invariant Names(files) + remaining == outputFiles
        invariant Names(files) !! remaining
        invariant forall i, j :: 0 <= i < j < |files| ==> files[i].fileName != files[j].fileName
        invariant forall i :: 0 <= i < |files| ==> files[i].filePath == OutputPath(files[i].fileName)
        decreases remaining
      {
        var name :| name in remaining;
        assert name !in Names(files);
        var entry := OutputFile(name, OutputPath(name));
        assert Names(files + [entry]) == Names(files) + {name} by {
          var longer := files + [entry];
          assert longer[|files|] == entry;
          assert forall i :: 0 <= i < |files| ==> longer[i] == files[i];
        }
        files := files + [entry];
        remaining := remaining - {name};
      }
    }

    /** `execute_code`: clears the charts, writes the script `scriptName`,
        removes a stale `analysis_chart.png`, runs the script (which leaves
        `produced` behind when it runs at all), deletes the script only after
        a normal completion, and turns the outcome into a result. No outcome
        escapes as an exception. */
    method ExecuteCode(code: string, scriptName: string, outcome: RunOutcome, produced: set<string>)
      returns (r: ExecResult)
      modifies this
      ensures var cleared := set f | f in old(outputFiles) && !IsChart(f);
              outputFiles == if outcome.LaunchError? then cleared else cleared + produced
      ensures scratch == if outcome.Completed? then old(scratch) + {scriptName} - {scriptName}
                         else old(scratch) + {scriptName}
      ensures r == OutcomeResult(outcome, r.outputFiles)
      ensures outcome.Completed? ==> Lists(r.outputFiles, outputFiles)
    {
      ClearPreviousCharts();
      scratch := scratch + {scriptName};
      if ChartName in outputFiles {
        outputFiles := outputFiles - {ChartName};
      }
      assert outputFiles == set f | f in old(outputFiles) && !IsChart(f);
      match outcome {
        case Completed(returncode, stdout, stderr) =>
          outputFiles := outputFiles + produced;
          scratch := scratch - {scriptName};
          var output := stdout;
          if stderr != "" && returncode != 0 {
            output := output + "\n\nErrors:\n" + stderr;
          }
          var listing := GetOutputFiles();
          r := ExecResult(returncode == 0, output, listing, if returncode != 0 then Some(stderr) else None);
        case Timeout =>
          outputFiles := outputFiles + produced;
          r := ExecResult(false, "", [], Some(TimeoutError));
        case LaunchError(msg) =>
          r := ExecResult(false, "", [], Some(LaunchErrorPrefix + msg));
      }
    }
  }
}
