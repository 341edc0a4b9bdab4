// The bookkeeping of the comprehensive test suite: every logged test updates
// the pass/fail counters and the per-name result table, and the summary
// buckets the success rate.

module TestSuite {
  import opened Wrappers

  /** The status and details last logged under a test name. */
  datatype TestRecord = TestRecord(status: string, details: string)

  /** One `log_test` call. */
  datatype Entry = Entry(name: string, status: string, details: string)

  /** The number of logged tests whose status is exactly "PASS". */
  function Passes(log: seq<Entry>): (n: nat)
    ensures n <= |log|
  {
    if log == [] then 0
    else Passes(log[..|log| - 1]) + (if log[|log| - 1].status == "PASS" then 1 else 0)
  }

  /** The result table after `log`: each name holds its last entry. */
  function Latest(log: seq<Entry>): map<string, TestRecord> {
    if log == [] then map[]
    else
      var last := log[|log| - 1];
      Latest(log[..|log| - 1])[last.name := TestRecord(last.status, last.details)]
  }

  /** The names that have been logged. */
  function Names(log: seq<Entry>): set<string> {
    set e | e in log :: e.name
  }

  /** The table has one entry per distinct logged name, so repeated names
      overwrite and there are never more entries than logged tests. */
  lemma {:induction false} LatestKeys(log: seq<Entry>)
    ensures Latest(log).Keys == Names(log)
    ensures |Latest(log).Keys| <= |log|
  {
    if log != [] {
      var init, last := log[..|log| - 1], log[|log| - 1];
      LatestKeys(init);
      assert Latest(log).Keys == Latest(init).Keys + {last.name};
      NamesSnoc(log);
      AddOneBound(Latest(init).Keys, last.name);
    }
  }

  /** Logging one more entry adds its name to the logged names. */
  lemma NamesSnoc(log: seq<Entry>)
    requires log != []
    ensures Names(log) == Names(log[..|log| - 1]) + {log[|log| - 1].name}
  {
    assert log == log[..|log| - 1] + [log[|log| - 1]];
  }

  /** Adding one element grows a set by at most one. */
  lemma AddOneBound(names: set<string>, name: string)
    ensures |names + {name}| <= |names| + 1
  {
    if name in names {
      assert names + {name} == names;
    }
  }

  /** The table holds, for every logged name, the status and details of its
      last entry. */
  lemma {:induction false} LatestIsLast(log: seq<Entry>, i: int)
    requires 0 <= i < |log|
    requires forall j :: i < j < |log| ==> log[j].name != log[i].name
    ensures log[i].name in Latest(log)
    ensures Latest(log)[log[i].name] == TestRecord(log[i].status, log[i].details)
  {
    if i < |log| - 1 {
      var init := log[..|log| - 1];
      assert forall j :: 0 <= j < |init| ==> init[j] == log[j];
      LatestIsLast(init, i);
    }
  }

  class ComprehensiveTestSuite {
    var testResults: map<string, TestRecord>
    var passedTests: nat
    var failedTests: nat
    var totalTests: nat
    /** Every `log_test` call so far, in order. */
    ghost var log: seq<Entry>

    /** The counters and the table agree with the calls logged so far. */
    ghost predicate Valid()
      reads this
    {
      && totalTests == |log|
      && passedTests == Passes(log)
      && passedTests + failedTests == totalTests
      && testResults == Latest(log)
    }

    constructor()
      ensures Valid() && log == []
      ensures testResults == map[] && passedTests == 0 && failedTests == 0 && totalTests == 0
    {
      testResults := map[];
      passedTests := 0;
      failedTests := 0;
      totalTests := 0;
      log := [];
    }

    /** `log_test`: records the result under its name and counts it as
        passed exactly when its status is "PASS". */
    method LogTest(testName: string, status: string, details: string)
      requires Valid()
      modifies this
      ensures Valid()
      ensures log == old(log) + [Entry(testName, status, details)]
      ensures testResults == old(testResults)[testName := TestRecord(status, details)]
      ensures passedTests == old(passedTests) + (if status == "PASS" then 1 else 0)
      ensures failedTests == old(failedTests) + (if status == "PASS" then 0 else 1)
      ensures totalTests == old(totalTests) + 1
    {
      testResults := testResults[testName := TestRecord(status, details)];
      if status == "PASS" {
        passedTests := passedTests + 1;
      } else {
        failedTests := failedTests + 1;
      }
      totalTests := totalTests + 1;
      log := log + [Entry(testName, status, details)];
      assert log[..|log| - 1] == old(log);
    }

    /** The summary's status line, absent when no test ran. */
    function Summary(): (status: Option<string>)
      reads this
      ensures status.None? <==> totalTests == 0
    {
      if totalTests > 0 then Some(OverallStatus(SuccessRate(passedTests, totalTests))) else None
    }

    /** The table never has more entries than tests were logged. */
    lemma ResultsBounded()
      requires Valid()
      ensures |testResults.Keys| <= totalTests
    {
      LatestKeys(log);
    }
  }

  /** The success rate of the saved report: passed over total as a
      percentage, 0 when no test ran. */
  function SuccessRate(passed: nat, total: nat): (rate: real)
    ensures total == 0 ==> rate == 0.0
    ensures passed <= total ==> 0.0 <= rate <= 100.0
    ensures 0 < total && passed == total ==> rate == 100.0
  {
    if total > 0 then passed as real / total as real * 100.0 else 0.0
  }

  const Excellent: string := "\U{1F7E2} EXCELLENT - Production Ready!"
  const Good: string := "\U{1F7E1} GOOD - Minor issues to address"
  const Fair: string := "\U{1F7E0} FAIR - Several issues need fixing"
  const Poor: string := "\U{1F534} POOR - Major issues require attention"

  /** The overall status of `print_test_summary` for a success rate. */
  function OverallStatus(rate: real): (status: string)
    ensures status in [Excellent, Good, Fair, Poor]
  {
    if rate >= 90.0 then Excellent
    else if rate >= 75.0 then Good
    else if rate >= 50.0 then Fair
    else Poor
  }

  /** The position of a status from best to worst. */
  function StatusRank(status: string): nat {
    if status == Excellent then 0 else if status == Good then 1 else if status == Fair then 2 else 3
  }

  /** A higher success rate never gets a worse status, and the bands are
      cut at 90, 75 and 50. */
  lemma OverallStatusMonotone(a: real, b: real)
    requires a <= b
    ensures StatusRank(OverallStatus(b)) <= StatusRank(OverallStatus(a))
    ensures OverallStatus(a) == Excellent <==> a >= 90.0
    ensures OverallStatus(a) == Poor <==> a < 50.0
  {
  }

  /** A run in which every logged test passed is rated excellent. */
  lemma AllPassedExcellent(passed: nat, total: nat)
    requires 0 < total && passed == total
    ensures OverallStatus(SuccessRate(passed, total)) == Excellent
  {
  }
}
