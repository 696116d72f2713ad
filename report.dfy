/**
 * `ValidationReport`: the run's verdict, kept as three append-only lists of
 * messages (critical errors, errors, warnings) and a table of the inputs the
 * run analysed, by category. The counts and verdicts are read off the lists.
 */
module Reports {
  import opened Outcomes
  import opened Text

  const PassedWord := "PASSED"
  const FailedWord := "FAILED"
  const CriticalSuffix := " | CRITICAL ERRORS REPORTED!"

  class ValidationReport {
    const testName: string
    var criticalList: seq<string>
    var errorList: seq<string>
    var warningList: seq<string>
    /** `_inputs`: each input category's values, in the order they were added. */
    var inputTable: map<string, seq<string>>

    /** The lists a caller passes in are copied; an absent list starts empty. */
    constructor (testName: string, criticalList: Option<seq<string>>, errorList: Option<seq<string>>,
                 warningList: Option<seq<string>>)
      ensures this.testName == testName
      ensures this.criticalList == if criticalList.Some? then criticalList.value else []
      ensures this.errorList == if errorList.Some? then errorList.value else []
      ensures this.warningList == if warningList.Some? then warningList.value else []
      ensures inputTable == map[]
    {
      this.testName := testName;
      this.criticalList := if criticalList.None? then [] else criticalList.value;
      this.errorList := if errorList.None? then [] else errorList.value;
      this.warningList := if warningList.None? then [] else warningList.value;
      inputTable := map[];
    }

    predicate NoErrors()
      reads this
    {
      if errorList != [] || criticalList != [] then false else true
    }

    predicate NoWarnings()
      reads this
    {
      if warningList != [] then false else true
    }

    function WarningCount(): nat
      reads this
    {
      |warningList|
    }

    function ErrorCount(): nat
      reads this
    {
      |errorList| + |criticalList|
    }

    /** `inputs`: the table, as a value; the sharing of the per-category lists
        that a shallow copy leaves is not modelled. */
    function Inputs(): map<string, seq<string>>
      reads this
    {
      inputTable
    }

    predicate Passed()
      reads this
    {
      NoWarnings() && NoErrors()
    }

    /** Adds `value` to the category `name`, opening the category first when
        it is new; the other categories are untouched. */
    method AddInput(name: string, value: string)
      modifies this
      ensures name in Inputs()
      ensures Inputs()[name] == (if name in old(Inputs()) then old(Inputs())[name] else []) + [value]
      ensures forall other :: other != name ==>
        (other in Inputs() <==> other in old(Inputs())) &&
        (other in Inputs() ==> Inputs()[other] == old(Inputs())[other])
      ensures criticalList == old(criticalList) && errorList == old(errorList) && warningList == old(warningList)
    {
      if name !in inputTable {
        inputTable := inputTable[name := []];
      }
      inputTable := inputTable[name := inputTable[name] + [value]];
    }

    method AddWarning(warning: string)
      modifies this
      ensures warningList == old(warningList) + [warning]
      ensures criticalList == old(criticalList) && errorList == old(errorList) && inputTable == old(inputTable)
    {
      warningList := warningList + [warning];
    }

    method AddError(error: string)
      modifies this
      ensures errorList == old(errorList) + [error]
      ensures criticalList == old(criticalList) && warningList == old(warningList) && inputTable == old(inputTable)
    {
      errorList := errorList + [error];
    }

    method AddCritical(criticalError: string)
      modifies this
      ensures criticalList == old(criticalList) + [criticalError]
      ensures errorList == old(errorList) && warningList == old(warningList) && inputTable == old(inputTable)
    {
      criticalList := criticalList + [criticalError];
    }

    method AddWarnings(warnings: seq<string>)
      modifies this
      ensures warningList == old(warningList) + warnings
      ensures criticalList == old(criticalList) && errorList == old(errorList) && inputTable == old(inputTable)
    {
      for i := 0 to |warnings|
        invariant warningList == old(warningList) + warnings[..i]
        invariant criticalList == old(criticalList) && errorList == old(errorList) && inputTable == old(inputTable)
      {
        assert warnings[..i + 1] == warnings[..i] + [warnings[i]];
        warningList := warningList + [warnings[i]];
      }
      assert warnings[..|warnings|] == warnings;
    }

    method AddErrors(errors: seq<string>)
      modifies this
      ensures errorList == old(errorList) + errors
      ensures criticalList == old(criticalList) && warningList == old(warningList) && inputTable == old(inputTable)
    {
      for i := 0 to |errors|
        invariant errorList == old(errorList) + errors[..i]
        invariant criticalList == old(criticalList) && warningList == old(warningList) && inputTable == old(inputTable)
      {
        assert errors[..i + 1] == errors[..i] + [errors[i]];
        errorList := errorList + [errors[i]];
      }
      assert errors[..|errors|] == errors;
    }

    method AddCriticals(criticals: seq<string>)
      modifies this
      ensures criticalList == old(criticalList) + criticals
      ensures errorList == old(errorList) && warningList == old(warningList) && inputTable == old(inputTable)
    {
      for i := 0 to |criticals|
        invariant criticalList == old(criticalList) + criticals[..i]
        invariant errorList == old(errorList) && warningList == old(warningList) && inputTable == old(inputTable)
      {
        assert criticals[..i + 1] == criticals[..i] + [criticals[i]];
        criticalList := criticalList + [criticals[i]];
      }
      assert criticals[..|criticals|] == criticals;
    }

    /** `__str__`: the verdict, the two counts and, when there is any critical
        error, a warning suffix. */
    function ToString(): string
      reads this
    {
      Rendered(testName, Passed(), ErrorCount(), WarningCount(), criticalList != [])
    }
  }

  /** The line `__str__` builds from the report's name, verdict, counts and
      whether a critical error was recorded. */
  function Rendered(testName: string, passed: bool, errorCount: nat, warningCount: nat, critical: bool): string {
    Headline(testName, passed) + Counts(errorCount, warningCount) + (if critical then CriticalSuffix else "")
  }

  function Headline(testName: string, passed: bool): string {
    testName + ": " + (if passed then PassedWord else FailedWord)
  }

  function Counts(errorCount: nat, warningCount: nat): string {
    " | Errors: " + IntToString(errorCount) + " | Warnings: " + IntToString(warningCount)
  }

  /** The counts are the list lengths, and each verdict holds exactly when
      the counts it looks at are zero. */
  lemma CountsAndVerdicts(report: ValidationReport)
    ensures report.ErrorCount() == |report.errorList| + |report.criticalList|
    ensures report.WarningCount() == |report.warningList|
    ensures report.NoErrors() <==> report.ErrorCount() == 0
    ensures report.NoWarnings() <==> report.WarningCount() == 0
    ensures report.Passed() <==> report.errorList == [] && report.criticalList == [] && report.warningList == []
  {
  }

  /** The lists only grow, so a failed verdict stays failed and the counts
      never drop. */
  twostate lemma AppendOnly(report: ValidationReport)
    requires old(report.criticalList) <= report.criticalList
    requires old(report.errorList) <= report.errorList
    requires old(report.warningList) <= report.warningList
    ensures old(report.ErrorCount()) <= report.ErrorCount()
    ensures old(report.WarningCount()) <= report.WarningCount()
    ensures !old(report.NoErrors()) ==> !report.NoErrors()
    ensures !old(report.NoWarnings()) ==> !report.NoWarnings()
    ensures !old(report.Passed()) ==> !report.Passed()
  {
  }

  /** The rendered line opens with the test name and PASSED exactly when the
      report passed, and with FAILED otherwise. */
  lemma ToStringVerdict(report: ValidationReport)
    ensures var n := |report.testName| + 2 + 6;
      |report.ToString()| >= n &&
      (report.ToString()[..n] == report.testName + ": " + PassedWord <==> report.Passed()) &&
      (report.ToString()[..n] == report.testName + ": " + FailedWord <==> !report.Passed())
  {
    RenderedVerdict(report.testName, report.Passed(), report.ErrorCount(), report.WarningCount(), report.criticalList != []);
  }

  lemma RenderedVerdict(testName: string, passed: bool, errorCount: nat, warningCount: nat, critical: bool)
    ensures var s, n := Rendered(testName, passed, errorCount, warningCount, critical), |testName| + 2 + 6;
      |s| >= n &&
      (s[..n] == testName + ": " + PassedWord <==> passed) &&
      (s[..n] == testName + ": " + FailedWord <==> !passed)
  {
    var head := Headline(testName, passed);
    var s := Rendered(testName, passed, errorCount, warningCount, critical);
    Prefix(head, Counts(errorCount, warningCount), if critical then CriticalSuffix else "");
    assert Headline(testName, true)[|testName| + 2] == 'P';
    assert Headline(testName, false)[|testName| + 2] == 'F';
  }

  lemma Prefix(head: string, middle: string, tail: string)
    ensures (head + middle + tail)[..|head|] == head
  {
  }

  /** The suffix appears exactly when a critical error was recorded: without
      one the line ends in the warning count's last digit. */
  lemma ToStringCritical(report: ValidationReport)
    ensures var s := report.ToString();
      (|s| >= |CriticalSuffix| && s[|s| - |CriticalSuffix|..] == CriticalSuffix) <==> report.criticalList != []
  {
    var s := report.ToString();
    var count := IntToString(report.WarningCount());
    assert count == NatToString(report.WarningCount());
    if report.criticalList == [] {
      assert s[|s| - 1] == count[|count| - 1];
      assert IsDigit(count[|count| - 1]);
      assert CriticalSuffix[|CriticalSuffix| - 1] == '!';
    }
  }
}
