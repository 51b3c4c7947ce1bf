/** The system check's decision logic: version-string comparison, the
    Python version requirement, the masking of environment values and the
    aggregation of the individual checks into one verdict. The checks that
    touch the file system, the network or installed packages are inputs. */
module CheckSystem {
  import opened Wrappers
  import opened Strings
  import opened Env

  // ------------------------------------------------------------ versions

  /** Python's comparison of two integer lists: lexicographic, a proper
      prefix being smaller; -1, 0 or 1. */
  function ListCompare(a: seq<int>, b: seq<int>): (r: int)
    ensures -1 <= r <= 1
    ensures r == 0 <==> a == b
  {
    if a == [] && b == [] then 0
    else if a == [] then -1
    else if b == [] then 1
    else if a[0] < b[0] then -1
    else if a[0] > b[0] then 1
    else
      var r := ListCompare(a[1..], b[1..]);
      assert r == 0 ==> a == [a[0]] + a[1..] == [b[0]] + b[1..] == b;
      r
  }

  lemma {:induction false} ListCompareAntisymmetric(a: seq<int>, b: seq<int>)
    ensures ListCompare(a, b) == -ListCompare(b, a)
  {
    if a != [] && b != [] && a[0] == b[0] {
      ListCompareAntisymmetric(a[1..], b[1..]);
    }
  }

  lemma {:induction false} ListCompareTransitive(a: seq<int>, b: seq<int>, c: seq<int>)
    requires ListCompare(a, b) == -1 && ListCompare(b, c) == -1
    ensures ListCompare(a, c) == -1
  {
    if a != [] && b != [] && c != [] && a[0] == b[0] == c[0] {
      ListCompareTransitive(a[1..], b[1..], c[1..]);
    }
  }

  /** Python's `str.isdigit` on ASCII: non-empty and all digits. */
  predicate IsDigits(s: string)
  {
    s != [] && forall i | 0 <= i < |s| :: IsDigit(s[i])
  }

  /** The numeric components, in order, skipping every part that is not all
      digits. */
  function NumericParts(parts: seq<string>): seq<int>
  {
    if parts == [] then [] else NumericPart(parts[0]) + NumericParts(parts[1..])
  }

  /** `[int(x)]` for an all-digit part, `[]` for any other. */
  function NumericPart(x: string): (r: seq<int>)
    ensures |r| <= 1
  {
    if IsDigits(x) then [DigitsValue(x) as int] else []
  }

  lemma {:induction false} NumericPartsSnoc(parts: seq<string>, x: string)
    ensures NumericParts(parts + [x]) == NumericParts(parts) + NumericPart(x)
  {
    if parts == [] {
      assert parts + [x] == [x];
      assert NumericPart(x) == NumericPart(x) + NumericParts([]);
    } else {
      var rest := parts[1..];
      assert (parts + [x])[0] == parts[0];
      assert (parts + [x])[1..] == rest + [x];
      NumericPartsSnoc(rest, x);
      assert NumericParts(parts + [x]) == NumericPart(parts[0]) + (NumericParts(rest) + NumericPart(x));
    }
  }

  /** `normalize` inside `_compare_versions`. */
  function Normalize(v: string): seq<int>
  {
    NumericParts(SplitOn(v, '.'))
  }

  /** One component at most per dot-separated part; a version without a dot
      is its one all-digit part, or nothing. */
  lemma NormalizeParts(v: string)
    ensures |Normalize(v)| <= Count(v, '.') + 1
    ensures '.' !in v ==> Normalize(v) == if IsDigits(v) then [DigitsValue(v) as int] else []
  {
    NumericPartsLength(SplitOn(v, '.'));
    if '.' !in v {
      assert SplitOn(v, '.') == [v];
      assert NumericParts([v]) == NumericPart(v) + NumericParts([]);
    }
  }

  lemma {:induction false} NumericPartsLength(parts: seq<string>)
    ensures |NumericParts(parts)| <= |parts|
  {
    if parts != [] {
      NumericPartsLength(parts[1..]);
    }
  }

  function Zeros(n: nat): (z: seq<int>)
    ensures |z| == n && forall i | 0 <= i < n :: z[i] == 0
  {
    seq(n, _ => 0)
  }

  function Max(a: nat, b: nat): nat
  {
    if a >= b then a else b
  }

  /** `_compare_versions`: the numeric components, zero-padded to the same
      length and compared as lists. */
  function VersionCompare(v1: string, v2: string): (r: int)
    ensures -1 <= r <= 1
  {
    var p1, p2 := Normalize(v1), Normalize(v2);
    var n := Max(|p1|, |p2|);
    ListCompare(p1 + Zeros(n - |p1|), p2 + Zeros(n - |p2|))
  }

  /** The imperative form: the lists are extended in place, then compared
      element by element. */
  method CompareVersions(version1: string, version2: string) returns (r: int)
    ensures r == VersionCompare(version1, version2)
  {
    var v1 := Normalize(version1);
    var v2 := Normalize(version2);
    var maxLen := Max(|v1|, |v2|);
    v1 := v1 + Zeros(maxLen - |v1|);
    v2 := v2 + Zeros(maxLen - |v2|);
    ghost var a, b := v1, v2;
    var i := 0;
    while i < maxLen && v1[i] == v2[i]
      invariant 0 <= i <= maxLen && |v1| == |v2| == maxLen
      invariant ListCompare(a, b) == ListCompare(v1[i..], v2[i..])
    {
      assert v1[i..][1..] == v1[i + 1..] && v2[i..][1..] == v2[i + 1..];
      i := i + 1;
    }
    if i == maxLen {
      assert v1[i..] == [] == v2[i..];
      r := 0;
    } else if v1[i] < v2[i] {
      assert v1[i..][0] == v1[i] && v2[i..][0] == v2[i];
      r := -1;
    } else {
      assert v1[i..][0] == v1[i] && v2[i..][0] == v2[i];
      r := 1;
    }
  }

  lemma VersionCompareReflexive(v: string)
    ensures VersionCompare(v, v) == 0
  {
  }

  lemma VersionCompareAntisymmetric(v1: string, v2: string)
    ensures VersionCompare(v1, v2) == -VersionCompare(v2, v1)
  {
    var p1, p2 := Normalize(v1), Normalize(v2);
    var n := Max(|p1|, |p2|);
    assert n == Max(|p2|, |p1|);
    ListCompareAntisymmetric(p1 + Zeros(n - |p1|), p2 + Zeros(n - |p2|));
  }

  /** Versions whose numeric components differ only by trailing zeros
      compare equal. */
  lemma TrailingZerosIgnored(v1: string, v2: string, k: nat)
    requires Normalize(v2) == Normalize(v1) + Zeros(k)
    ensures VersionCompare(v1, v2) == 0
  {
    var p1, p2 := Normalize(v1), Normalize(v2);
    assert p2 + Zeros(0) == p2 == p1 + Zeros(k);
  }

  /** The numeric components of `v` followed by a dot and a dot-free `x`. */
  lemma NormalizeAppend(v: string, x: string)
    requires '.' !in x
    ensures Normalize(v + "." + x) == Normalize(v) + NumericPart(x)
  {
    SplitAppend(v, '.', x);
    NumericPartsSnoc(SplitOn(v, '.'), x);
  }

  /** Zero padding: `1.2` and `1.2.0` compare equal, as does any version
      with `.0` appended. */
  lemma AppendedZeroIgnored(v: string)
    ensures VersionCompare(v, v + ".0") == 0
  {
    assert v + ".0" == v + "." + "0";
    NormalizeAppend(v, "0");
    assert IsDigits("0") && DigitsValue("0") == 0;
    assert NumericParts(["0"]) == [0] == Zeros(1);
    TrailingZerosIgnored(v, v + ".0", 1);
  }

  /** A component that is not all digits is dropped: `2.1.0rc1` compares
      equal to `2.1`. */
  lemma NonNumericComponentIgnored(v: string, x: string)
    requires '.' !in x && !IsDigits(x)
    ensures VersionCompare(v + "." + x, v) == 0
  {
    NormalizeAppend(v, x);
    assert NumericPart(x) == [];
    assert Normalize(v + "." + x) == Normalize(v);
  }

  lemma ReleaseCandidateExample()
    ensures VersionCompare("2.1" + "." + "0rc1", "2.1") == 0
  {
    var x := "0rc1";
    assert x[1] == 'r' && !IsDigit(x[1]);
    NonNumericComponentIgnored("2.1", x);
  }

  // ------------------------------------------------- environment values

  /** The displayed form of a set variable: its first eight characters and
      `...` when it is longer than eight, otherwise `***`. */
  function DisplayValue(value: string): (r: string)
    ensures |value| > 8 ==> |r| == 11 && r[..8] == value[..8] && r[8..] == "..."
    ensures |value| <= 8 ==> r == "***"
    ensures |r| <= 11
  {
    if |value| > 8 then value[..8] + "..." else "***"
  }

  /** `version >= (3, 11)` on a version triple. */
  lemma VersionTupleOrder(major: int, minor: int, micro: int)
    ensures ListCompare([major, minor, micro], [3, 11]) >= 0 <==> major > 3 || (major == 3 && minor >= 11)
  {
    var v, w := [major, minor, micro], [3, 11];
    assert v[1..] == [minor, micro] && w[1..] == [11];
    assert v[1..][1..] == [micro] && w[1..][1..] == [];
    assert ListCompare([micro], []) == 1;
  }

  /** The four required variables, with their descriptions. */
  const RequiredVars: seq<(string, string)> := [
    ("OPENAI_API_KEY", "OpenAI API key for GPT models"),
    ("PINECONE_API_KEY", "Pinecone API key for vector database"),
    ("PINECONE_ENVIRONMENT", "Pinecone environment (e.g., us-east-1-aws)"),
    ("PINECONE_INDEX_NAME", "Pinecone index name for Vietnamese legal docs")]

  /** The masked values of the variables in `vars` that are set and
      non-empty, in order. */
  function Shown(env: Environment, vars: seq<(string, string)>): (r: seq<(string, string)>)
    ensures |r| <= |vars|
    ensures forall k | 0 <= k < |r| :: r[k].0 in env && r[k].1 == DisplayValue(env[r[k].0])
    ensures forall p :: p in r <==>
      exists i | 0 <= i < |vars| :: Truthy(Getenv(env, vars[i].0)) && p == (vars[i].0, DisplayValue(env[vars[i].0]))
  {
    if vars == [] then []
    else
      var init := vars[..|vars| - 1];
      var name := vars[|vars| - 1].0;
      var rest := Shown(env, init);
      assert forall i | 0 <= i < |init| :: init[i] == vars[i];
      rest + (if Truthy(Getenv(env, name)) then [(name, DisplayValue(env[name]))] else [])
  }

  /** The outcome of one check: `Ok` with its return value, or `Err` with
      the text of the exception it raised. */
  type CheckOutcome = Result<bool, string>

  /** One check as `run_system_check` meets it: its outcome, and the errors
      and warnings the check itself appended before returning or raising. */
  datatype CheckRun = CheckRun(outcome: CheckOutcome, errors: seq<string>, warnings: seq<string>)

  /** The errors the checks leave: each check's own, then one for its
      exception if it raised. */
  function RunErrors(runs: seq<CheckRun>): seq<string>
  {
    if runs == [] then []
    else
      var last := runs[|runs| - 1];
      RunErrors(runs[..|runs| - 1]) + last.errors
      + (if last.outcome.Err? then ["System check failed: " + last.outcome.error] else [])
  }

  /** The warnings the checks append, in order. */
  function RunWarnings(runs: seq<CheckRun>): seq<string>
  {
    if runs == [] then [] else RunWarnings(runs[..|runs| - 1]) + runs[|runs| - 1].warnings
  }

  /** Every check returned true without raising. */
  predicate AllPassed(runs: seq<CheckRun>)
  {
    forall i | 0 <= i < |runs| :: runs[i].outcome == Ok(true)
  }

  /** Running one more check extends the errors, the warnings and the
      verdict by that check's. */
  lemma RunsSnoc(runs: seq<CheckRun>, run: CheckRun)
    ensures RunErrors(runs + [run]) == RunErrors(runs) + RunErrors([run])
    ensures RunWarnings(runs + [run]) == RunWarnings(runs) + run.warnings
    ensures AllPassed(runs + [run]) <==> AllPassed(runs) && run.outcome == Ok(true)
  {
    assert (runs + [run])[..|runs|] == runs;
    assert [run][..0] == [];
  }

  /** The error `check_python_version` records for a version below 3.11. */
  function PythonError(major: nat, minor: nat): string
  {
    "\U{274c} Python " + NatToString(major) + "." + NatToString(minor) + " - Requires Python 3.11+"
  }

  /** The run `check_python_version` makes: it never raises or warns, and
      records its one error exactly when it fails. */
  function PythonVersionRun(major: nat, minor: nat): (r: CheckRun)
    ensures r.outcome.Ok? && r.warnings == []
    ensures r.outcome.value <==> major > 3 || (major == 3 && minor >= 11)
    ensures r.errors == (if r.outcome.value then [] else [PythonError(major, minor)])
  {
    var ok := major > 3 || (major == 3 && minor >= 11);
    CheckRun(Ok(ok), Listed(!ok, PythonError(major, minor)), [])
  }

  /** The run `check_environment_variables` makes: it never raises or warns,
      and records its one error exactly when a variable is missing. */
  function EnvironmentRun(env: Environment): (r: CheckRun)
    ensures r.outcome.Ok? && r.warnings == []
    ensures r.outcome.value <==> forall i | 0 <= i < |RequiredVars| :: Truthy(Getenv(env, RequiredVars[i].0))
    ensures r.errors == (if r.outcome.value then [] else ["Missing environment variables"])
  {
    var ok := forall i | 0 <= i < |RequiredVars| :: Truthy(Getenv(env, RequiredVars[i].0));
    CheckRun(Ok(ok), Listed(!ok, "Missing environment variables"), [])
  }

  /** A check of `run_system_check`: the two modelled here by their
      inputs, the others by the run they make. */
  datatype Check =
    | PythonVersion(major: nat, minor: nat, micro: nat)
    | EnvironmentVariables(env: Environment)
    | Given(run: CheckRun)

  /** The run a check makes. */
  function RunOf(check: Check): CheckRun
  {
    match check
    case PythonVersion(major, minor, _) => PythonVersionRun(major, minor)
    case EnvironmentVariables(env) => EnvironmentRun(env)
    case Given(run) => run
  }

  /** The runs of the checks, in order. */
  function Runs(checks: seq<Check>): (runs: seq<CheckRun>)
    ensures |runs| == |checks|
  {
    if checks == [] then [] else Runs(checks[..|checks| - 1]) + [RunOf(checks[|checks| - 1])]
  }

  lemma ChecksSnoc(checks: seq<Check>, i: nat)
    requires i < |checks|
    ensures Runs(checks[..i + 1]) == Runs(checks[..i]) + [RunOf(checks[i])]
  {
    assert checks[..i + 1][..i] == checks[..i];
  }

  /** The seven checks of `run_system_check`, in the order it runs them. */
  function SystemChecks(major: nat, minor: nat, micro: nat, env: Environment, directories: CheckRun,
                        dependencies: CheckRun, config: CheckRun, ports: CheckRun, sampleData: CheckRun): seq<Check>
  {
    [PythonVersion(major, minor, micro), Given(directories), Given(dependencies), EnvironmentVariables(env),
     Given(config), Given(ports), Given(sampleData)]
  }

  /** `VietnameseLegalSystemInitializer`. */
  class SystemInitializer {
    var requirementsMet: bool
    var errors: seq<string>
    var warnings: seq<string>

    constructor ()
      ensures requirementsMet && errors == [] && warnings == []
    {
      requirementsMet := true;
      errors := [];
      warnings := [];
    }

    /** `check_python_version`: at least 3.11 passes; otherwise an error is
        recorded. */
    method CheckPythonVersion(major: nat, minor: nat, micro: nat) returns (ok: bool)
      modifies this
      ensures ok <==> major > 3 || (major == 3 && minor >= 11)
      ensures requirementsMet == old(requirementsMet) && warnings == old(warnings)
      ensures errors == old(errors) + Listed(!ok, PythonError(major, minor))
    {
      ok := ListCompare([major, minor, micro], [3, 11]) >= 0;
      VersionTupleOrder(major, minor, micro);
      if !ok {
        errors := errors + [PythonError(major, minor)];
      }
    }

    /** `check_environment_variables`: every required variable must be set
        and non-empty; the set ones are shown masked. */
    method CheckEnvironmentVariables(env: Environment) returns (ok: bool, shown: seq<(string, string)>)
      modifies this
      ensures ok <==> forall i | 0 <= i < |RequiredVars| :: Truthy(Getenv(env, RequiredVars[i].0))
      ensures shown == Shown(env, RequiredVars)
      ensures requirementsMet == old(requirementsMet) && warnings == old(warnings)
      ensures errors == old(errors) + Listed(!ok, "Missing environment variables")
    {
      var missing: seq<string> := [];
      shown := [];
      var i := 0;
      while i < |RequiredVars|
        invariant 0 <= i <= |RequiredVars|
        invariant missing == [] <==> forall j | 0 <= j < i :: Truthy(Getenv(env, RequiredVars[j].0))
        invariant shown == Shown(env, RequiredVars[..i])
      {
        assert RequiredVars[..i + 1][..i] == RequiredVars[..i];
        var (name, description) := RequiredVars[i];
        var value := Getenv(env, name);
        if Truthy(value) {
          shown := shown + [(name, DisplayValue(value.value))];
        } else {
          missing := missing + [name + " (" + description + ")"];
        }
        i := i + 1;
      }
      assert RequiredVars[..i] == RequiredVars;
      ok := missing == [];
      if !ok {
        errors := errors + ["Missing environment variables"];
      }
    }

    /** One pass of `run_system_check`'s loop over a check given by its
        run: a falsy or raising check clears the verdict, and a raise adds
        an error after the check's own. */
    method RunCheck(run: CheckRun)
      modifies this
      ensures requirementsMet == (old(requirementsMet) && run.outcome == Ok(true))
      ensures errors == old(errors) + RunErrors([run])
      ensures warnings == old(warnings) + run.warnings
    {
      assert [run][..0] == [];
      errors := errors + run.errors;
      warnings := warnings + run.warnings;
      match run.outcome {
        case Ok(passed) =>
          if !passed {
            requirementsMet := false;
          }
        case Err(e) =>
          errors := errors + ["System check failed: " + e];
          requirementsMet := false;
      }
    }

    /** `run_system_check`: the seven checks run in order, the verdict stays
        true exactly when every one returned true without raising, and
        their errors and warnings accumulate; the connectivity check only
        adds its own errors and warnings. */
    method RunSystemCheck(major: nat, minor: nat, micro: nat, env: Environment,
                          directories: CheckRun, dependencies: CheckRun, config: CheckRun,
                          ports: CheckRun, sampleData: CheckRun, connectivity: CheckRun)
      returns (met: bool)
      modifies this
      ensures var runs := Runs(SystemChecks(major, minor, micro, env, directories, dependencies, config, ports, sampleData));
        requirementsMet == (old(requirementsMet) && AllPassed(runs))
        && errors == old(errors) + RunErrors(runs) + connectivity.errors
        && warnings == old(warnings) + RunWarnings(runs) + connectivity.warnings
      ensures met == requirementsMet
    {
      RunChecks(SystemChecks(major, minor, micro, env, directories, dependencies, config, ports, sampleData));
      errors := errors + connectivity.errors;
      warnings := warnings + connectivity.warnings;
      met := requirementsMet;
    }

    /** The loop of `run_system_check` over `checks`. */
    method RunChecks(checks: seq<Check>)
      modifies this
      ensures requirementsMet == (old(requirementsMet) && AllPassed(Runs(checks)))
      ensures errors == old(errors) + RunErrors(Runs(checks))
      ensures warnings == old(warnings) + RunWarnings(Runs(checks))
    {
      assert checks[..0] == [];
      var i := 0;
      while i < |checks|
        invariant 0 <= i <= |checks|
        invariant Accounts(Runs(checks[..i]), old(requirementsMet), old(errors), old(warnings))
      {
        ChecksSnoc(checks, i);
        Step(Runs(checks[..i]), checks[i], old(requirementsMet), old(errors), old(warnings));
        i := i + 1;
      }
      assert checks[..i] == checks;
    }

    /** One pass of the loop: the check runs and its run joins `done`. */
    method Step(ghost done: seq<CheckRun>, check: Check, ghost met0: bool,
                ghost errors0: seq<string>, ghost warnings0: seq<string>)
      modifies this
      requires Accounts(done, met0, errors0, warnings0)
      ensures Accounts(done + [RunOf(check)], met0, errors0, warnings0)
    {
      match check {
        case PythonVersion(major, minor, micro) =>
          RecordPythonVersion(done, major, minor, micro, met0, errors0, warnings0);
        case EnvironmentVariables(env) =>
          RecordEnvironment(done, env, met0, errors0, warnings0);
        case Given(run) =>
          Record(done, run, met0, errors0, warnings0);
      }
    }

    /** The runs in `done` account for the whole change of state since the
        verdict, errors and warnings were `met0`, `errors0` and `warnings0`. */
    ghost predicate Accounts(done: seq<CheckRun>, met0: bool, errors0: seq<string>, warnings0: seq<string>)
      reads this
    {
      requirementsMet == (met0 && AllPassed(done))
      && errors == errors0 + RunErrors(done) && warnings == warnings0 + RunWarnings(done)
    }

    /** `check_python_version` as the next check after those in `done`. */
    method RecordPythonVersion(ghost done: seq<CheckRun>, major: nat, minor: nat, micro: nat, ghost met0: bool,
                               ghost errors0: seq<string>, ghost warnings0: seq<string>)
      modifies this
      requires Accounts(done, met0, errors0, warnings0)
      ensures Accounts(done + [PythonVersionRun(major, minor)], met0, errors0, warnings0)
    {
      ghost var run := PythonVersionRun(major, minor);
      ghost var before := errors;
      var passed := CheckPythonVersion(major, minor, micro);
      assert passed == run.outcome.value && errors == before + run.errors;
      requirementsMet := requirementsMet && passed;
      Ran(done, run);
      ConcatAssoc(errors0, RunErrors(done), run.errors);
    }

    /** `check_environment_variables` as the next check after those in
        `done`. */
    method RecordEnvironment(ghost done: seq<CheckRun>, env: Environment, ghost met0: bool,
                             ghost errors0: seq<string>, ghost warnings0: seq<string>)
      modifies this
      requires Accounts(done, met0, errors0, warnings0)
      ensures Accounts(done + [EnvironmentRun(env)], met0, errors0, warnings0)
    {
      ghost var run := EnvironmentRun(env);
      ghost var before := errors;
      var passed, shown := CheckEnvironmentVariables(env);
      assert passed == run.outcome.value && errors == before + run.errors;
      requirementsMet := requirementsMet && passed;
      Ran(done, run);
      ConcatAssoc(errors0, RunErrors(done), run.errors);
    }

    /** `RunCheck` as the next check after those in `done`. */
    method Record(ghost done: seq<CheckRun>, run: CheckRun, ghost met0: bool,
                  ghost errors0: seq<string>, ghost warnings0: seq<string>)
      modifies this
      requires Accounts(done, met0, errors0, warnings0)
      ensures Accounts(done + [run], met0, errors0, warnings0)
    {
      RunCheck(run);
      RunsSnoc(done, run);
      ConcatAssoc(errors0, RunErrors(done), RunErrors([run]));
      ConcatAssoc(warnings0, RunWarnings(done), run.warnings);
    }
  }

  /** A run that never raises or warns adds exactly its own errors. */
  lemma Ran(runs: seq<CheckRun>, run: CheckRun)
    requires run.outcome.Ok? && run.warnings == []
    ensures RunErrors(runs + [run]) == RunErrors(runs) + run.errors
    ensures RunWarnings(runs + [run]) == RunWarnings(runs)
    ensures AllPassed(runs + [run]) <==> AllPassed(runs) && run.outcome.value
  {
    RunsSnoc(runs, run);
    assert [run][..0] == [];
    assert RunWarnings(runs) + [] == RunWarnings(runs);
  }

  /** A single failing check, wherever it comes, makes the verdict false. */
  lemma OneFailureFails(runs: seq<CheckRun>, k: nat)
    requires k < |runs| && runs[k].outcome != Ok(true)
    ensures !AllPassed(runs)
  {
  }
}
