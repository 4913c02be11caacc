/** The safety boundary for generated plans and patches, checked before an
    approval is requested and again before anything is published. */
module PatchPolicy {
  import opened Base

  datatype PlanStep = PlanStep(id: string, description: string, paths: seq<string>)

  datatype Plan = Plan(schemaVersion: string, summary: string, steps: seq<PlanStep>, tests: seq<string>)

  datatype File = File(path: string, content: string, generated: bool, binary: bool)

  datatype TestResult = TestResult(name: string, command: string, passed: bool, output: string)

  datatype Patch = Patch(
    schemaVersion: string, summary: string, baseSha: string, diff: string, files: seq<File>, tests: seq<TestResult>)

  datatype Error =
    | InvalidPlan | InvalidPatch | UnsafePath | ProtectedPath | GeneratedFile | BinaryFile | PatchTooLarge
    | SecretDetected | TestsFailed

  const MAX_PLAN_STEPS := 50
  const MAX_PATCH_FILES := 100
  const MAX_PATCH_BYTES := 524288
  const MAX_FILE_BYTES := 262144
  const MAX_TEST_RESULTS := 100

  // ----- strings -----

  predicate Contains(s: string, part: string) {
    exists i :: 0 <= i <= |s| && HasPrefix(s[i..], part)
  }

  function Slashes(s: string): string {
    seq(|s|, i requires 0 <= i < |s| => if s[i] == '\\' then '/' else s[i])
  }

  /** strings.Split(s, "/"). */
  function Segments(s: string): seq<string> {
    if s == "" then [""]
    else
      var rest := Segments(s[1..]);
      if s[0] == '/' then [""] + rest
      else if rest == [] then [s]
      else [[s[0]] + rest[0]] + rest[1..]
  }

  // ----- predicates -----

  predicate SafePath(path: string) {
    var value := Trim(Slashes(path));
    && value != "" && value[0] != '/' && !ContainsAny(value, "\r\n") && value != "." && !HasPrefix(value, ".git/")
    && ".." !in Segments(value) && "" !in Segments(value)
  }

  predicate Protected(path: string) {
    var value := Slashes(path);
    value == "CODEOWNERS" || value == ".github/CODEOWNERS" || HasPrefix(value, ".github/workflows/")
    || value == "compose.yaml" || HasPrefix(value, "compose.")
  }

  predicate SafeCommand(command: string) {
    var value := Trim(command);
    && value != "" && |value| <= 1000 && !ContainsAny(value, "\r\n")
    && !Contains(Lower(value), "git push") && !Contains(Lower(value), "git merge") && !Contains(Lower(value), "rm -rf")
    && !Contains(Lower(value), "curl | sh") && !Contains(Lower(value), "curl|sh")
  }

  predicate HasSecret(text: string) {
    var lower := Lower(text);
    Contains(lower, "ghp_") || Contains(lower, "github_pat_") || Contains(lower, "akia")
    || Contains(lower, "-----begin private key-----") || Contains(lower, "aws_secret_access_key")
    || Contains(lower, "xoxb-") || Contains(lower, "password=") || Contains(lower, "token=")
  }

  predicate HasNul(text: string) { '\0' in text }

  // ----- validation, first failure first -----

  function FileError(file: File, diff: string): Option<Error> {
    if !SafePath(file.path) then Some(UnsafePath)
    else if Protected(file.path) then Some(ProtectedPath)
    else if file.generated then Some(GeneratedFile)
    else if file.binary || HasNul(file.content) then Some(BinaryFile)
    else if |file.content| > MAX_FILE_BYTES then Some(PatchTooLarge)
    else if HasSecret(file.content) || HasSecret(diff) then Some(SecretDetected)
    else None
  }

  function FilesError(files: seq<File>, diff: string): Option<Error> {
    if files == [] then None
    else if FileError(files[0], diff).Some? then FileError(files[0], diff)
    else FilesError(files[1..], diff)
  }

  function TotalBytes(files: seq<File>): nat {
    if files == [] then 0 else |files[0].content| + TotalBytes(files[1..])
  }

  function TestError(test: TestResult): Option<Error> {
    if Blank(test.name) || Blank(test.command) || !SafeCommand(test.command) then Some(InvalidPatch)
    else if !test.passed then Some(TestsFailed)
    else None
  }

  function TestsError(tests: seq<TestResult>): Option<Error> {
    if tests == [] then None
    else if TestError(tests[0]).Some? then TestError(tests[0])
    else TestsError(tests[1..])
  }

  predicate Shaped(patch: Patch, base: string) {
    && patch.schemaVersion == "v1" && !Blank(patch.summary) && IsHex(patch.baseSha, 40) && patch.baseSha == base
    && !Blank(patch.diff) && 0 < |patch.files| <= MAX_PATCH_FILES && |patch.diff| <= MAX_PATCH_BYTES
  }

  function ValidatePatch(patch: Patch, base: string): Option<Error> {
    if !Shaped(patch, base) then Some(InvalidPatch)
    else if HasNul(patch.diff) then Some(BinaryFile)
    else if FilesError(patch.files, patch.diff).Some? then FilesError(patch.files, patch.diff)
    else if TotalBytes(patch.files) > MAX_PATCH_BYTES then Some(PatchTooLarge)
    else if |patch.tests| == 0 || |patch.tests| > MAX_TEST_RESULTS then Some(InvalidPatch)
    else TestsError(patch.tests)
  }

  predicate SafePlanStep(step: PlanStep) {
    && !Blank(step.id) && !Blank(step.description) && |step.description| <= 10000
    && forall i :: 0 <= i < |step.paths| ==> SafePath(step.paths[i])
  }

  predicate ValidPlan(plan: Plan) {
    && plan.schemaVersion == "v1" && !Blank(plan.summary) && |plan.summary| <= 20000
    && 0 < |plan.steps| <= MAX_PLAN_STEPS
    && (forall i :: 0 <= i < |plan.steps| ==> SafePlanStep(plan.steps[i]))
    && (forall i :: 0 <= i < |plan.tests| ==> SafeCommand(plan.tests[i]))
  }

  // ----- what acceptance means -----

  lemma {:induction false} FilesErrorNone(files: seq<File>, diff: string)
    ensures FilesError(files, diff).None? <==> forall i :: 0 <= i < |files| ==> FileError(files[i], diff).None?
  {
    if files != [] {
      FilesErrorNone(files[1..], diff);
      assert forall i :: 1 <= i < |files| ==> files[i] == files[1..][i - 1];
    }
  }

  lemma {:induction false} TestsErrorNone(tests: seq<TestResult>)
    ensures TestsError(tests).None? <==> forall i :: 0 <= i < |tests| ==> TestError(tests[i]).None?
  {
    if tests != [] {
      TestsErrorNone(tests[1..]);
      assert forall i :: 1 <= i < |tests| ==> tests[i] == tests[1..][i - 1];
    }
  }

  predicate SafeFile(file: File) {
    && SafePath(file.path) && !Protected(file.path) && !file.generated && !file.binary && !HasNul(file.content)
    && |file.content| <= MAX_FILE_BYTES && !HasSecret(file.content)
  }

  predicate PassingTest(test: TestResult) {
    !Blank(test.name) && SafeCommand(test.command) && test.passed
  }

  /** What a published patch must satisfy, stated file by file and test by test. */
  ghost predicate Acceptable(patch: Patch, base: string) {
    && Shaped(patch, base) && !HasNul(patch.diff) && !HasSecret(patch.diff)
    && (forall i :: 0 <= i < |patch.files| ==> SafeFile(patch.files[i]))
    && TotalBytes(patch.files) <= MAX_PATCH_BYTES
    && 0 < |patch.tests| <= MAX_TEST_RESULTS
    && (forall i :: 0 <= i < |patch.tests| ==> PassingTest(patch.tests[i]))
  }

  lemma FilesAccepted(files: seq<File>, diff: string)
    requires files != []
    ensures FilesError(files, diff).None? <==> !HasSecret(diff) && forall i :: 0 <= i < |files| ==> SafeFile(files[i])
  {
    FilesErrorNone(files, diff);
    forall i | 0 <= i < |files|
      ensures FileError(files[i], diff).None? <==> SafeFile(files[i]) && !HasSecret(diff)
    {
    }
    assert FileError(files[0], diff).None? <==> SafeFile(files[0]) && !HasSecret(diff);
  }

  lemma TestsAccepted(tests: seq<TestResult>)
    ensures TestsError(tests).None? <==> forall i :: 0 <= i < |tests| ==> PassingTest(tests[i])
  {
    TestsErrorNone(tests);
    forall i | 0 <= i < |tests|
      ensures TestError(tests[i]).None? <==> PassingTest(tests[i])
    {
      BlankIsTrimmedEmpty(tests[i].command);
    }
  }

  /** The ordered checks accept exactly the acceptable patches. */
  lemma AcceptedExactly(patch: Patch, base: string)
    ensures ValidatePatch(patch, base).None? <==> Acceptable(patch, base)
  {
    if |patch.files| > 0 { FilesAccepted(patch.files, patch.diff); }
    TestsAccepted(patch.tests);
  }

  /** ValidatePatch, with the loops over files and tests. */
  method CheckPatch(patch: Patch, base: string) returns (error: Option<Error>)
    ensures error == ValidatePatch(patch, base)
  {
    if !Shaped(patch, base) { return Some(InvalidPatch); }
    if HasNul(patch.diff) { return Some(BinaryFile); }
    var found, total := CheckFiles(patch.files, patch.diff);
    if found.Some? { return found; }
    if total > MAX_PATCH_BYTES { return Some(PatchTooLarge); }
    if |patch.tests| == 0 || |patch.tests| > MAX_TEST_RESULTS { return Some(InvalidPatch); }
    error := CheckTests(patch.tests);
  }

  method CheckFiles(files: seq<File>, diff: string) returns (error: Option<Error>, total: nat)
    ensures error == FilesError(files, diff)
    ensures error.None? ==> total == TotalBytes(files)
  {
    error, total := None, 0;
    var i := 0;
    while i < |files|
      invariant 0 <= i <= |files|
      invariant error.None? && total + TotalBytes(files[i..]) == TotalBytes(files)
      invariant FilesError(files, diff) == FilesError(files[i..], diff)
    {
      assert files[i..][1..] == files[i + 1..];
      var file := files[i];
      if !SafePath(file.path) { return Some(UnsafePath), total; }
      if Protected(file.path) { return Some(ProtectedPath), total; }
      if file.generated { return Some(GeneratedFile), total; }
      if file.binary || '\0' in file.content { return Some(BinaryFile), total; }
      if |file.content| > MAX_FILE_BYTES { return Some(PatchTooLarge), total; }
      total := total + |file.content|;
      if HasSecret(file.content) || HasSecret(diff) { return Some(SecretDetected), total; }
      i := i + 1;
    }
  }

  method CheckTests(tests: seq<TestResult>) returns (error: Option<Error>)
    ensures error == TestsError(tests)
  {
    var i := 0;
    while i < |tests|
      invariant 0 <= i <= |tests|
      invariant TestsError(tests) == TestsError(tests[i..])
    {
      assert tests[i..][1..] == tests[i + 1..];
      var test := tests[i];
      BlankIsTrimmedEmpty(test.name);
      BlankIsTrimmedEmpty(test.command);
      if Trim(test.name) == "" || Trim(test.command) == "" { return Some(InvalidPatch); }
      if !SafeCommand(test.command) { return Some(InvalidPatch); }
      if !test.passed { return Some(TestsFailed); }
      i := i + 1;
    }
    error := None;
  }
}
