/** What the checks on plans and patches keep out, in characters: where a path may not lead, which files are
    protected, which markers count as secrets and which words a command may not contain. */
module PatchRules {
  import opened Base
  import opened PatchPolicy

  // ----- segments -----

  /** Positions i to j of the value lie between slashes or the ends, with no slash within. */
  predicate Between(value: string, i: int, j: int) {
    && 0 <= i <= j <= |value| && (i == 0 || value[i - 1] == '/') && (j == |value| || value[j] == '/')
    && forall k :: i <= k < j ==> value[k] != '/'
  }

  ghost predicate HasSegment(value: string, segment: string) {
    exists i, j :: Between(value, i, j) && value[i..j] == segment
  }

  lemma Shifted(value: string, i: int, j: int)
    requires value != "" && Between(value[1..], i, j) && (i == 0 ==> value[0] == '/')
    ensures Between(value, i + 1, j + 1) && value[i + 1..j + 1] == value[1..][i..j]
  {
    var rest := value[1..];
    assert forall k :: 0 <= k < |rest| ==> value[k + 1] == rest[k];
    forall k | i + 1 <= k < j + 1 ensures value[k] != '/' { assert value[k] == rest[k - 1]; }
  }

  lemma Unshifted(value: string, i: int, j: int)
    requires Between(value, i, j) && i >= 1
    ensures Between(value[1..], i - 1, j - 1) && value[1..][i - 1..j - 1] == value[i..j]
  {
    var rest := value[1..];
    forall k | i - 1 <= k < j - 1 ensures rest[k] != '/' { assert rest[k] == value[k + 1]; }
  }

  lemma {:induction false} SegmentsNotEmpty(value: string)
    ensures |Segments(value)| > 0
  {
  }

  /** Every part of the split lies between slashes; the first one at the start. */
  lemma {:induction false} PartIsASegment(value: string, n: nat) returns (i: int, j: int)
    requires n < |Segments(value)|
    ensures Between(value, i, j) && value[i..j] == Segments(value)[n] && (i == 0 <==> n == 0)
    decreases |value|
  {
    if value == "" || (value[0] == '/' && n == 0) {
      i, j := 0, 0;
    } else {
      SegmentsNotEmpty(value[1..]);
      i, j := PartIsASegment(value[1..], if value[0] == '/' then n - 1 else n);
      if value[0] != '/' && n == 0 {
        Prefixed(value, j);
        i, j := 0, j + 1;
      } else {
        Shifted(value, i, j);
        i, j := i + 1, j + 1;
      }
    }
  }

  lemma Prefixed(value: string, j: int)
    requires value != "" && value[0] != '/' && Between(value[1..], 0, j)
    ensures Between(value, 0, j + 1) && value[0..j + 1] == [value[0]] + value[1..][0..j]
  {
    var rest := value[1..];
    forall k | 0 <= k < j + 1 ensures value[k] != '/' { if k > 0 { assert value[k] == rest[k - 1]; } }
  }

  /** Everything that lies between slashes is a part of the split. */
  lemma {:induction false} SegmentIsAPart(value: string, i: int, j: int) returns (n: nat)
    requires Between(value, i, j)
    ensures n < |Segments(value)| && Segments(value)[n] == value[i..j] && (i == 0 <==> n == 0)
    decreases |value|
  {
    if value == "" || (i == 0 && value[0] == '/') {
      n := 0;
      assert value[i..j] == "";
    } else {
      SegmentsNotEmpty(value[1..]);
      if i == 0 {
        assert Between(value[1..], 0, j - 1) by {
          forall k | 0 <= k < j - 1 ensures value[1..][k] != '/' { assert value[1..][k] == value[k + 1]; }
        }
        n := SegmentIsAPart(value[1..], 0, j - 1);
        assert value[0..j] == [value[0]] + value[1..][0..j - 1];
      } else {
        Unshifted(value, i, j);
        n := SegmentIsAPart(value[1..], i - 1, j - 1);
        n := if value[0] == '/' then n + 1 else n;
      }
    }
  }

  lemma SegmentRule(value: string, segment: string)
    ensures segment in Segments(value) <==> HasSegment(value, segment)
  {
    if segment in Segments(value) {
      var n :| 0 <= n < |Segments(value)| && Segments(value)[n] == segment;
      var i, j := PartIsASegment(value, n);
    }
    if HasSegment(value, segment) {
      var i, j :| Between(value, i, j) && value[i..j] == segment;
      var n := SegmentIsAPart(value, i, j);
    }
  }

  // ----- paths -----

  predicate DotDotAt(v: string, i: int) {
    0 <= i <= |v| - 2 && v[i] == '.' && v[i + 1] == '.' && (i == 0 || v[i - 1] == '/') && (i + 2 == |v| || v[i + 2] == '/')
  }

  /** Two dots between slashes or the ends. */
  ghost predicate DotDot(v: string) { exists i :: DotDotAt(v, i) }

  predicate DoubleSlash(v: string) {
    exists i :: 0 <= i < |v| - 1 && v[i] == '/' && v[i + 1] == '/'
  }

  lemma DotDotRule(v: string)
    ensures HasSegment(v, "..") <==> DotDot(v)
  {
    if HasSegment(v, "..") {
      var i, j :| Between(v, i, j) && v[i..j] == "..";
      assert v[i] == v[i..j][0] && v[i + 1] == v[i..j][1];
      assert DotDotAt(v, i);
    }
    if DotDot(v) {
      var i :| DotDotAt(v, i);
      assert v[i..i + 2] == "..";
      assert Between(v, i, i + 2);
    }
  }

  lemma EmptySegmentRule(v: string)
    requires v != ""
    ensures HasSegment(v, "") <==> v[0] == '/' || v[|v| - 1] == '/' || DoubleSlash(v)
  {
    if HasSegment(v, "") {
      var i, j :| Between(v, i, j) && v[i..j] == "";
      assert 0 < i < |v| ==> v[i - 1] == '/' && v[i - 1 + 1] == '/';
    }
    if v[0] == '/' {
      assert Between(v, 0, 0) && v[0..0] == "";
    }
    if v[|v| - 1] == '/' {
      assert Between(v, |v|, |v|) && v[|v|..|v|] == "";
    }
    if DoubleSlash(v) {
      var i :| 0 <= i < |v| - 1 && v[i] == '/' && v[i + 1] == '/';
      assert Between(v, i + 1, i + 1) && v[i + 1..i + 1] == "";
    }
  }

  /** A relative path that stays inside the repository and outside its .git directory: with backslashes read
      as slashes and the ends trimmed, it is not empty, does not begin or end with a slash, has no empty part,
      no part `..`, no line break, and does not begin with `.git/`. */
  ghost predicate StaysInside(path: string) {
    var v := Trim(Slashes(path));
    && v != "" && v != "." && v[0] != '/' && v[|v| - 1] != '/' && !DoubleSlash(v) && !DotDot(v)
    && !(|v| >= 5 && v[0] == '.' && v[1] == 'g' && v[2] == 'i' && v[3] == 't' && v[4] == '/')
    && forall i :: 0 <= i < |v| ==> v[i] as int != 10 && v[i] as int != 13
  }

  lemma LineBreakRule(v: string)
    ensures ContainsAny(v, "\r\n") <==> exists i :: 0 <= i < |v| && (v[i] as int == 10 || v[i] as int == 13)
  {
    assert "\r\n"[0] == '\r' && "\r\n"[1] == '\n';
    assert forall c :: c in "\r\n" <==> c == '\r' || c == '\n';
  }

  lemma GitRule(v: string)
    ensures HasPrefix(v, ".git/") <==> |v| >= 5 && v[0] == '.' && v[1] == 'g' && v[2] == 'i' && v[3] == 't' && v[4] == '/'
  {
    var p := ".git/";
    assert p[0] == '.' && p[1] == 'g' && p[2] == 'i' && p[3] == 't' && p[4] == '/';
    if |v| >= 5 {
      assert v[..5][0] == v[0] && v[..5][1] == v[1] && v[..5][2] == v[2] && v[..5][3] == v[3] && v[..5][4] == v[4];
    }
  }

  lemma PathRule(path: string)
    ensures SafePath(path) <==> StaysInside(path)
  {
    var v := Trim(Slashes(path));
    if v != "" {
      assert ".." in Segments(v) <==> DotDot(v) by {
        SegmentRule(v, "..");
        DotDotRule(v);
      }
      assert "" in Segments(v) <==> v[0] == '/' || v[|v| - 1] == '/' || DoubleSlash(v) by {
        SegmentRule(v, "");
        EmptySegmentRule(v);
      }
      LineBreakRule(v);
      GitRule(v);
    }
  }

  /** Backslashes become slashes and nothing else changes. */
  lemma SlashesRule(path: string, i: nat)
    requires i < |path|
    ensures |Slashes(path)| == |path|
    ensures path[i] as int == 92 ==> Slashes(path)[i] == '/'
    ensures path[i] as int != 92 ==> Slashes(path)[i] == path[i]
  {
  }

  ghost predicate Begins(s: string, p: string) { exists rest :: s == p + rest }

  /** Code ownership, workflows and compose files, as the path is written. */
  ghost predicate IsProtected(path: string) {
    var v := Slashes(path);
    v == "CODEOWNERS" || v == ".github/CODEOWNERS" || Begins(v, ".github/workflows/") || v == "compose.yaml" || Begins(v, "compose.")
  }

  lemma PrefixRule(s: string, p: string)
    ensures HasPrefix(s, p) <==> Begins(s, p)
  {
    if HasPrefix(s, p) { assert s == p + s[|p|..]; }
  }

  lemma ProtectedRule(path: string)
    ensures Protected(path) <==> IsProtected(path)
  {
    PrefixRule(Slashes(path), ".github/workflows/");
    PrefixRule(Slashes(path), "compose.");
  }

  // ----- words in texts -----

  /** The character, with an upper-case letter read as its lower-case one, is d. */
  predicate ReadsAs(c: char, d: char) {
    if 65 <= c as int <= 90 then d as int == c as int + 32 else d == c
  }

  predicate WordAt(text: string, word: string, k: int) {
    0 <= k <= |text| - |word| && forall j :: 0 <= j < |word| ==> ReadsAs(text[k + j], word[j])
  }

  /** The word occurs somewhere in the text, in either case of letters. */
  ghost predicate Mentions(text: string, word: string) {
    exists k :: WordAt(text, word, k)
  }

  lemma WordRule(text: string, word: string)
    ensures Contains(Lower(text), word) <==> Mentions(text, word)
  {
    var lower := Lower(text);
    forall k | 0 <= k <= |text|
      ensures HasPrefix(lower[k..], word) <==> WordAt(text, word, k)
    {
      PrefixIsWord(text, word, k);
    }
    if Mentions(text, word) {
      var k :| WordAt(text, word, k);
      assert HasPrefix(lower[k..], word);
    }
    if Contains(lower, word) {
      var k :| 0 <= k <= |lower| && HasPrefix(lower[k..], word);
      assert WordAt(text, word, k);
    }
  }

  lemma PrefixIsWord(text: string, word: string, k: int)
    requires 0 <= k <= |text|
    ensures HasPrefix(Lower(text)[k..], word) <==> WordAt(text, word, k)
  {
    var lower := Lower(text);
    assert forall i :: 0 <= i < |text| ==> ReadsAs(text[i], lower[i]);
    if HasPrefix(lower[k..], word) {
      forall j | 0 <= j < |word| ensures ReadsAs(text[k + j], word[j]) {
        assert word[j] == lower[k..][..|word|][j] == lower[k + j];
      }
    }
    if WordAt(text, word, k) {
      forall j | 0 <= j < |word| ensures lower[k..][..|word|][j] == word[j] {
        assert lower[k..][..|word|][j] == lower[k + j];
      }
      assert lower[k..][..|word|] == word;
    }
  }

  ghost predicate ShowsSecret(text: string) {
    || Mentions(text, "ghp_") || Mentions(text, "github_pat_") || Mentions(text, "akia") || Mentions(text, "-----begin private key-----")
    || Mentions(text, "aws_secret_access_key") || Mentions(text, "xoxb-") || Mentions(text, "password=") || Mentions(text, "token=")
  }

  lemma SecretRule(text: string)
    ensures HasSecret(text) <==> ShowsSecret(text)
  {
    WordRule(text, "ghp_");
    WordRule(text, "github_pat_");
    WordRule(text, "akia");
    WordRule(text, "-----begin private key-----");
    WordRule(text, "aws_secret_access_key");
    WordRule(text, "xoxb-");
    WordRule(text, "password=");
    WordRule(text, "token=");
  }

  /** One line of at most a thousand characters that neither pushes, merges, deletes recursively nor pipes a
      download into a shell. */
  ghost predicate Harmless(command: string) {
    var c := Trim(command);
    && 1 <= |c| <= 1000 && (forall i :: 0 <= i < |c| ==> c[i] as int != 10 && c[i] as int != 13)
    && !Mentions(c, "git push") && !Mentions(c, "git merge") && !Mentions(c, "rm -rf") && !Mentions(c, "curl | sh") && !Mentions(c, "curl|sh")
  }

  lemma CommandRule(command: string)
    ensures SafeCommand(command) <==> Harmless(command)
  {
    var c := Trim(command);
    LineBreakRule(c);
    WordRule(c, "git push");
    WordRule(c, "git merge");
    WordRule(c, "rm -rf");
    WordRule(c, "curl | sh");
    WordRule(c, "curl|sh");
  }

  // ----- what is accepted -----

  ghost predicate NoZero(s: string) {
    forall i :: 0 <= i < |s| ==> s[i] as int != 0
  }

  ghost predicate Commit(sha: string) {
    |sha| == 40 && forall i :: 0 <= i < 40 ==> sha[i] in "0123456789abcdefABCDEF"
  }

  /** A file that may be published. */
  ghost predicate CleanFile(file: File) {
    && StaysInside(file.path) && !IsProtected(file.path) && !file.generated && !file.binary
    && NoZero(file.content) && |file.content| <= 262144 && !ShowsSecret(file.content)
  }

  /** The sizes of all files together. */
  function Bytes(files: seq<File>): nat {
    if files == [] then 0 else Bytes(files[..|files| - 1]) + |files[|files| - 1].content|
  }

  lemma {:induction false} BytesRule(files: seq<File>)
    ensures TotalBytes(files) == Bytes(files)
    decreases |files|
  {
    if |files| == 1 {
      assert files[1..] == [] && files[..0] == [];
    } else if |files| > 1 {
      var middle := files[1..][..|files| - 2];
      BytesRule(files[1..]);
      BytesRule(files[..|files| - 1]);
      BytesRule(middle);
      assert files[..|files| - 1][1..] == middle;
    }
  }

  ghost predicate PassedTest(t: TestResult) {
    !AllWhite(t.name) && Harmless(t.command) && t.passed
  }

  /** A patch on this base that may be published, in characters and numbers. */
  ghost predicate Publishable(patch: Patch, base: string) {
    && patch.schemaVersion == "v1" && !AllWhite(patch.summary) && patch.baseSha == base && Commit(base)
    && !AllWhite(patch.diff) && |patch.diff| <= 524288 && NoZero(patch.diff) && !ShowsSecret(patch.diff)
    && 1 <= |patch.files| <= 100 && (forall i :: 0 <= i < |patch.files| ==> CleanFile(patch.files[i])) && Bytes(patch.files) <= 524288
    && 1 <= |patch.tests| <= 100 && (forall i :: 0 <= i < |patch.tests| ==> PassedTest(patch.tests[i]))
  }

  lemma FileRule(file: File)
    ensures SafeFile(file) <==> CleanFile(file)
  {
    PathRule(file.path);
    ProtectedRule(file.path);
    SecretRule(file.content);
    ZeroRule(file.content);
  }

  lemma ZeroRule(s: string)
    ensures HasNul(s) <==> !NoZero(s)
  {
    if !NoZero(s) {
      var i :| 0 <= i < |s| && s[i] as int == 0;
      assert s[i] == '\0';
    }
  }

  lemma TestRule(t: TestResult)
    ensures PassingTest(t) <==> PassedTest(t)
  {
    CommandRule(t.command);
    assert Blank(t.name) <==> AllWhite(t.name);
  }

  lemma ShapeRule(patch: Patch, base: string)
    ensures Shaped(patch, base) <==>
      (&& patch.schemaVersion == "v1" && !AllWhite(patch.summary) && patch.baseSha == base && Commit(base)
       && !AllWhite(patch.diff) && |patch.diff| <= 524288 && 1 <= |patch.files| <= 100)
  {
    assert Blank(patch.summary) <==> AllWhite(patch.summary);
    assert Blank(patch.diff) <==> AllWhite(patch.diff);
    CommitRule(patch.baseSha);
  }

  lemma CommitRule(sha: string)
    ensures IsHex(sha, 40) <==> Commit(sha)
  {
    forall c: char
      ensures IsHexDigit(c) <==> c in "0123456789abcdefABCDEF"
    {
      HexDigits(c);
    }
  }

  /** The checks accept a patch exactly when it is publishable: no file leads out of the repository or into
      .git, none is protected, generated or binary, no text shows a secret, no command does harm, every test
      passed, and all sizes are within bounds. */
  lemma AcceptedInCharacters(patch: Patch, base: string)
    ensures ValidatePatch(patch, base).None? <==> Publishable(patch, base)
  {
    AcceptedExactly(patch, base);
    ShapeRule(patch, base);
    ZeroRule(patch.diff);
    SecretRule(patch.diff);
    BytesRule(patch.files);
    forall i | 0 <= i < |patch.files|
      ensures SafeFile(patch.files[i]) <==> CleanFile(patch.files[i])
    {
      FileRule(patch.files[i]);
    }
    forall i | 0 <= i < |patch.tests|
      ensures PassingTest(patch.tests[i]) <==> PassedTest(patch.tests[i])
    {
      TestRule(patch.tests[i]);
    }
  }

  // ----- plans -----

  ghost predicate CleanStep(step: PlanStep) {
    && !AllWhite(step.id) && !AllWhite(step.description) && |step.description| <= 10000
    && forall i :: 0 <= i < |step.paths| ==> StaysInside(step.paths[i])
  }

  /** The checks accept a plan exactly when it has one to fifty complete steps whose paths stay inside the
      repository and whose test commands do no harm. */
  lemma PlanAcceptedInCharacters(plan: Plan)
    ensures ValidPlan(plan) <==>
      (&& plan.schemaVersion == "v1" && !AllWhite(plan.summary) && |plan.summary| <= 20000 && 1 <= |plan.steps| <= 50
       && (forall i :: 0 <= i < |plan.steps| ==> CleanStep(plan.steps[i]))
       && (forall i :: 0 <= i < |plan.tests| ==> Harmless(plan.tests[i])))
  {
    assert Blank(plan.summary) <==> AllWhite(plan.summary);
    forall i | 0 <= i < |plan.steps|
      ensures SafePlanStep(plan.steps[i]) <==> CleanStep(plan.steps[i])
    {
      StepRule(plan.steps[i]);
    }
    forall i | 0 <= i < |plan.tests|
      ensures SafeCommand(plan.tests[i]) <==> Harmless(plan.tests[i])
    {
      CommandRule(plan.tests[i]);
    }
  }

  lemma StepRule(step: PlanStep)
    ensures SafePlanStep(step) <==> CleanStep(step)
  {
    assert Blank(step.id) <==> AllWhite(step.id);
    assert Blank(step.description) <==> AllWhite(step.description);
    forall i | 0 <= i < |step.paths|
      ensures SafePath(step.paths[i]) <==> StaysInside(step.paths[i])
    {
      PathRule(step.paths[i]);
    }
  }
}
