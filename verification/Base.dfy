/** Shared vocabulary: optional values, results, identifiers, clocks and the
    byte-string helpers the stores use. A Go string is modelled as a sequence of
    characters, one per byte. */
module Base {
  datatype Option<+T> = None | Some(value: T)

  datatype Result<+T, +E> = Ok(value: T) | Err(error: E)

  type Id = string

  /** A point in time or a duration, in nanoseconds. */
  type Time = int

  predicate IsSpace(c: char) {
    c == ' ' || c == '\t' || c == '\n' || c == '\r' || c == '\U{0B}' || c == '\U{0C}'
  }

  function TrimLeft(s: string): (r: string)
    ensures |r| <= |s|
    ensures r == "" || !IsSpace(r[0])
    ensures s != "" && !IsSpace(s[0]) ==> r == s
    ensures r != "" ==> s != "" && r[|r| - 1] == s[|s| - 1]
  {
    if s != "" && IsSpace(s[0]) then TrimLeft(s[1..]) else s
  }

  function TrimRight(s: string): (r: string)
    ensures |r| <= |s|
    ensures r == "" || !IsSpace(r[|r| - 1])
    ensures s != "" && !IsSpace(s[|s| - 1]) ==> r == s
    ensures r != "" ==> s != "" && r[0] == s[0]
  {
    if s != "" && IsSpace(s[|s| - 1]) then TrimRight(s[..|s| - 1]) else s
  }

  /** strings.TrimSpace, on ASCII white space. */
  function Trim(s: string): (r: string)
    ensures |r| <= |s|
  {
    TrimRight(TrimLeft(s))
  }

  /** Trimming twice is trimming once: stored values are fixed points. */
  lemma TrimTwice(s: string)
    ensures Trim(Trim(s)) == Trim(s)
  {
    var r := Trim(s);
    if r != "" {
      assert !IsSpace(r[0]) && !IsSpace(r[|r| - 1]);
      assert TrimLeft(r) == r;
    }
  }

  /** TrimSpace(s) == "", stated without trimming. */
  predicate Blank(s: string) {
    forall i :: 0 <= i < |s| ==> IsSpace(s[i])
  }

  lemma BlankIsTrimmedEmpty(s: string)
    ensures Blank(s) <==> Trim(s) == ""
  {
    TrimLeftOfBlank(s);
    var t := TrimLeft(s);
    if t != "" { TrimRightKeepsHead(t); }
  }

  lemma {:induction false} TrimLeftOfBlank(s: string)
    ensures Blank(s) <==> TrimLeft(s) == ""
  {
    if s != "" && IsSpace(s[0]) {
      TrimLeftOfBlank(s[1..]);
      assert Blank(s[1..]) ==> forall i :: 0 < i < |s| ==> s[i] == s[1..][i - 1];
      assert Blank(s) ==> Blank(s[1..]);
    }
  }

  lemma {:induction false} TrimRightKeepsHead(s: string)
    requires s != "" && !IsSpace(s[0])
    ensures TrimRight(s) != ""
  {
    if IsSpace(s[|s| - 1]) { TrimRightKeepsHead(s[..|s| - 1]); }
  }

  predicate HasPrefix(s: string, p: string) {
    |p| <= |s| && s[..|p|] == p
  }

  /** strings.ToLower, on ASCII letters. */
  function Lower(s: string): (r: string)
    ensures |r| == |s|
  {
    seq(|s|, i requires 0 <= i < |s| => if 'A' <= s[i] <= 'Z' then s[i] - 'A' + 'a' else s[i])
  }

  predicate ContainsAny(s: string, chars: string) {
    exists i :: 0 <= i < |s| && s[i] in chars
  }

  predicate IsHexDigit(c: char) {
    '0' <= c <= '9' || 'a' <= c <= 'f' || 'A' <= c <= 'F'
  }

  /** The pattern ^[0-9a-fA-F]{n}$. */
  predicate IsHex(s: string, n: nat) {
    |s| == n && forall i :: 0 <= i < |s| ==> IsHexDigit(s[i])
  }

  lemma HexDigits(c: char)
    ensures IsHexDigit(c) <==> c in "0123456789abcdefABCDEF"
  {
    var d := "0123456789abcdefABCDEF";
    assert d[0] == '0' && d[1] == '1' && d[2] == '2' && d[3] == '3' && d[4] == '4' && d[5] == '5' && d[6] == '6' && d[7] == '7';
    assert d[8] == '8' && d[9] == '9' && d[10] == 'a' && d[11] == 'b' && d[12] == 'c' && d[13] == 'd' && d[14] == 'e' && d[15] == 'f';
    assert d[16] == 'A' && d[17] == 'B' && d[18] == 'C' && d[19] == 'D' && d[20] == 'E' && d[21] == 'F';
  }

  /** Space, tab, line feed, vertical tab, form feed or carriage return, by code. */
  predicate White(c: char) { c as int == 32 || 9 <= c as int <= 13 }

  ghost predicate AllWhite(s: string) {
    forall i :: 0 <= i < |s| ==> White(s[i])
  }

  lemma WhiteIsSpace(c: char)
    ensures IsSpace(c) <==> White(c)
  {
  }

  /** TrimSpace cuts white space off both ends and nothing else. */
  lemma TrimCutsTheEnds(s: string) returns (i: nat, j: nat)
    ensures i <= j <= |s| && Trim(s) == s[i..j]
    ensures forall k :: 0 <= k < i ==> White(s[k])
    ensures forall k :: j <= k < |s| ==> White(s[k])
    ensures i < j ==> !White(s[i]) && !White(s[j - 1])
  {
    i := TrimLeftCuts(s);
    var t := s[i..];
    var n := TrimRightCuts(t);
    j := i + n;
    assert t[..n] == s[i..j];
    forall k | j <= k < |s| ensures White(s[k]) { assert s[k] == t[k - i]; }
    if i < j { assert t[..n][0] == s[i] && t[..n][n - 1] == s[j - 1]; }
  }

  lemma {:induction false} TrimLeftCuts(s: string) returns (i: nat)
    ensures i <= |s| && TrimLeft(s) == s[i..] && forall k :: 0 <= k < i ==> IsSpace(s[k])
  {
    i := 0;
    if s != "" && IsSpace(s[0]) {
      i := TrimLeftCuts(s[1..]);
      assert forall k :: 0 < k < i + 1 ==> s[k] == s[1..][k - 1];
      i := i + 1;
    }
  }

  lemma {:induction false} TrimRightCuts(s: string) returns (n: nat)
    ensures n <= |s| && TrimRight(s) == s[..n] && forall k :: n <= k < |s| ==> IsSpace(s[k])
  {
    n := |s|;
    if s != "" && IsSpace(s[|s| - 1]) {
      n := TrimRightCuts(s[..|s| - 1]);
      assert forall k :: n <= k < |s| - 1 ==> s[k] == s[..|s| - 1][k];
    }
  }

  /** The sum of the values of a finite map. */
  ghost function Total<K>(m: map<K, int>): int
    decreases |m|
  {
    if m == map[] then 0
    else
      var k :| k in m;
      assert (m - {k}).Keys == m.Keys - {k};
      m[k] + Total(m - {k})
  }

  /** The sum does not depend on the order in which the entries are taken. */
  lemma {:induction false} TotalSplit<K>(m: map<K, int>, k: K)
    requires k in m
    ensures Total(m) == m[k] + Total(m - {k})
    decreases |m|
  {
    var first :| first in m && Total(m) == m[first] + Total(m - {first});
    if first != k {
      var rest := m - {first};
      assert rest.Keys == m.Keys - {first};
      TotalSplit(rest, k);
      assert (m - {k}).Keys == m.Keys - {k};
      TotalSplit(m - {k}, first);
      assert rest - {k} == (m - {k}) - {first};
    }
  }

  lemma TotalUpdate<K>(m: map<K, int>, k: K, v: int)
    ensures Total(m[k := v]) == Total(m) + v - (if k in m then m[k] else 0)
  {
    TotalSplit(m[k := v], k);
    if k in m {
      TotalSplit(m, k);
      assert m[k := v] - {k} == m - {k};
    } else {
      assert m[k := v] - {k} == m;
    }
  }

  lemma {:induction false} TotalAtLeast<K>(m: map<K, int>, k: K)
    requires k in m && forall x :: x in m ==> m[x] >= 0
    ensures Total(m) >= m[k] >= 0
    decreases |m|
  {
    TotalSplit(m, k);
    var rest := m - {k};
    assert rest.Keys == m.Keys - {k};
    if rest != map[] {
      var x :| x in rest;
      TotalAtLeast(rest, x);
    }
  }

  ghost predicate KeptWhenSafe(holds: seq<bool>, safe: seq<bool>) {
    |holds| == |safe| + 1 && holds[0] && forall i :: 0 <= i < |safe| && holds[i] ==> (holds[i + 1] <==> safe[i])
  }

  lemma {:induction false} HoldsWhileSafe(holds: seq<bool>, safe: seq<bool>, n: nat)
    requires KeptWhenSafe(holds, safe) && n <= |safe| && forall i :: 0 <= i < n ==> safe[i]
    ensures holds[n]
  {
    if n > 0 { HoldsWhileSafe(holds, safe, n - 1); }
  }

  /** A property that each step keeps exactly when the step is safe holds throughout exactly when all are. */
  lemma KeptExactly(holds: seq<bool>, safe: seq<bool>)
    requires KeptWhenSafe(holds, safe)
    ensures (forall i :: 0 <= i < |holds| ==> holds[i]) <==> (forall i :: 0 <= i < |safe| ==> safe[i])
  {
    if forall i :: 0 <= i < |safe| ==> safe[i] {
      forall i | 0 <= i < |holds| ensures holds[i] { HoldsWhileSafe(holds, safe, i); }
    }
    if forall i :: 0 <= i < |holds| ==> holds[i] {
      forall i | 0 <= i < |safe| ensures safe[i] { assert holds[i] && holds[i + 1]; }
    }
  }
}
