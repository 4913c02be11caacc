/** Splitting a build log into numbered chunks (diagnosis/types.go).
  *
  * Strings are byte strings. Redaction and the UTF-8 test are parameters; line
  * numbers refer to the redacted text with every CR LF turned into LF. */
module Chunker {
  import opened Base

  const MAX_LOG_BYTES: nat := 8 * 1024 * 1024
  const DEFAULT_CHUNK_SIZE: nat := 32 * 1024

  datatype Chunk = Chunk(start: nat, end: nat, text: string)

  datatype Error = LogsTooLarge | BinaryLogs

  // ---- Lines ------------------------------------------------------------

  function Normalise(s: string): string {
    if s == "" then ""
    else if |s| >= 2 && s[0] == '\r' && s[1] == '\n' then "\n" + Normalise(s[2..])
    else [s[0]] + Normalise(s[1..])
  }

  function Newlines(s: string): nat {
    if s == "" then 0 else Newlines(s[1..]) + if s[0] == '\n' then 1 else 0
  }

  function Lines(s: string): (lines: seq<string>)
    ensures |lines| == Newlines(s) + 1
    ensures Terminated(lines) == s + "\n"
    ensures forall i :: 0 <= i < |lines| ==> Newlines(lines[i]) == 0
  {
    if s == "" then [""]
    else
      var rest := Lines(s[1..]);
      assert rest == [rest[0]] + rest[1..];
      if s[0] == '\n' then
        assert ([""] + rest)[1..] == rest;
        [""] + rest
      else
        var line := [s[0]] + rest[0];
        assert ([line] + rest[1..])[1..] == rest[1..];
        assert line[1..] == rest[0];
        assert Terminated([line] + rest[1..]) == [s[0]] + Terminated(rest);
        assert s == [s[0]] + s[1..];
        [line] + rest[1..]
  }

  /** Every line followed by a newline. */
  function Terminated(lines: seq<string>): string {
    if lines == [] then "" else lines[0] + "\n" + Terminated(lines[1..])
  }

  function Feeds(n: nat): string {
    seq(n, _ => '\n')
  }

  lemma {:induction false} TerminatedOneMore(lines: seq<string>, i: nat)
    requires i < |lines|
    ensures Terminated(lines[..i + 1]) == Terminated(lines[..i]) + lines[i] + "\n"
  {
    if i == 0 {
      assert lines[..1] == [lines[0]];
    } else {
      TerminatedOneMore(lines[1..], i - 1);
      assert lines[..i + 1][1..] == lines[1..][..i];
      assert lines[..i][1..] == lines[1..][..i - 1];
    }
  }

  lemma {:induction false} NewlinesConcat(a: string, b: string)
    ensures Newlines(a + b) == Newlines(a) + Newlines(b)
  {
    if a == "" {
      assert a + b == b;
    } else {
      assert (a + b)[1..] == a[1..] + b;
      NewlinesConcat(a[1..], b);
    }
  }

  lemma {:induction false} NewlinesOfFeeds(n: nat)
    ensures Newlines(Feeds(n)) == n
  {
    if n > 0 {
      assert Feeds(n)[1..] == Feeds(n - 1);
      NewlinesOfFeeds(n - 1);
    }
  }

  // ---- Putting a log back together ----------------------------------------

  /** The line on which the last chunk ends; line 1 before any chunk. */
  function LastLine(cs: seq<Chunk>): nat {
    if cs == [] then 1 else cs[|cs| - 1].end
  }

  predicate Forward(cs: seq<Chunk>) {
    && (forall i :: 0 <= i < |cs| ==> 1 <= cs[i].start <= cs[i].end)
    && (forall i :: 0 < i < |cs| ==> cs[i - 1].end <= cs[i].start)
  }

  /** The text up to the end of the last chunk: before each chunk, as many newlines
    * as its start line lies after the line on which its predecessor ends. */
  function Joined(cs: seq<Chunk>): string
    requires Forward(cs)
  {
    if cs == [] then ""
    else
      var front, last := cs[..|cs| - 1], cs[|cs| - 1];
      Joined(front) + Feeds(last.start - LastLine(front)) + last.text
  }

  function Rebuild(cs: seq<Chunk>, total: nat): string
    requires Forward(cs) && LastLine(cs) <= total
  {
    Joined(cs) + Feeds(total - LastLine(cs))
  }

  lemma JoinedOneMore(cs: seq<Chunk>, c: Chunk)
    requires Forward(cs) && LastLine(cs) <= c.start <= c.end && 1 <= c.start
    ensures Forward(cs + [c])
    ensures Joined(cs + [c]) == Joined(cs) + Feeds(c.start - LastLine(cs)) + c.text
    ensures LastLine(cs + [c]) == c.end
  {
    assert (cs + [c])[..|cs|] == cs;
  }

  /** A chunk of bounded size that spans exactly the lines it claims. */
  predicate Sound(c: Chunk, size: nat) {
    0 < |c.text| <= size && c.start <= c.end && Newlines(c.text) == c.end - c.start
  }

  /** Why a chunk ends where it does: inside a line only as a full-sized piece of
    * that one line, and at the end of a line only if the next line does not fit. */
  predicate Full(c: Chunk, next: nat, lines: seq<string>, size: nat)
    requires c.end <= next <= |lines|
  {
    if next == c.end then c.start == c.end && |c.text| == size
    else |c.text| + 1 + |lines[c.end]| > size
  }

  predicate WellSplit(cs: seq<Chunk>, lines: seq<string>, size: nat) {
    && Forward(cs)
    && LastLine(cs) <= |lines|
    && (forall i :: 0 <= i < |cs| ==> Sound(cs[i], size))
    && (forall i :: 0 < i < |cs| ==> cs[i].start <= |lines| && Full(cs[i - 1], cs[i].start, lines, size))
  }

  lemma WellSplitOneMore(cs: seq<Chunk>, c: Chunk, lines: seq<string>, size: nat)
    requires WellSplit(cs, lines, size) && Sound(c, size)
    requires LastLine(cs) <= c.start && 1 <= c.start && c.end <= |lines|
    requires cs == [] || Full(cs[|cs| - 1], c.start, lines, size)
    ensures WellSplit(cs + [c], lines, size)
  {
    var ds := cs + [c];
    forall i | 0 < i < |ds| ensures ds[i].start <= |lines| && Full(ds[i - 1], ds[i].start, lines, size) {
      assert i < |cs| ==> ds[i] == cs[i];
    }
  }

  // ---- The splitter ---------------------------------------------------------

  /** The finished chunks `cs`, newlines up to line `at` and then `rest` make `text`,
    * and the last finished chunk has a reason to end where it does. */
  ghost predicate Tiled(cs: seq<Chunk>, at: nat, rest: string, lines: seq<string>, size: nat, text: string) {
    && WellSplit(cs, lines, size)
    && 1 <= at && LastLine(cs) <= at <= |lines|
    && (cs != [] ==> Full(cs[|cs| - 1], at, lines, size))
    && Joined(cs) + Feeds(at - LastLine(cs)) + rest == text
  }

  /** A non-empty unfinished chunk covers lines `start` to `end`. */
  predicate Open(current: string, start: nat, end: nat, size: nat) {
    start <= end && 0 < |current| <= size && Newlines(current) == end - start
  }

  lemma Reassociate(a: string, b: string, c: string)
    ensures a + b + c == a + (b + c)
  {
  }

  lemma FlushKeepsTiling(cs: seq<Chunk>, current: string, start: nat, end: nat, rest: string, lines: seq<string>, size: nat, text: string)
    requires Tiled(cs, start, current + rest, lines, size, text) && Open(current, start, end, size) && end <= |lines|
    ensures var ds := cs + [Chunk(start, end, current)];
      && WellSplit(ds, lines, size) && LastLine(ds) == end && Joined(ds) + rest == text
  {
    var c := Chunk(start, end, current);
    WellSplitOneMore(cs, c, lines, size);
    JoinedOneMore(cs, c);
    Reassociate(Joined(cs) + Feeds(start - LastLine(cs)), current, rest);
  }

  lemma CutKeepsTiling(cs: seq<Chunk>, rest: string, number: nat, lines: seq<string>, size: nat, text: string)
    requires Tiled(cs, number, rest, lines, size, text) && 0 < size < |rest| && Newlines(rest) == 0
    ensures Tiled(cs + [Chunk(number, number, rest[..size])], number, rest[size..], lines, size, text)
    ensures Newlines(rest[size..]) == 0
  {
    assert rest == rest[..size] + rest[size..];
    NewlinesConcat(rest[..size], rest[size..]);
    FlushKeepsTiling(cs, rest[..size], number, number, rest[size..], lines, size, text);
    var ds := cs + [Chunk(number, number, rest[..size])];
    assert Feeds(0) == "";
    assert Joined(ds) + Feeds(0) == Joined(ds);
  }

  /** The state before line `number` (the one after the last, at the end): `text` is all
    * earlier lines, each with its newline. */
  ghost predicate Ready(cs: seq<Chunk>, current: string, start: nat, number: nat, lines: seq<string>, size: nat, text: string) {
    if current == "" then
      && WellSplit(cs, lines, size)
      && 1 <= number && LastLine(cs) <= number
      && (cs != [] ==> LastLine(cs) < number && LastLine(cs) < |lines| && |cs[|cs| - 1].text| + 1 + |lines[LastLine(cs)]| > size)
      && Joined(cs) + Feeds(number - LastLine(cs)) == text
    else
      && 1 <= number && Open(current, start, number - 1, size)
      && Tiled(cs, start, current + "\n", lines, size, text)
  }

  /** Cuts full pieces off a line until the rest fits. */
  method CutPieces(cs: seq<Chunk>, line: string, number: nat, ghost lines: seq<string>, size: nat, ghost text: string)
    returns (chunks: seq<Chunk>, rest: string)
    requires size > 0 && Newlines(line) == 0
    requires Tiled(cs, number, line, lines, size, text) && (cs != [] ==> LastLine(cs) < number)
    ensures |rest| <= size && Newlines(rest) == 0
    ensures Tiled(chunks, number, rest, lines, size, text)
    ensures rest == "" && chunks != [] ==> LastLine(chunks) < number
  {
    chunks, rest := cs, line;
    while |rest| > size
      invariant Newlines(rest) == 0
      invariant Tiled(chunks, number, rest, lines, size, text)
      invariant rest == "" && chunks != [] ==> LastLine(chunks) < number
      decreases |rest|
    {
      CutKeepsTiling(chunks, rest, number, lines, size, text);
      chunks := chunks + [Chunk(number, number, rest[..size])];
      rest := rest[size..];
    }
  }

  lemma ReadyToCut(cs: seq<Chunk>, number: nat, lines: seq<string>, size: nat, text: string)
    requires Ready(cs, "", 0, number, lines, size, text) && 1 <= number <= |lines|
    ensures Tiled(cs, number, lines[number - 1], lines, size, text + lines[number - 1])
  {
  }

  lemma FlushBeforeCut(cs: seq<Chunk>, current: string, start: nat, number: nat, lines: seq<string>, size: nat, text: string)
    requires current != "" && Ready(cs, current, start, number, lines, size, text) && number <= |lines|
    requires |current| + 1 + |lines[number - 1]| > size
    ensures var ds := cs + [Chunk(start, number - 1, current)];
      Tiled(ds, number, lines[number - 1], lines, size, text + lines[number - 1]) && LastLine(ds) < number
  {
    FlushKeepsTiling(cs, current, start, number - 1, "\n", lines, size, text);
    assert Feeds(1) == "\n";
  }

  lemma ReadyAfterCut(cs: seq<Chunk>, rest: string, number: nat, lines: seq<string>, size: nat, text: string)
    requires Tiled(cs, number, rest, lines, size, text) && |rest| <= size && Newlines(rest) == 0
    requires rest == "" && cs != [] ==> LastLine(cs) < number
    ensures Ready(cs, rest, number, number + 1, lines, size, text + "\n")
  {
    var lead := Joined(cs) + Feeds(number - LastLine(cs));
    assert lead + rest + "\n" == lead + (rest + "\n");
    if rest == "" {
      assert lead + rest == lead;
      assert Feeds(number + 1 - LastLine(cs)) == Feeds(number - LastLine(cs)) + "\n";
      assert lead + "\n" == Joined(cs) + Feeds(number + 1 - LastLine(cs));
    }
  }

  lemma ReadyAfterJoin(cs: seq<Chunk>, current: string, start: nat, number: nat, lines: seq<string>, size: nat, text: string)
    requires current != "" && Ready(cs, current, start, number, lines, size, text) && number <= |lines|
    requires Newlines(lines[number - 1]) == 0 && |current| + 1 + |lines[number - 1]| <= size
    ensures Ready(cs, current + ("\n" + lines[number - 1]), start, number + 1, lines, size, text + lines[number - 1] + "\n")
  {
    var line := lines[number - 1];
    assert ("\n" + line)[1..] == line;
    NewlinesConcat(current, "\n" + line);
    var lead := Joined(cs) + Feeds(start - LastLine(cs));
    assert lead + (current + "\n") + line + "\n" == lead + (current + ("\n" + line) + "\n");
  }

  /** One turn of the loop over the lines. */
  method AddLine(cs: seq<Chunk>, unfinished: string, from: nat, number: nat, lines: seq<string>, size: nat, ghost text: string)
    returns (chunks: seq<Chunk>, current: string, start: nat)
    requires size > 0 && 1 <= number <= |lines| && Newlines(lines[number - 1]) == 0
    requires Ready(cs, unfinished, from, number, lines, size, text)
    ensures Ready(chunks, current, start, number + 1, lines, size, text + lines[number - 1] + "\n")
  {
    chunks, current, start := cs, unfinished, from;
    var line := lines[number - 1];
    if current != "" && |current| + |"\n" + line| <= size {
      ReadyAfterJoin(cs, current, start, number, lines, size, text);
      current := current + ("\n" + line);
      return;
    }
    if current != "" {
      FlushBeforeCut(cs, current, start, number, lines, size, text);
      chunks := chunks + [Chunk(start, number - 1, current)];
    } else {
      ReadyToCut(cs, number, lines, size, text);
    }
    chunks, current := CutPieces(chunks, line, number, lines, size, text + line);
    start := number;
    ReadyAfterCut(chunks, current, number, lines, size, text + line);
  }

  function Flushed(cs: seq<Chunk>, current: string, start: nat, end: nat): seq<Chunk> {
    if current == "" then cs else cs + [Chunk(start, end, current)]
  }

  lemma WholeText(cs: seq<Chunk>, current: string, start: nat, lines: seq<string>, size: nat, text: string)
    requires lines != [] && Ready(cs, current, start, |lines| + 1, lines, size, text)
    ensures var ds := Flushed(cs, current, start, |lines|); WellSplit(ds, lines, size) && Rebuild(ds, |lines|) + "\n" == text
  {
    if current == "" {
      assert Feeds(|lines| + 1 - LastLine(cs)) == Feeds(|lines| - LastLine(cs)) + "\n";
    } else {
      FlushKeepsTiling(cs, current, start, |lines|, "\n", lines, size, text);
      var ds := cs + [Chunk(start, |lines|, current)];
      assert Joined(ds) + Feeds(0) == Joined(ds);
    }
  }

  method ChunkLines(lines: seq<string>, size: nat) returns (chunks: seq<Chunk>)
    requires lines != [] && size > 0
    requires forall i :: 0 <= i < |lines| ==> Newlines(lines[i]) == 0
    ensures WellSplit(chunks, lines, size)
    ensures Rebuild(chunks, |lines|) + "\n" == Terminated(lines)
  {
    chunks := [];
    var current, start, number := "", 1, 1;
    ghost var text := "";
    while number <= |lines|
      invariant 1 <= number <= |lines| + 1
      invariant text == Terminated(lines[..number - 1])
      invariant Ready(chunks, current, start, number, lines, size, text)
    {
      TerminatedOneMore(lines, number - 1);
      chunks, current, start := AddLine(chunks, current, start, number, lines, size, text);
      text := text + lines[number - 1] + "\n";
      number := number + 1;
    }
    assert lines[..|lines|] == lines;
    WholeText(chunks, current, start, lines, size, text);
    chunks := Flushed(chunks, current, start, number - 1);
  }

  /** `RedactAndChunkLogs`: the log is rebuilt exactly from the chunks and the number
    * of its lines. */
  method RedactAndChunkLogs(logs: string, validUtf8: string -> bool, redact: string -> string, chunkSize: int)
    returns (result: Result<seq<Chunk>, Error>)
    ensures result == Err(LogsTooLarge) <==> |logs| > 8388608
    ensures result == Err(BinaryLogs) <==> |logs| <= 8388608 && (!validUtf8(logs) || '\0' in logs)
    ensures result.Ok? ==>
      var text := Normalise(redact(logs));
      && WellSplit(result.value, Lines(text), if 1 <= chunkSize <= 8388608 then chunkSize else 32768)
      && Rebuild(result.value, |Lines(text)|) == text
  {
    if |logs| > MAX_LOG_BYTES {
      return Err(LogsTooLarge);
    }
    if !validUtf8(logs) || '\0' in logs {
      return Err(BinaryLogs);
    }
    var text := Normalise(redact(logs));
    var chunks := ChunkLines(Lines(text), ChunkSize(chunkSize));
    SameTerminated(Rebuild(chunks, |Lines(text)|), text);
    return Ok(chunks);
  }

  function ChunkSize(chunkSize: int): (size: nat)
    ensures 0 < size <= MAX_LOG_BYTES
  {
    if chunkSize <= 0 || chunkSize > MAX_LOG_BYTES then DEFAULT_CHUNK_SIZE else chunkSize
  }

  lemma SameTerminated(a: string, b: string)
    requires a + "\n" == b + "\n"
    ensures a == b
  {
    assert a == (a + "\n")[..|a|];
    assert b == (b + "\n")[..|b|];
  }

  // ---- What normalising does -------------------------------------------------------

  predicate BreakAt(s: string, i: int) {
    0 <= i < |s| - 1 && s[i] as int == 13 && s[i + 1] as int == 10
  }

  /** A text without CR LF is left alone. */
  lemma {:induction false} NormaliseKeeps(s: string)
    requires forall i :: !BreakAt(s, i)
    ensures Normalise(s) == s
  {
    if s != "" {
      assert !BreakAt(s, 0);
      forall i ensures !BreakAt(s[1..], i) { assert !BreakAt(s, i + 1); }
      NormaliseKeeps(s[1..]);
    }
  }

  /** Each CR LF becomes one LF, and what stands before and after it is normalised by itself. */
  lemma {:induction false} NormaliseReplaces(a: string, b: string)
    ensures Normalise(a + "\r\n" + b) == Normalise(a) + "\n" + Normalise(b)
  {
    var s := a + "\r\n" + b;
    if a == "" {
      assert s[0] == '\r' && s[1] == '\n' && s[2..] == b;
    } else if BreakAt(a, 0) {
      assert s[0] == a[0] && s[1] == a[1];
      assert s[2..] == a[2..] + "\r\n" + b;
      NormaliseReplaces(a[2..], b);
    } else {
      assert s[0] == a[0] && s[1..] == a[1..] + "\r\n" + b;
      assert s[1] == if |a| > 1 then a[1] else '\r';
      NormaliseReplaces(a[1..], b);
    }
  }

  // ---- What line numbers mean --------------------------------------------------

  lemma {:induction false} JoinedNewlines(cs: seq<Chunk>, size: nat)
    requires Forward(cs) && forall i :: 0 <= i < |cs| ==> Sound(cs[i], size)
    ensures LastLine(cs) >= 1 && Newlines(Joined(cs)) == LastLine(cs) - 1
  {
    if cs != [] {
      var front, last := cs[..|cs| - 1], cs[|cs| - 1];
      JoinedNewlines(front, size);
      NewlinesOfFeeds(last.start - LastLine(front));
      NewlinesConcat(Joined(front), Feeds(last.start - LastLine(front)));
      NewlinesConcat(Joined(front) + Feeds(last.start - LastLine(front)), last.text);
    }
  }

  lemma {:induction false} JoinedPrefix(cs: seq<Chunk>, k: nat)
    requires Forward(cs) && k <= |cs|
    ensures |Joined(cs[..k])| <= |Joined(cs)| && Joined(cs[..k]) == Joined(cs)[..|Joined(cs[..k])|]
  {
    if k == |cs| {
      assert cs[..k] == cs;
    } else {
      assert cs[..|cs| - 1][..k] == cs[..k];
      JoinedPrefix(cs[..|cs| - 1], k);
    }
  }

  /** Chunk `k` occurs in the rebuilt text with exactly `start - 1` newlines before it,
    * so its line numbers point at the lines it was taken from. */
  lemma EvidencePointsBack(cs: seq<Chunk>, lines: seq<string>, size: nat, k: nat) returns (before: string, after: string)
    requires WellSplit(cs, lines, size) && k < |cs|
    ensures Rebuild(cs, |lines|) == before + cs[k].text + after
    ensures Newlines(before) == cs[k].start - 1
    ensures Newlines(before + cs[k].text) == cs[k].end - 1
  {
    var front := cs[..k];
    before := Joined(front) + Feeds(cs[k].start - LastLine(front));
    JoinedNewlines(front, size);
    NewlinesOfFeeds(cs[k].start - LastLine(front));
    NewlinesConcat(Joined(front), Feeds(cs[k].start - LastLine(front)));
    NewlinesConcat(before, cs[k].text);
    after := After(cs, k, before + cs[k].text, |lines|);
  }

  lemma After(cs: seq<Chunk>, k: nat, upto: string, total: nat) returns (after: string)
    requires Forward(cs) && k < |cs| && LastLine(cs) <= total
    requires upto == Joined(cs[..k]) + Feeds(cs[k].start - LastLine(cs[..k])) + cs[k].text
    ensures Rebuild(cs, total) == upto + after
  {
    var whole, feeds := Joined(cs), Feeds(total - LastLine(cs));
    assert Joined(cs[..k + 1]) == upto by { assert cs[..k + 1][..k] == cs[..k]; }
    assert |upto| <= |whole| && upto == whole[..|upto|] by { JoinedPrefix(cs, k + 1); }
    after := whole[|upto|..] + feeds;
    assert whole == upto + whole[|upto|..];
    Reassociate(upto, whole[|upto|..], feeds);
  }
}
