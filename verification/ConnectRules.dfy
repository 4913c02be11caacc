/** What the follower shows of a stream, in characters and bits. */
module ConnectRules {
  import opened Base
  import opened ConnectStream

  /** What an event shows: the final chunk makes the one terminal event, with the run's status; other text is
    * shown redacted, never as it came; a chunk without text shows the status. The run's own status wins over
    * the chunk's. */
  lemma EventShows(runId: Id, c: LogChunk, redact: string -> string)
    ensures var e, status := NormaliseChunk(runId, c, redact), if c.run != "" then c.run else c.runStatus;
      && e.sequence == c.offset && e.runId == runId && e.stream == "stdout" && (e.terminal <==> c.isFinal)
      && (e.kind == CompletedEvent <==> c.isFinal) && (e.kind == LogEvent <==> !c.isFinal && c.data != "")
      && (e.kind == LogEvent ==> e.message == redact(c.data))
      && (e.kind != LogEvent ==> e.message == NormaliseStatus(status))
  {
  }

  /** A status loses its prefix and its capitals. */
  lemma StatusShows(status: string, i: nat)
    ensures var name := if |status| >= 11 && status[..11] == "RUN_STATUS_" then status[11..] else status;
      && |NormaliseStatus(status)| == |name|
      && (i < |name| && 65 <= name[i] as int <= 90 ==> NormaliseStatus(status)[i] as int == name[i] as int + 32)
      && (i < |name| && !(65 <= name[i] as int <= 90) ==> NormaliseStatus(status)[i] == name[i])
  {
  }

  /** The error that each code of the protocol stands for, however it is capitalised or padded. */
  lemma CodesMean(code: string)
    ensures var c, e := Lower(Trim(code)), MapCode(code);
      && (e == Cancelled <==> c == "canceled") && (e == Timeout <==> c == "deadline_exceeded")
      && (e == Unavailable <==> c == "unavailable" || c == "resource_exhausted")
      && (e == Incompatible <==> c == "failed_precondition" || c == "unimplemented")
      && (e == Rejected <==> c == "unauthenticated" || c == "permission_denied" || c == "invalid_argument" || c == "not_found" || c == "already_exists")
      && (e == Cancelled || e == Timeout || e == Unavailable || e == Incompatible || e == Rejected || e == AgentFailed)
  {
  }

  /** The end-stream flag is the second bit. */
  lemma EndFlag(flag: byte)
    ensures IsEnd(flag) <==> flag % 4 == 2 || flag % 4 == 3
  {
  }

  /** An end-stream frame without payload reports no error; any other reports what its envelope says. */
  lemma EnvelopeMeans(f: Frame, codec: Codec)
    ensures |f.payload| == 0 ==> EndOf(f, codec) == Some(NoError)
    ensures |f.payload| > 0 ==> EndOf(f, codec) == codec.end(f.payload)
  {
  }
}
