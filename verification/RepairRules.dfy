/** The repair state machine and the repair rows, read off the columns. */
module RepairRules {
  import opened Base
  import opened Repair

  /** The repair state machine read by target: from which states each state can be reached in one edge. */
  lemma EdgesByTarget(from: State)
    ensures CanTransition(from, Planning) <==> from == Planning || from == Failed
    ensures CanTransition(from, AwaitingPlanApproval) <==> from == Planning
    ensures CanTransition(from, PlanApproved) <==> from == AwaitingPlanApproval || from == Failed
    ensures CanTransition(from, Patching) <==> from == PlanApproved || from == Patching
    ensures CanTransition(from, AwaitingPatchApproval) <==> from == Patching
    ensures CanTransition(from, PatchApproved) <==> from == AwaitingPatchApproval || from == Failed
    ensures CanTransition(from, Published) <==> from == PatchApproved
    ensures CanTransition(from, Failed) <==> from != Published && from != Cancelled
    ensures CanTransition(from, Cancelled) <==> from != Published && from != Cancelled
  {
  }

  /** A row is stored exactly for a valid issue whose source key, task and identifier are all unused; it starts
      in planning with nothing else set. */
  lemma CreateExactly(rows: Rows, id: Id, info: Info, now: Time)
    requires ValidInfo(info)
    ensures Create(rows, id, info, now) ==
      (if id != "" && id !in rows && forall x :: x in rows ==> rows[x].info.sourceKey != info.sourceKey && rows[x].info.taskId != info.taskId
       then rows[id := Row(id, info, Planning, None, "", "", None, "", "", None, None, NoFailure, now)] else rows)
  {
    if exists x :: x in rows && OwnsKey(rows, x, info.sourceKey) {
      var x :| x in rows && OwnsKey(rows, x, info.sourceKey);
    } else {
      forall x | x in rows ensures rows[x].info.sourceKey != info.sourceKey { assert !OwnsKey(rows, x, info.sourceKey); }
    }
  }

  /** An issue is valid when its keys, repository, clone address, installation, title and base branch are not
      blank, the branch is one line, and the base commit is 40 hexadecimal digits. */
  lemma ValidInfoExactly(info: Info)
    ensures ValidInfo(info) <==>
      (&& !AllWhite(info.sourceKey) && !AllWhite(info.taskId) && !AllWhite(info.repository) && !AllWhite(info.cloneUrl)
       && !AllWhite(info.installationId) && !AllWhite(info.issueTitle) && !AllWhite(info.baseBranch)
       && (forall i :: 0 <= i < |info.baseBranch| ==> info.baseBranch[i] as int != 10 && info.baseBranch[i] as int != 13)
       && |info.baseSha| == 40 && forall i :: 0 <= i < 40 ==> info.baseSha[i] in "0123456789abcdefABCDEF")
  {
    assert forall s: string :: Blank(s) <==> AllWhite(s);
    assert "\r\n"[0] == '\r' && "\r\n"[1] == '\n';
    assert forall c :: c in "\r\n" <==> c == '\r' || c == '\n';
    forall c: char ensures IsHexDigit(c) <==> c in "0123456789abcdefABCDEF" { HexDigits(c); }
  }

  /** An update overwrites every mutable column of one row with the copy's and leaves the fixed ones. */
  lemma UpdateExactly(rows: Rows, copy: Row, now: Time)
    ensures var rows' := Update(rows, copy, now);
            && rows'.Keys == rows.Keys && (forall x :: x in rows && x != copy.id ==> rows'[x] == rows[x])
            && (copy.id in rows ==>
                 var row := rows'[copy.id];
                 (&& row.info == rows[copy.id].info && row.updatedAt == now && row.id == copy.id && row.state == copy.state
                  && row.plan == copy.plan && row.planDigest == copy.planDigest && row.planApproval == copy.planApproval
                  && row.patch == copy.patch && row.patchDigest == copy.patchDigest && row.patchApproval == copy.patchApproval
                  && row.branch == copy.branch && row.draft == copy.draft && row.failureCode == copy.failureCode))
  {
  }

  /** Which phase a row that is read calls for, by its state and the fields that are set. */
  lemma DispatchExactly(c: Row, agent: bool)
    ensures var next := Dispatch(c, agent);
            && (next.None? <==> c.state == AwaitingPlanApproval || c.state == AwaitingPatchApproval || c.state == Published || c.state == Cancelled
                                || (c.state == Patching && agent))
            && (next.Some? && next.value.Publishing? <==>
                  c.state == PatchApproved || (c.state == Failed && c.patchApproval != "" && c.patchDigest != ""))
            && (next.Some? && next.value.Saving? && next.value.next == ThenDraft ==> next.value.copy.state == Planning && (agent || c.patchDigest != ""))
            && (next.Some? && next.value.Saving? && next.value.next == ThenCode ==> next.value.copy.state == Patching && (agent || c.patchDigest != ""))
            && (next.Some? && next.value.Saving? && next.value.next == ThenStop ==> next.value.copy.failureCode == AcUnavailable && !agent)
            && (next.Some? ==> next.value.copy.id == c.id && next.value.copy.info == c.info)
  {
  }
}
