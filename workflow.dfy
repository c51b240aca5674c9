/** Properties of the submission workflow as a whole: what the dialog
    inserts, what a decision on the moderation page writes, and what the
    submitter then sees on "my submissions" and in the header menu. */
module Workflow {
  import opened Util
  import opened Auth
  import opened Store
  import AdminPanel
  import SubmitToolDialog
  import MySubmissions
  import UserMenu

  /** A row inserted from the dialog belongs to the submitter, starts
      pending without review data, and carries the form's content. */
  lemma SubmittedRowIsPending(f: SubmitToolDialog.FormData, uid: UserId, id: SubmissionId, now: Timestamp)
    ensures var row := Created(SubmitToolDialog.InsertRecord(f, uid), id, now);
      && row.userId == uid && row.id == id && row.createdAt == now
      && row.status == Pending
      && row.reviewedBy.None? && row.reviewedAt.None? && row.rejectionReason.None?
      && SubmitToolDialog.FormOf(Payload(row)) == Some(f)
      && !MySubmissions.ShowsRejectionReason(row)
  {
    SubmitToolDialog.InsertRecordRoundTrip(f, uid);
  }

  /** A Linux submission in the "Sistema" category, a choice the dialog
      offers, is stored as such and awaits review. */
  lemma LinuxSistemaSubmission(f: SubmitToolDialog.FormData, uid: UserId, id: SubmissionId, now: Timestamp)
    requires f.platform == SubmitToolDialog.Linux && f.category == "Sistema"
    ensures "Sistema" in SubmitToolDialog.CategoryChoices(f)
    ensures var row := Created(SubmitToolDialog.InsertRecord(f, uid), id, now);
      row.platform == "linux" && row.category == "Sistema" && row.status == Pending
  {
    SubmitToolDialog.CategoryTableFacts(SubmitToolDialog.Linux);
  }

  /** The row a user just submitted is listed on that user's page and among
      the pending rows of the moderation page. */
  lemma SubmittedRowIsListed(rows: seq<Submission>, n: NewSubmission, id: SubmissionId, now: Timestamp)
    ensures Created(n, id, now) in OrderByCreatedDesc(OwnedBy(rows + [Created(n, id, now)], n.userId))
    ensures Created(n, id, now) in AdminPanel.PendingOf(OrderByCreatedDesc(rows + [Created(n, id, now)]))
  {
    var row := Created(n, id, now);
    var all := rows + [row];
    assert all[|rows|] == row;
    OwnedOrderedSpec(all, n.userId);
    var ordered := OrderByCreatedDesc(all);
    assert row in multiset(ordered);
    AdminPanel.PendingReviewedPartition(ordered);
  }

  /** After a rejection, the submitter sees a reason exactly when the
      reviewer typed a non-empty one for that submission, and then sees
      that very text. */
  lemma RejectionReasonReachesSubmitter(rows: seq<Submission>, id: SubmissionId, reviewer: User,
                                        now: Timestamp, reasons: map<SubmissionId, string>, i: nat)
    requires i < |rows| && rows[i].id == id
    ensures var row := UpdatedById(rows, id, AdminPanel.RejectPatch(Some(reviewer), now, reasons, id))[i];
      && row.status == Rejected && row.reviewedBy == Some(reviewer.id) && row.reviewedAt == Some(now)
      && (MySubmissions.ShowsRejectionReason(row) <==> AdminPanel.ReasonText(reasons, id) != "")
      && (MySubmissions.ShowsRejectionReason(row) ==> row.rejectionReason == Some(AdminPanel.ReasonText(reasons, id)))
      && MySubmissions.StatusLabel(row.status) == "Rejeitado"
  {
    AdminPanel.ReasonSentIsReasonShown(reasons, id);
  }

  /** Rejecting with the reason "broken link" stores and shows that reason. */
  lemma RejectWithBrokenLink(rows: seq<Submission>, id: SubmissionId, reviewer: User, now: Timestamp,
                             reasons: map<SubmissionId, string>, i: nat)
    requires i < |rows| && rows[i].id == id
    requires id in reasons && reasons[id] == "broken link"
    ensures var row := UpdatedById(rows, id, AdminPanel.RejectPatch(Some(reviewer), now, reasons, id))[i];
      row.status == Rejected && row.rejectionReason == Some("broken link") && row.reviewedBy == Some(reviewer.id)
      && MySubmissions.ShowsRejectionReason(row)
  {
  }

  /** An approved row never shows a reason to its submitter, even one left
      by an earlier rejection, which approval does not clear. */
  lemma ApprovalShowsNoReason(rows: seq<Submission>, id: SubmissionId, user: Option<User>, now: Timestamp, i: nat)
    requires i < |rows| && rows[i].id == id
    ensures var row := UpdatedById(rows, id, AdminPanel.ApprovePatch(user, now))[i];
      row.status == Approved && row.rejectionReason == rows[i].rejectionReason
      && !MySubmissions.ShowsRejectionReason(row)
      && MySubmissions.StatusLabel(row.status) == "Aprovado"
  {
  }

  /** The moderation history and the submitter's page agree on the label of
      every reviewed row. */
  lemma HistoryLabelMatchesStatusLabel(s: Status)
    requires s != Pending
    ensures AdminPanel.HistoryLabel(s) == MySubmissions.StatusLabel(s)
  {
  }

  /** For a known session with a signed-in user, the header offers the
      moderation link exactly when the moderation page lets the user stay. */
  lemma AdminLinkMatchesPanelAccess(s: Session)
    requires !s.loading && s.user.Some?
    ensures UserMenu.AdminPanelLink in UserMenu.Render(s.user, s.roles, s.isStaffOrHigher).items
            <==> AdminPanel.Redirect(s).None?
  {
    UserMenu.RenderSignedIn(s.user.value, s.roles, s.isStaffOrHigher);
  }

  /** Anyone the own-submissions page sends away is also sent away from the
      moderation page, and a visitor sent away gets the login page there. */
  lemma RedirectsNest(s: Session)
    ensures MySubmissions.Redirect(s).Some? ==> AdminPanel.Redirect(s).Some?
    ensures AdminPanel.Redirect(s).Some? && s.user.None? ==> MySubmissions.Redirect(s) == Some("/auth")
  {
  }
}
