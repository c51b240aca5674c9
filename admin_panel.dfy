/** The moderation page: staff see every submission, pending ones first
    with approve and reject buttons and a reason box, reviewed ones below.
    A decision is one update of the table by id, followed by a refetch when
    the update succeeded. */
module AdminPanel {
  import opened Util
  import opened Auth
  import opened Store

  /** Where the page sends a visitor it does not admit: once the session is
      known, anyone not signed in or not staff-or-higher goes to "/". */
  function Redirect(s: Session): (r: Option<string>)
    ensures r.Some? <==> !s.loading && (s.user.None? || !s.isStaffOrHigher)
    ensures r.Some? ==> r.value == "/"
  {
    if !s.loading && (s.user.None? || !s.isStaffOrHigher) then Some("/") else None
  }

  /** `rejectionReasons[id] || null`: the typed reason, or null when the
      box for that id was never touched or is empty. */
  function ReasonFor(reasons: map<SubmissionId, string>, id: SubmissionId): (r: Option<string>)
    ensures r.Some? <==> id in reasons && reasons[id] != ""
    ensures r.Some? ==> r.value == reasons[id]
  {
    if id in reasons && reasons[id] != "" then Some(reasons[id]) else None
  }

  /** `rejectionReasons[id] || ""`: what the reason box shows. */
  function ReasonText(reasons: map<SubmissionId, string>, id: SubmissionId): string {
    if id in reasons then reasons[id] else ""
  }

  /** The reason sent with a rejection is the text in the box, or null
      exactly when the box is empty. */
  lemma ReasonSentIsReasonShown(reasons: map<SubmissionId, string>, id: SubmissionId)
    ensures ReasonFor(reasons, id) == if ReasonText(reasons, id) == "" then None else Some(ReasonText(reasons, id))
  {
  }

  /** The update an approval sends: no `rejection_reason` key. */
  function ApprovePatch(user: Option<User>, now: Timestamp): Patch {
    Patch(Approved, UserIdOf(user), now, None)
  }

  /** The update a rejection sends, carrying the typed reason or null. */
  function RejectPatch(user: Option<User>, now: Timestamp, reasons: map<SubmissionId, string>, id: SubmissionId): Patch {
    Patch(Rejected, UserIdOf(user), now, Some(ReasonFor(reasons, id)))
  }

  /** An approval touches only the rows with that id, and on those only the
      status, the reviewer (when someone is signed in) and the review time;
      in particular it leaves `rejection_reason` as it was. */
  lemma ApproveEffect(rows: seq<Submission>, id: SubmissionId, user: Option<User>, now: Timestamp)
    ensures |UpdatedById(rows, id, ApprovePatch(user, now))| == |rows|
    ensures forall i :: 0 <= i < |rows| ==>
      UpdatedById(rows, id, ApprovePatch(user, now))[i] ==
        if rows[i].id != id then rows[i]
        else rows[i].(status := Approved,
                      reviewedBy := if user.Some? then Some(user.value.id) else rows[i].reviewedBy,
                      reviewedAt := Some(now))
  {
  }

  /** A rejection touches only the rows with that id, and on those sets the
      status, the reviewer (when someone is signed in), the review time and
      the reason, which is null when none was typed. */
  lemma RejectEffect(rows: seq<Submission>, id: SubmissionId, user: Option<User>, now: Timestamp,
                     reasons: map<SubmissionId, string>)
    ensures |UpdatedById(rows, id, RejectPatch(user, now, reasons, id))| == |rows|
    ensures forall i :: 0 <= i < |rows| ==>
      UpdatedById(rows, id, RejectPatch(user, now, reasons, id))[i] ==
        if rows[i].id != id then rows[i]
        else rows[i].(status := Rejected,
                      reviewedBy := if user.Some? then Some(user.value.id) else rows[i].reviewedBy,
                      reviewedAt := Some(now),
                      rejectionReason := if id in reasons && reasons[id] != "" then Some(reasons[id]) else None)
  {
  }

  /** The update is by id only: a row that was already reviewed is
      reviewed again. The later decision sets the status and the review
      time, and the reviewer when one is signed in. The approve update has
      no `rejection_reason` key, so a reason written by an earlier rejection
      stays on a row approved afterwards. */
  lemma SecondDecision(rows: seq<Submission>, id: SubmissionId, user: Option<User>,
                       t1: Timestamp, t2: Timestamp, reasons: map<SubmissionId, string>, i: nat)
    requires i < |rows| && rows[i].id == id
    ensures var row := UpdatedById(UpdatedById(rows, id, ApprovePatch(user, t1)), id, RejectPatch(user, t2, reasons, id))[i];
      && row.status == Rejected && row.reviewedAt == Some(t2)
      && row.rejectionReason == ReasonFor(reasons, id)
      && (user.Some? ==> row.reviewedBy == Some(user.value.id))
    ensures var row := UpdatedById(UpdatedById(rows, id, RejectPatch(user, t1, reasons, id)), id, ApprovePatch(user, t2))[i];
      && row.status == Approved && row.reviewedAt == Some(t2)
      && row.rejectionReason == ReasonFor(reasons, id)
      && (user.Some? ==> row.reviewedBy == Some(user.value.id))
  {
  }

  function PendingOf(s: seq<Submission>): seq<Submission> {
    Filter(s, (r: Submission) => r.status == Pending)
  }

  function ReviewedOf(s: seq<Submission>): seq<Submission> {
    Filter(s, (r: Submission) => r.status != Pending)
  }

  /** The pending and the reviewed lists split the fetched list: every row
      is in the one its status selects, the counts add up, and each list
      keeps the fetched order. */
  lemma PendingReviewedPartition(s: seq<Submission>)
    ensures forall r :: r in PendingOf(s) <==> r in s && r.status == Pending
    ensures forall r :: r in ReviewedOf(s) <==> r in s && r.status != Pending
    ensures |PendingOf(s)| + |ReviewedOf(s)| == |s|
    ensures multiset(PendingOf(s)) + multiset(ReviewedOf(s)) == multiset(s)
    ensures IsSubsequence(PendingOf(s), s) && IsSubsequence(ReviewedOf(s), s)
  {
    var isPending := (r: Submission) => r.status == Pending;
    var isReviewed := (r: Submission) => r.status != Pending;
    FilterPartition(s, isPending, isReviewed);
    FilterIsSubsequence(s, isPending);
    FilterIsSubsequence(s, isReviewed);
    FilterMembers(s, isPending);
    FilterMembers(s, isReviewed);
  }

  /** The badge of a reviewed row. */
  function HistoryLabel(status: Status): (badge: string)
    ensures badge == "Aprovado" <==> status == Approved
    ensures status != Approved ==> badge == "Rejeitado"
  {
    if status == Approved then "Aprovado" else "Rejeitado"
  }

  /** The state of the moderation page. */
  class Panel {
    const store: Table
    var submissions: seq<Submission>
    var isLoading: bool
    var processingId: Option<SubmissionId>
    var rejectionReasons: map<SubmissionId, string>
    /** Whether the buttons of the row being decided were disabled when its
        update was issued. The handler records it itself, just before the
        call to the table; the table's methods cannot change the page. */
    ghost var disabledAtWrite: bool

    /** The list on screen is always some fetch's result: newest first;
        the table keeps its key. */
    ghost predicate Valid()
      reads this, store
    {
      SortedByCreatedDesc(submissions) && store.Valid()
    }

    constructor (store: Table)
      requires store.Valid()
      ensures Valid()
      ensures this.store == store
      ensures submissions == [] && isLoading && processingId == None && rejectionReasons == map[]
      ensures ShowsSpinner(false)
    {
      this.store := store;
      submissions := [];
      isLoading := true;
      processingId := None;
      rejectionReasons := map[];
      disabledAtWrite := false;
    }

    /** The page shows a spinner while the session or the list is loading. */
    predicate ShowsSpinner(loading: bool)
      reads this
    {
      loading || isLoading
    }

    /** Both buttons of a pending row are disabled while its decision runs. */
    predicate ButtonsDisabled(id: SubmissionId)
      reads this
    {
      processingId == Some(id)
    }

    /** `fetchSubmissions`: on success the list becomes every row, newest
        first; on error the previous list stays; loading ends either way. */
    method FetchSubmissions(fault: bool)
      requires Valid()
      modifies this`submissions, this`isLoading
      ensures Valid()
      ensures submissions == if fault then old(submissions) else OrderByCreatedDesc(store.rows)
      ensures !isLoading
    {
      var res := store.SelectAll(fault);
      if res.Some? {
        submissions := res.value;
      }
      isLoading := false;
    }

    /** The page's two effects, in order: the redirect check, then the
        fetch, issued only for staff. In the page the fetch effect re-runs
        only when `isStaffOrHigher` changes, while the redirect effect also
        re-runs when the user or the loading flag changes; one call of this
        method is one run of both. */
    method OnSessionChange(session: Session, fault: bool) returns (redirect: Option<string>)
      requires Valid()
      modifies this`submissions, this`isLoading
      ensures Valid()
      ensures redirect == Redirect(session)
      ensures session.isStaffOrHigher ==>
        !isLoading && submissions == if fault then old(submissions) else OrderByCreatedDesc(store.rows)
      ensures !session.isStaffOrHigher ==> submissions == old(submissions) && isLoading == old(isLoading)
      ensures session.isStaffOrHigher ==> (ShowsSpinner(session.loading) <==> session.loading)
    {
      redirect := Redirect(session);
      if session.isStaffOrHigher {
        FetchSubmissions(fault);
      }
    }

    /** `handleApprove(id)`. */
    method HandleApprove(user: Option<User>, id: SubmissionId, now: Timestamp, fault: bool, refetchFault: bool)
      requires Valid()
      modifies this, store
      ensures Valid()
      ensures store.rows == if fault then old(store.rows) else UpdatedById(old(store.rows), id, ApprovePatch(user, now))
      ensures submissions == if fault || refetchFault then old(submissions) else OrderByCreatedDesc(store.rows)
      ensures isLoading == (old(isLoading) && fault)
      ensures disabledAtWrite && !ButtonsDisabled(id) && processingId == None
      ensures rejectionReasons == old(rejectionReasons)
    {
      processingId := Some(id);
      disabledAtWrite := ButtonsDisabled(id);
      var err := store.Update(id, ApprovePatch(user, now), fault);
      if !err {
        FetchSubmissions(refetchFault);
      }
      processingId := None;
    }

    /** `handleReject(id)`: the same, with the reason typed for that id. */
    method HandleReject(user: Option<User>, id: SubmissionId, now: Timestamp, fault: bool, refetchFault: bool)
      requires Valid()
      modifies this, store
      ensures Valid()
      ensures store.rows ==
        if fault then old(store.rows)
        else UpdatedById(old(store.rows), id, RejectPatch(user, now, old(rejectionReasons), id))
      ensures submissions == if fault || refetchFault then old(submissions) else OrderByCreatedDesc(store.rows)
      ensures isLoading == (old(isLoading) && fault)
      ensures disabledAtWrite && !ButtonsDisabled(id) && processingId == None
      ensures rejectionReasons == old(rejectionReasons)
    {
      processingId := Some(id);
      disabledAtWrite := ButtonsDisabled(id);
      var err := store.Update(id, RejectPatch(user, now, rejectionReasons, id), fault);
      if !err {
        FetchSubmissions(refetchFault);
      }
      processingId := None;
    }

    /** Typing in the reason box of one submission. */
    method EditReason(id: SubmissionId, text: string)
      modifies this`rejectionReasons
      ensures rejectionReasons.Keys == old(rejectionReasons).Keys + {id}
      ensures rejectionReasons[id] == text
      ensures forall k :: k in old(rejectionReasons) && k != id ==> rejectionReasons[k] == old(rejectionReasons)[k]
      ensures ReasonText(rejectionReasons, id) == text
    {
      rejectionReasons := rejectionReasons[id := text];
    }
  }
}
