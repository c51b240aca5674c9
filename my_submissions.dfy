/** The "my submissions" page: the signed-in user's own submissions, newest
    first, each with a status badge and, for rejections that carry one, the
    reason. Visitors are sent to the login page. */
module MySubmissions {
  import opened Util
  import opened Auth
  import opened Store

  /** The label of `statusConfig`. */
  function StatusLabel(s: Status): string {
    match s
    case Pending => "Pendente"
    case Approved => "Aprovado"
    case Rejected => "Rejeitado"
  }

  /** Each status has its own label. */
  lemma StatusLabelsDistinct(s: Status, t: Status)
    ensures StatusLabel(s) == StatusLabel(t) ==> s == t
  {
  }

  /** `sub.status === "rejected" && sub.rejection_reason`. */
  predicate ShowsRejectionReason(r: Submission) {
    r.status == Rejected && r.rejectionReason.Some? && r.rejectionReason.value != ""
  }

  /** Once the session is known, a visitor is sent to "/auth". */
  function Redirect(s: Session): (r: Option<string>)
    ensures r.Some? <==> !s.loading && s.user.None?
    ensures r.Some? ==> r.value == "/auth"
  {
    if !s.loading && s.user.None? then Some("/auth") else None
  }

  /** The state of the page. */
  class Page {
    const store: Table
    var submissions: seq<Submission>
    var isLoading: bool
    /** The user whose rows the list holds, once one fetch succeeded. */
    ghost var listedFor: Option<UserId>

    /** The list is newest first and holds only the rows of one user. */
    ghost predicate Valid()
      reads this
    {
      && SortedByCreatedDesc(submissions)
      && forall i :: 0 <= i < |submissions| ==> listedFor == Some(submissions[i].userId)
    }

    constructor (store: Table)
      ensures Valid()
      ensures this.store == store && submissions == [] && isLoading
      ensures ShowsSpinner(false)
    {
      this.store := store;
      submissions := [];
      isLoading := true;
      listedFor := None;
    }

    /** The page shows a spinner while the session or the list is loading. */
    predicate ShowsSpinner(loading: bool)
      reads this
    {
      loading || isLoading
    }

    /** `fetchSubmissions` for user `uid`: on success the list becomes that
        user's rows and nothing else, newest first; on error the previous
        list stays; loading ends either way. */
    method FetchSubmissions(uid: UserId, fault: bool)
      requires Valid()
      modifies this`submissions, this`isLoading, this`listedFor
      ensures Valid()
      ensures submissions == if fault then old(submissions) else OrderByCreatedDesc(OwnedBy(store.rows, uid))
      ensures !fault ==> listedFor == Some(uid)
      ensures !fault ==> forall r :: r in submissions <==> r in store.rows && r.userId == uid
      ensures !isLoading
    {
      var res := store.SelectOwnedBy(uid, fault);
      if res.Some? {
        submissions := res.value;
        listedFor := Some(uid);
        forall i | 0 <= i < |submissions| ensures listedFor == Some(submissions[i].userId) {
          assert submissions[i] in res.value;
        }
      }
      isLoading := false;
    }

    /** The page's two effects, in order: the redirect check, then the
        fetch, issued only for a signed-in user. In the page the fetch effect
        re-runs only when the user changes, while the redirect effect also
        re-runs when the loading flag changes; one call of this method is one
        run of both. */
    method OnSessionChange(session: Session, fault: bool) returns (redirect: Option<string>)
      requires Valid()
      modifies this`submissions, this`isLoading, this`listedFor
      ensures Valid()
      ensures redirect == Redirect(session)
      ensures session.user.Some? ==>
        !isLoading &&
        submissions == if fault then old(submissions) else OrderByCreatedDesc(OwnedBy(store.rows, session.user.value.id))
      ensures session.user.None? ==> submissions == old(submissions) && isLoading == old(isLoading)
      ensures session.user.Some? ==> (ShowsSpinner(session.loading) <==> session.loading)
    {
      redirect := Redirect(session);
      if session.user.Some? {
        FetchSubmissions(session.user.value.id, fault);
      }
    }
  }
}
