/** The `tool_submissions` table, held in memory. The application talks to
    it through four calls: insert a row, update the rows with a given id,
    select every row, and select the rows of one user, each select ordered
    by creation time, newest first. A transport or database failure is an
    input (`fault`) of each call: a failed call reports an error and
    changes nothing. */
module Store {
  import opened Util
  import opened Auth

  type SubmissionId = string

  /** Creation and review times; only their order matters here. */
  type Timestamp = nat

  datatype Status = Pending | Approved | Rejected

  /** One row of `tool_submissions`. */
  datatype Submission = Submission(
    id: SubmissionId,
    userId: UserId,
    name: string,
    description: string,
    category: string,
    platform: string,
    downloadUrl: Option<string>,
    installCommand: Option<string>,
    icon: Option<string>,
    version: Option<string>,
    size: Option<string>,
    status: Status,
    createdAt: Timestamp,
    reviewedBy: Option<UserId>,
    reviewedAt: Option<Timestamp>,
    rejectionReason: Option<string>)

  /** The object the submission form passes to `insert`. */
  datatype NewSubmission = NewSubmission(
    userId: UserId,
    name: string,
    description: string,
    category: string,
    platform: string,
    downloadUrl: Option<string>,
    installCommand: Option<string>,
    icon: Option<string>,
    version: Option<string>,
    size: Option<string>)

  /** The object the moderation page passes to `update`. A key whose value
      is `undefined` is dropped when the object is serialised, so
      `reviewedBy == None` means that column is not written; likewise
      `rejectionReason == None` means the key is absent, while
      `Some(None)` writes null. */
  datatype Patch = Patch(
    status: Status,
    reviewedBy: Option<UserId>,
    reviewedAt: Timestamp,
    rejectionReason: Option<Option<string>>)

  /** The submitted content of a row: exactly what was inserted. */
  function Payload(r: Submission): NewSubmission {
    NewSubmission(r.userId, r.name, r.description, r.category, r.platform,
                  r.downloadUrl, r.installCommand, r.icon, r.version, r.size)
  }

  /** The row the database creates for an insert: a fresh id, the creation
      time, status `pending` and no review data. */
  function Created(n: NewSubmission, id: SubmissionId, now: Timestamp): (r: Submission)
    ensures Payload(r) == n
    ensures r.id == id && r.createdAt == now
    ensures r.status == Pending
    ensures r.reviewedBy == None && r.reviewedAt == None && r.rejectionReason == None
  {
    Submission(id, n.userId, n.name, n.description, n.category, n.platform,
               n.downloadUrl, n.installCommand, n.icon, n.version, n.size,
               Pending, now, None, None, None)
  }

  /** One row after an update: the columns named in the patch take its
      values, every other column keeps its value. */
  function ApplyPatch(r: Submission, p: Patch): (r': Submission)
    ensures Payload(r') == Payload(r)
    ensures r'.id == r.id && r'.createdAt == r.createdAt
    ensures r'.status == p.status && r'.reviewedAt == Some(p.reviewedAt)
    ensures r'.reviewedBy == if p.reviewedBy.Some? then p.reviewedBy else r.reviewedBy
    ensures r'.rejectionReason == if p.rejectionReason.Some? then p.rejectionReason.value else r.rejectionReason
  {
    r.(status := p.status,
       reviewedBy := if p.reviewedBy.Some? then p.reviewedBy else r.reviewedBy,
       reviewedAt := Some(p.reviewedAt),
       rejectionReason := if p.rejectionReason.Some? then p.rejectionReason.value else r.rejectionReason)
  }

  /** `update(p).eq("id", id)`: every row with that id is patched, every
      other row is left as it is, and no row moves. No status is checked. */
  function UpdatedById(rows: seq<Submission>, id: SubmissionId, p: Patch): (r: seq<Submission>)
    ensures |r| == |rows|
    ensures forall i :: 0 <= i < |rows| && rows[i].id != id ==> r[i] == rows[i]
    ensures forall i :: 0 <= i < |rows| && rows[i].id == id ==> r[i] == ApplyPatch(rows[i], p)
  {
    if rows == [] then []
    else [if rows[0].id == id then ApplyPatch(rows[0], p) else rows[0]] + UpdatedById(rows[1..], id, p)
  }

  /** `eq("user_id", uid)`. */
  function OwnedBy(rows: seq<Submission>, uid: UserId): seq<Submission> {
    Filter(rows, (r: Submission) => r.userId == uid)
  }

  /** `order("created_at", { ascending: false })` holds of `s`. */
  predicate SortedByCreatedDesc(s: seq<Submission>) {
    forall i, j :: 0 <= i < j < |s| ==> s[i].createdAt >= s[j].createdAt
  }

  /** A row no older than the head of a newest-first list can go in front. */
  lemma ConsSorted(a: Submission, t: seq<Submission>)
    requires SortedByCreatedDesc(t)
    requires t == [] || a.createdAt >= t[0].createdAt
    ensures SortedByCreatedDesc([a] + t)
  {
    var r := [a] + t;
    forall i, j | 0 <= i < j < |r| ensures r[i].createdAt >= r[j].createdAt {
      if i == 0 {
        assert r[j] == t[j - 1];
        assert t[0].createdAt >= t[j - 1].createdAt;
      } else {
        assert r[i] == t[i - 1] && r[j] == t[j - 1];
      }
    }
  }

  lemma SortedTail(s: seq<Submission>)
    requires s != [] && SortedByCreatedDesc(s)
    ensures SortedByCreatedDesc(s[1..])
  {
    forall i, j | 0 <= i < j < |s| - 1 ensures s[1..][i].createdAt >= s[1..][j].createdAt {
      assert s[1..][i] == s[i + 1] && s[1..][j] == s[j + 1];
    }
  }

  /** The recursive step of `InsertByCreated`: the head of `s` goes in
      front of `x` inserted into the tail. */
  lemma InsertStep(x: Submission, s: seq<Submission>, t: seq<Submission>)
    requires s != [] && SortedByCreatedDesc(s) && x.createdAt < s[0].createdAt
    requires SortedByCreatedDesc(t) && |t| == |s|
    requires multiset(t) == multiset(s[1..]) + multiset{x}
    requires t[0] == x || (s[1..] != [] && t[0] == s[1..][0])
    ensures SortedByCreatedDesc([s[0]] + t)
    ensures multiset([s[0]] + t) == multiset(s) + multiset{x}
  {
    if t[0] != x {
      assert s[1..][0] == s[1];
    }
    ConsSorted(s[0], t);
    assert s == [s[0]] + s[1..];
    assert multiset([s[0]] + t) == multiset{s[0]} + multiset(t);
  }

  /** Places `x` in a newest-first list, ahead of the rows no newer than it. */
  function InsertByCreated(x: Submission, s: seq<Submission>): (r: seq<Submission>)
    requires SortedByCreatedDesc(s)
    ensures SortedByCreatedDesc(r)
    ensures multiset(r) == multiset(s) + multiset{x}
    ensures |r| == |s| + 1
    ensures r[0] == x || (s != [] && r[0] == s[0])
  {
    if s == [] || x.createdAt >= s[0].createdAt then
      ConsSorted(x, s);
      [x] + s
    else
      SortedTail(s);
      var t := InsertByCreated(x, s[1..]);
      InsertStep(x, s, t);
      [s[0]] + t
  }

  /** The rows of `s`, newest first. Rows created at the same time keep
      their relative order (the database leaves that order open). */
  function OrderByCreatedDesc(s: seq<Submission>): (r: seq<Submission>)
    ensures SortedByCreatedDesc(r)
    ensures multiset(r) == multiset(s)
    ensures |r| == |s|
  {
    if s == [] then []
    else
      assert s == [s[0]] + s[1..];
      InsertByCreated(s[0], OrderByCreatedDesc(s[1..]))
  }

  /** Every row a selection by owner returns belongs to that owner, the
      rows come newest first, and none of the owner's rows is missing. */
  lemma OwnedOrderedSpec(rows: seq<Submission>, uid: UserId)
    ensures SortedByCreatedDesc(OrderByCreatedDesc(OwnedBy(rows, uid)))
    ensures forall r :: r in OrderByCreatedDesc(OwnedBy(rows, uid)) <==> r in rows && r.userId == uid
  {
    var owned := OwnedBy(rows, uid);
    var out := OrderByCreatedDesc(owned);
    forall r ensures r in out <==> r in rows && r.userId == uid {
      assert r in out <==> r in multiset(out);
      assert r in owned <==> r in multiset(owned);
      if r in owned {
        var k :| 0 <= k < |owned| && owned[k] == r;
      }
      if r in rows && r.userId == uid {
        var k :| 0 <= k < |rows| && rows[k] == r;
      }
    }
  }

  /** `id` is the table's primary key: no two rows share one. */
  predicate DistinctIds(rows: seq<Submission>) {
    forall i, j :: 0 <= i < j < |rows| ==> rows[i].id != rows[j].id
  }

  /** Some row has the id `id`. */
  predicate IdTaken(rows: seq<Submission>, id: SubmissionId) {
    exists i :: 0 <= i < |rows| && rows[i].id == id
  }

  /** An update by id keeps every row's id, so it keeps the key. */
  lemma UpdateKeepsKey(rows: seq<Submission>, id: SubmissionId, p: Patch)
    requires DistinctIds(rows)
    ensures DistinctIds(UpdatedById(rows, id, p))
  {
    var r := UpdatedById(rows, id, p);
    forall i, j | 0 <= i < j < |r| ensures r[i].id != r[j].id {
      assert r[i].id == rows[i].id && r[j].id == rows[j].id;
    }
  }

  /** Under the key, an update by id changes at most one row: of any two
      rows, one is left as it was. */
  lemma UpdateChangesAtMostOne(rows: seq<Submission>, id: SubmissionId, p: Patch, i: nat, j: nat)
    requires DistinctIds(rows) && i < j < |rows|
    ensures UpdatedById(rows, id, p)[i] == rows[i] || UpdatedById(rows, id, p)[j] == rows[j]
  {
  }

  /** The remote table, keyed by `id`. */
  class Table {
    var rows: seq<Submission>

    ghost predicate Valid()
      reads this
    {
      DistinctIds(rows)
    }

    constructor (initial: seq<Submission>)
      requires DistinctIds(initial)
      ensures Valid()
      ensures rows == initial
    {
      rows := initial;
    }

    /** `insert(n)`: the database appends a pending row with the id and the
        creation time it chooses (`id`, `now`). An id already in the table
        violates the key, and the insert fails like one that faults. */
    method Insert(n: NewSubmission, id: SubmissionId, now: Timestamp, fault: bool) returns (err: bool)
      requires Valid()
      modifies this
      ensures Valid()
      ensures err == (fault || IdTaken(old(rows), id))
      ensures rows == if err then old(rows) else old(rows) + [Created(n, id, now)]
    {
      err := fault || IdTaken(rows, id);
      if !err {
        var r := rows + [Created(n, id, now)];
        forall i, j | 0 <= i < j < |r| ensures r[i].id != r[j].id {
          if j == |rows| {
            assert r[i] == rows[i];
          } else {
            assert r[i] == rows[i] && r[j] == rows[j];
          }
        }
        rows := r;
      }
    }

    /** `update(p).eq("id", id)`. */
    method Update(id: SubmissionId, p: Patch, fault: bool) returns (err: bool)
      requires Valid()
      modifies this
      ensures Valid()
      ensures err == fault
      ensures rows == if fault then old(rows) else UpdatedById(old(rows), id, p)
    {
      err := fault;
      if !fault {
        UpdateKeepsKey(rows, id, p);
        rows := UpdatedById(rows, id, p);
      }
    }

    /** `select("*").order("created_at", { ascending: false })`: every row,
        newest first; `None` is the error result. */
    method SelectAll(fault: bool) returns (res: Option<seq<Submission>>)
      ensures res.None? <==> fault
      ensures res.Some? ==> res.value == OrderByCreatedDesc(rows)
      ensures res.Some? ==> SortedByCreatedDesc(res.value) && multiset(res.value) == multiset(rows)
    {
      if fault {
        res := None;
      } else {
        res := Some(OrderByCreatedDesc(rows));
      }
    }

    /** The same selection restricted by `eq("user_id", uid)`. */
    method SelectOwnedBy(uid: UserId, fault: bool) returns (res: Option<seq<Submission>>)
      ensures res.None? <==> fault
      ensures res.Some? ==> res.value == OrderByCreatedDesc(OwnedBy(rows, uid))
      ensures res.Some? ==> SortedByCreatedDesc(res.value)
      ensures res.Some? ==> forall r :: r in res.value <==> r in rows && r.userId == uid
    {
      if fault {
        res := None;
      } else {
        OwnedOrderedSpec(rows, uid);
        res := Some(OrderByCreatedDesc(OwnedBy(rows, uid)));
      }
    }
  }
}
