/**
 * The Job Tracker Service's job-application controller over its collection.
 * Every handler reads the caller's identity from `req.body.userId` (written
 * by the guard), refuses with 401 when it is falsy, and otherwise reaches only
 * documents whose `userId` is the caller's. A store error (a driver failure,
 * or an id that is not an ObjectId) is the `fault` input and gives 500.
 */
module ApplicationStore {
  import opened Wrappers
  import opened Http
  import opened Outcomes
  import opened ApplicationSchema

  const Unauthorized: string := "Unauthorized"
  const NotFound: string := "Application not found"
  const UpdateNotFound: string := "Application not found or you do not have permission to update it"
  const DeleteNotFound: string := "Application not found or you do not have permission to delete it"
  const Deleted: string := "Application deleted successfully"
  const FetchAllFailed: string := "Server error while fetching applications"
  const FetchOneFailed: string := "Server error while fetching application"
  const CreateFailed: string := "Server error while creating application"
  const UpdateFailed: string := "Server error while updating application"
  const DeleteFailed: string := "Server error while deleting application"

  /** `_id` is unique in the collection. */
  predicate UniqueOids(docs: seq<Application>) {
    forall i, j :: 0 <= i < j < |docs| ==> docs[i].oid != docs[j].oid
  }

  /** `find({ userId })` before sorting: the caller's documents, in store order. */
  function Owned(docs: seq<Application>, uid: string): (r: seq<Application>)
    ensures |r| <= |docs|
    decreases |docs|
  {
    if |docs| == 0 then []
    else
      var last := docs[|docs| - 1];
      Owned(docs[..|docs| - 1], uid) + (if last.userId == uid then [last] else [])
  }

  /** The caller's view holds exactly the documents of the collection that the caller owns. */
  lemma {:induction false} OwnedMembers(docs: seq<Application>, uid: string)
    ensures forall d :: d in Owned(docs, uid) <==> d in docs && d.userId == uid
    decreases |docs|
  {
    if |docs| > 0 {
      var init := docs[..|docs| - 1];
      OwnedMembers(init, uid);
      assert docs == init + [docs[|docs| - 1]];
    }
  }

  /** The sort order of `appliedDate: -1`: later dates first, `null` after every date. */
  predicate AtLeast(a: Option<int>, b: Option<int>) {
    b.None? || (a.Some? && a.value >= b.value)
  }

  predicate SortedDesc(s: seq<Application>) {
    forall i, j :: 0 <= i < j < |s| ==> AtLeast(s[i].appliedDate, s[j].appliedDate)
  }

  /** A head that sorts no later than anything in a sorted tail keeps the list sorted. */
  lemma SortedCons(h: Application, t: seq<Application>)
    requires SortedDesc(t)
    requires forall y :: y in multiset(t) ==> AtLeast(h.appliedDate, y.appliedDate)
    ensures SortedDesc([h] + t)
  {
    forall j | 0 <= j < |t|
      ensures AtLeast(h.appliedDate, t[j].appliedDate)
    {
      assert t[j] in multiset(t);
    }
  }

  /** One document put into a date-sorted list. */
  function InsertByDate(s: seq<Application>, x: Application): (r: seq<Application>)
    requires SortedDesc(s)
    ensures SortedDesc(r)
    ensures multiset(r) == multiset(s) + multiset{x}
    decreases |s|
  {
    if |s| == 0 then [x]
    else if AtLeast(x.appliedDate, s[0].appliedDate) then
      SortedCons(x, s);
      [x] + s
    else
      assert s == [s[0]] + s[1..];
      var rest := InsertByDate(s[1..], x);
      assert forall y :: y in multiset(s[1..]) ==> AtLeast(s[0].appliedDate, y.appliedDate);
      SortedCons(s[0], rest);
      [s[0]] + rest
  }

  /** `.sort({ appliedDate: -1 })`: the same documents, latest application first. */
  function SortByDate(s: seq<Application>): (r: seq<Application>)
    ensures SortedDesc(r)
    ensures multiset(r) == multiset(s)
    decreases |s|
  {
    if |s| == 0 then []
    else
      assert s == [s[0]] + s[1..];
      InsertByDate(SortByDate(s[1..]), s[0])
  }

  /** `findOne({ _id: id, userId })`, as an index: the document must match both. */
  function FindOwned(docs: seq<Application>, id: string, uid: string): (k: int)
    ensures -1 <= k < |docs|
    ensures k >= 0 ==> docs[k].oid == id && docs[k].userId == uid
    ensures k >= 0 ==> forall j :: 0 <= j < k ==> !(docs[j].oid == id && docs[j].userId == uid)
    ensures k == -1 ==> forall j :: 0 <= j < |docs| ==> !(docs[j].oid == id && docs[j].userId == uid)
    decreases |docs|
  {
    if |docs| == 0 then -1
    else if docs[0].oid == id && docs[0].userId == uid then 0
    else
      var k := FindOwned(docs[1..], id, uid);
      if k == -1 then -1 else k + 1
  }

  /** The list without its `k`-th document. */
  function RemoveAt(docs: seq<Application>, k: int): (r: seq<Application>)
    requires 0 <= k < |docs|
    ensures |r| == |docs| - 1
    ensures forall i :: 0 <= i < k ==> r[i] == docs[i]
    ensures forall i :: k <= i < |r| ==> r[i] == docs[i + 1]
  {
    docs[..k] + docs[k + 1..]
  }

  /** Filtering by owner distributes over concatenation. */
  lemma {:induction false} OwnedConcat(a: seq<Application>, b: seq<Application>, u: string)
    ensures Owned(a + b, u) == Owned(a, u) + Owned(b, u)
    decreases |b|
  {
    if |b| == 0 {
      assert a + b == a;
    } else {
      var ab := a + b;
      assert ab[..|ab| - 1] == a + b[..|b| - 1];
      assert ab[|ab| - 1] == b[|b| - 1];
      OwnedConcat(a, b[..|b| - 1], u);
    }
  }

  /** Another user's document on its own contributes nothing to this user's view. */
  lemma OwnedOther(x: Application, u: string)
    requires x.userId != u
    ensures Owned([x], u) == []
  {
    assert [x][..0] == [];
  }

  /** Replacing a document that belongs to neither side leaves another user's view alone. */
  lemma OwnedReplaceOther(docs: seq<Application>, k: int, x: Application, u: string)
    requires 0 <= k < |docs| && docs[k].userId != u && x.userId != u
    ensures Owned(docs[k := x], u) == Owned(docs, u)
  {
    var before, after := docs[..k], docs[k + 1..];
    assert docs == before + ([docs[k]] + after);
    assert docs[k := x] == before + ([x] + after);
    OwnedConcat(before, [docs[k]] + after, u);
    OwnedConcat(before, [x] + after, u);
    OwnedConcat([docs[k]], after, u);
    OwnedConcat([x], after, u);
    OwnedOther(docs[k], u);
    OwnedOther(x, u);
  }

  /** Removing another user's document leaves this user's view alone. */
  lemma OwnedRemoveOther(docs: seq<Application>, k: int, u: string)
    requires 0 <= k < |docs| && docs[k].userId != u
    ensures Owned(RemoveAt(docs, k), u) == Owned(docs, u)
  {
    var before, after := docs[..k], docs[k + 1..];
    calc {
      Owned(RemoveAt(docs, k), u);
      { OwnedConcat(before, after, u); }
      Owned(before, u) + Owned(after, u);
      { OwnedConcat([docs[k]], after, u); OwnedOther(docs[k], u); }
      Owned(before, u) + Owned([docs[k]] + after, u);
      { OwnedConcat(before, [docs[k]] + after, u); }
      Owned(before + ([docs[k]] + after), u);
      { assert docs == before + ([docs[k]] + after); }
      Owned(docs, u);
    }
  }

  /** A document with a fresh `_id` keeps the ids unique. */
  lemma AppendFresh(docs: seq<Application>, app: Application)
    requires UniqueOids(docs) && forall d :: d in docs ==> d.oid != app.oid
    ensures UniqueOids(docs + [app])
  {
  }

  /** Appending another user's document leaves this user's view alone. */
  lemma OwnedAppendOther(docs: seq<Application>, x: Application, u: string)
    requires x.userId != u
    ensures Owned(docs + [x], u) == Owned(docs, u)
  {
    assert (docs + [x])[..|docs|] == docs;
  }

  class ApplicationStore {
    var docs: seq<Application>

    predicate Valid()
      reads this
    {
      UniqueOids(docs)
    }

    constructor ()
      ensures docs == [] && Valid()
    {
      docs := [];
    }

    /** `getAllApplications`: exactly the caller's documents, latest application first. */
    method GetAll(userId: Option<string>, fault: bool) returns (reply: Reply<Application>)
      ensures !Truthy(userId) ==> reply == Reply(401, Message(Unauthorized))
      ensures Truthy(userId) && fault ==> reply == Reply(500, Message(FetchAllFailed))
      ensures Truthy(userId) && !fault ==>
        && reply.status == 200 && reply.body.Many?
        && SortedDesc(reply.body.docs)
        && multiset(reply.body.docs) == multiset(Owned(docs, userId.value))
    {
      if !Truthy(userId) {
        return Reply(401, Message(Unauthorized));
      }
      if fault {
        return Reply(500, Message(FetchAllFailed));
      }
      reply := Reply(200, Many(SortByDate(Owned(docs, userId.value))));
    }

    /** `getApplicationById`: the document only when both its id and its owner match. */
    method GetById(userId: Option<string>, id: string, fault: bool) returns (reply: Reply<Application>)
      requires Valid()
      ensures !Truthy(userId) ==> reply == Reply(401, Message(Unauthorized))
      ensures Truthy(userId) && fault ==> reply == Reply(500, Message(FetchOneFailed))
      ensures reply.status == 200 ==>
        reply.body.One? && reply.body.doc in docs && reply.body.doc.oid == id && reply.body.doc.userId == userId.value
      ensures Truthy(userId) && !fault ==>
        (reply == Reply(404, Message(NotFound)) <==> forall d :: d in docs ==> !(d.oid == id && d.userId == userId.value))
      ensures Truthy(userId) && !fault && FindOwned(docs, id, userId.value) >= 0 ==>
        reply == Reply(200, One(docs[FindOwned(docs, id, userId.value)]))
      ensures reply.status == 200 ==> forall j :: 0 <= j < |docs| && docs[j].oid == id ==> docs[j] == reply.body.doc
      ensures reply.status in {200, 401, 404, 500}
    {
      if !Truthy(userId) {
        return Reply(401, Message(Unauthorized));
      }
      if fault {
        return Reply(500, Message(FetchOneFailed));
      }
      var k := FindOwned(docs, id, userId.value);
      if k == -1 {
        return Reply(404, Message(NotFound));
      }
      reply := Reply(200, One(docs[k]));
    }

    /**
     * `createApplication`: saves `{ ...data, userId }` as a new document
     * owned by the caller and answers 201 with it; a rejected save answers
     * 500 with the error text and stores nothing. `oid` is the fresh `_id`.
     */
    method Create(userId: Option<string>, data: Fields, oid: string, now: int, parseDate: DateParser,
                  fault: Option<string>)
      returns (reply: Reply<Application>)
      modifies this
      requires Valid() && forall d :: d in docs ==> d.oid != oid
      ensures Valid()
      ensures !Truthy(userId) ==> reply == Reply(401, Message(Unauthorized)) && docs == old(docs)
      ensures Truthy(userId) && fault.Some? ==>
        reply == Reply(500, ServerError(CreateFailed, fault.value)) && docs == old(docs)
      ensures Truthy(userId) && fault.None? ==>
        match NewApplication(oid, Stamped(data, userId.value), now, parseDate)
        case Success(app) => docs == old(docs) + [app] && reply == Reply(201, One(app)) && app.userId == userId.value
        case Failure(e) => docs == old(docs) && reply == Reply(500, ServerError(CreateFailed, ErrorMessage(e)))
      ensures forall u :: Truthy(userId) && u != userId.value ==> Owned(docs, u) == Owned(old(docs), u)
    {
      if !Truthy(userId) {
        return Reply(401, Message(Unauthorized));
      }
      if fault.Some? {
        return Reply(500, ServerError(CreateFailed, fault.value));
      }
      var created := NewApplication(oid, Stamped(data, userId.value), now, parseDate);
      if created.Failure? {
        return Reply(500, ServerError(CreateFailed, ErrorMessage(created.error)));
      }
      var app := created.value;
      assert app.oid == oid;
      AppendFresh(docs, app);
      forall u | u != userId.value
        ensures Owned(docs + [app], u) == Owned(docs, u)
      {
        OwnedAppendOther(docs, app, u);
      }
      docs := docs + [app];
      reply := Reply(201, One(app));
    }

    /**
     * `updateApplication`: casts the data (only an unparsable date is an
     * error), then applies it, unvalidated, to the one document matching id
     * and caller. Every other document stays as it was; no match is a 404
     * with nothing changed.
     */
    method Update(userId: Option<string>, id: string, data: Fields, now: int, parseDate: DateParser, fault: bool)
      returns (reply: Reply<Application>)
      modifies this
      requires Valid()
      ensures Valid()
      ensures !Truthy(userId) ==> reply == Reply(401, Message(Unauthorized)) && docs == old(docs)
      ensures Truthy(userId) && (fault || CastPatch(data, parseDate).Failure?) ==>
        reply == Reply(500, Message(UpdateFailed)) && docs == old(docs)
      ensures Truthy(userId) && !fault && CastPatch(data, parseDate).Success? ==>
        var k := FindOwned(old(docs), id, userId.value);
        && (k == -1 ==> reply == Reply(404, Message(UpdateNotFound)) && docs == old(docs))
        && (k >= 0 ==>
              && docs == old(docs)[k := Apply(old(docs)[k], CastPatch(data, parseDate).value, now)]
              && reply == Reply(200, One(docs[k])))
      ensures Truthy(userId) && "userId" !in data ==>
        forall u :: u != userId.value ==> Owned(docs, u) == Owned(old(docs), u)
    {
      if !Truthy(userId) {
        return Reply(401, Message(Unauthorized));
      }
      if fault {
        return Reply(500, Message(UpdateFailed));
      }
      var patch := CastPatch(data, parseDate);
      if patch.Failure? {
        return Reply(500, Message(UpdateFailed));
      }
      var k := FindOwned(docs, id, userId.value);
      if k == -1 {
        return Reply(404, Message(UpdateNotFound));
      }
      var updated := Apply(docs[k], patch.value, now);
      if "userId" !in data {
        forall u | u != userId.value
          ensures Owned(docs[k := updated], u) == Owned(docs, u)
        {
          OwnedReplaceOther(docs, k, updated, u);
        }
      }
      docs := docs[k := updated];
      reply := Reply(200, One(updated));
    }

    /** `deleteApplication`: removes the one document matching id and caller, or answers 404 with nothing changed. */
    method Delete(userId: Option<string>, id: string, fault: bool) returns (reply: Reply<Application>)
      modifies this
      requires Valid()
      ensures Valid()
      ensures !Truthy(userId) ==> reply == Reply(401, Message(Unauthorized)) && docs == old(docs)
      ensures Truthy(userId) && fault ==> reply == Reply(500, Message(DeleteFailed)) && docs == old(docs)
      ensures Truthy(userId) && !fault ==>
        var k := FindOwned(old(docs), id, userId.value);
        && (k == -1 ==> reply == Reply(404, Message(DeleteNotFound)) && docs == old(docs))
        && (k >= 0 ==> docs == RemoveAt(old(docs), k) && reply == Reply(200, Message(Deleted)))
      ensures Truthy(userId) ==> forall u :: u != userId.value ==> Owned(docs, u) == Owned(old(docs), u)
    {
      if !Truthy(userId) {
        return Reply(401, Message(Unauthorized));
      }
      if fault {
        return Reply(500, Message(DeleteFailed));
      }
      var k := FindOwned(docs, id, userId.value);
      if k == -1 {
        return Reply(404, Message(DeleteNotFound));
      }
      forall u | u != userId.value
        ensures Owned(RemoveAt(docs, k), u) == Owned(docs, u)
      {
        OwnedRemoveOther(docs, k, u);
      }
      docs := RemoveAt(docs, k);
      reply := Reply(200, Message(Deleted));
    }
  }
}
