/** The notification reducer: a list of notifications with `loading` and
    `error` fields, driven by the settled actions of two thunks (fetch the
    list, mark one as read). */
module Notifications {
  import opened Base

  datatype Notification = Notification(id: string, message: string, read: bool)

  /** How the fetch thunk settles: resolved with the response body, or
      rejected with the body of the error response. When the request fails
      without a response, reading that body throws inside the handler and the
      thunk rejects with no payload (None), as it does for an error response
      without a body. */
  datatype Settled<T> = Resolved(body: T) | Rejected(errorBody: Option<string>)

  /** `notifications.filter(n => n._id !== id)`. */
  function RemoveById(ns: seq<Notification>, id: string): (r: seq<Notification>)
    ensures |r| <= |ns|
    ensures forall n :: n in r <==> n in ns && n.id != id
  {
    if ns == [] then []
    else (if ns[0].id != id then [ns[0]] else []) + RemoveById(ns[1..], id)
  }

  /** `a` is `b` with some entries deleted, the rest kept in their order. */
  predicate IsSubsequence<T(==)>(a: seq<T>, b: seq<T>)
    decreases |b|
  {
    if a == [] then true
    else if b == [] then false
    else (a[0] == b[0] && IsSubsequence(a[1..], b[1..])) || IsSubsequence(a, b[1..])
  }

  /** The entries that remain keep their relative order. */
  lemma {:induction false} RemoveByIdKeepsOrder(ns: seq<Notification>, id: string)
    ensures IsSubsequence(RemoveById(ns, id), ns)
  {
    if ns != [] {
      var rest := RemoveById(ns[1..], id);
      RemoveByIdKeepsOrder(ns[1..], id);
      if ns[0].id != id {
        var r := RemoveById(ns, id);
        assert r == [ns[0]] + rest;
        assert r[0] == ns[0] && r[1..] == rest;
      } else {
        assert RemoveById(ns, id) == rest;
      }
    }
  }

  /** Exactly the entries with the id go: every other entry stays with as many
      copies as before, and none with the id is left. */
  lemma {:induction false} RemoveByIdCounts(ns: seq<Notification>, id: string, n: Notification)
    ensures multiset(RemoveById(ns, id))[n] == if n.id == id then 0 else multiset(ns)[n]
  {
    if ns != [] {
      RemoveByIdCounts(ns[1..], id, n);
      assert ns == [ns[0]] + ns[1..];
      assert multiset(ns) == multiset([ns[0]]) + multiset(ns[1..]);
      var head: seq<Notification> := if ns[0].id != id then [ns[0]] else [];
      assert RemoveById(ns, id) == head + RemoveById(ns[1..], id);
      assert multiset(RemoveById(ns, id)) == multiset(head) + multiset(RemoveById(ns[1..], id));
    }
  }

  /** Marking an id that is not in the list leaves the list as it is. */
  lemma {:induction false} RemoveAbsentId(ns: seq<Notification>, id: string)
    requires forall n :: n in ns ==> n.id != id
    ensures RemoveById(ns, id) == ns
  {
    if ns != [] {
      assert ns[0] in ns;
      RemoveAbsentId(ns[1..], id);
      assert [ns[0]] + ns[1..] == ns;
    }
  }

  /** Mark-read is idempotent. */
  lemma RemoveByIdIdempotent(ns: seq<Notification>, id: string)
    ensures RemoveById(RemoveById(ns, id), id) == RemoveById(ns, id)
  {
    RemoveAbsentId(RemoveById(ns, id), id);
  }

  class NotificationSlice {
    var notifications: seq<Notification>
    var loading: bool
    var error: Option<string>

    constructor ()
      ensures notifications == [] && !loading && error == None
    {
      notifications := [];
      loading := false;
      error := None;
    }

    /** `fetchNotifications.pending` */
    method FetchPending()
      modifies this
      ensures loading
      ensures notifications == old(notifications) && error == old(error)
    {
      loading := true;
    }

    /** `fetchNotifications.fulfilled`: the error of an earlier rejection stays. */
    method FetchFulfilled(payload: seq<Notification>)
      modifies this
      ensures !loading && notifications == payload
      ensures error == old(error)
    {
      loading := false;
      notifications := payload;
    }

    /** `fetchNotifications.rejected`, whose payload may be undefined. */
    method FetchRejected(payload: Option<string>)
      modifies this
      ensures !loading && error == payload
      ensures notifications == old(notifications)
    {
      loading := false;
      error := payload;
    }

    /** `markNotificationAsRead.fulfilled`, whose payload is the id. */
    method MarkReadFulfilled(id: string)
      modifies this
      ensures notifications == RemoveById(old(notifications), id)
      ensures loading == old(loading) && error == old(error)
    {
      notifications := RemoveById(notifications, id);
    }

    /** Dispatching `fetchNotifications({token})` until it settles: pending,
        then fulfilled with the response body, or rejected with the error
        body, which is None when the failure carries no body. */
    method FetchNotifications(token: Option<string>, outcome: Settled<seq<Notification>>)
      returns (sent: Request)
      modifies this
      ensures sent == Request(Get, "/notifications", Bearer(token))
      ensures !loading
      ensures outcome.Resolved? ==> notifications == outcome.body && error == old(error)
      ensures outcome.Rejected? ==> notifications == old(notifications) && error == outcome.errorBody
    {
      FetchPending();
      sent := Request(Get, "/notifications", Bearer(token));
      match outcome
      case Resolved(list) => FetchFulfilled(list);
      case Rejected(body) => FetchRejected(body);
    }

    /** Dispatching `markNotificationAsRead({id, token})` until it settles. The
        pending and rejected actions have no case, so a failed request leaves
        the state as it was; a successful one resolves with the id. */
    method MarkNotificationAsRead(id: string, token: Option<string>, outcome: Outcome<()>)
      returns (sent: Request)
      modifies this
      ensures sent == Request(Put, "/notifications/" + id + "/read", Bearer(token))
      ensures notifications == if outcome.Success? then RemoveById(old(notifications), id) else old(notifications)
      ensures loading == old(loading) && error == old(error)
    {
      sent := Request(Put, "/notifications/" + id + "/read", Bearer(token));
      if outcome.Success? {
        MarkReadFulfilled(id);
      }
    }
  }
}
