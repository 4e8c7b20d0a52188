/** The read side of the dispatch core: the two request listings, the status check, the list of
    available assistants and the notification inbox. Each is a query that keeps the documents of
    one collection that match a filter, in store order, followed by a projection of each. */
module Queries {
  import opened Wrappers
  import opened Schema
  import opened Errors
  import opened Lookup

  /** The projections by `view` of the elements of `s` that `keep` accepts, in the order of `s`. */
  function Collect<T, U>(s: seq<T>, keep: T -> bool, view: T -> U): (out: seq<U>)
    ensures |out| <= |s|
  {
    if s == [] then []
    else (if keep(s[0]) then [view(s[0])] else []) + Collect(s[1..], keep, view)
  }

  /** Every accepted element is represented in the collection, and nothing else is. */
  lemma {:induction false} CollectMembers<T, U>(s: seq<T>, keep: T -> bool, view: T -> U)
    ensures forall x :: x in s && keep(x) ==> view(x) in Collect(s, keep, view)
    ensures forall y :: y in Collect(s, keep, view) ==> exists x :: x in s && keep(x) && y == view(x)
    decreases |s|
  {
    if s != [] {
      CollectMembers(s[1..], keep, view);
      assert forall x :: x in s ==> x == s[0] || x in s[1..];
      assert forall x :: x in s[1..] ==> x in s;
    }
  }

  lemma {:induction false} CollectSnoc<T, U>(s: seq<T>, x: T, keep: T -> bool, view: T -> U)
    ensures Collect(s + [x], keep, view) == Collect(s, keep, view) + (if keep(x) then [view(x)] else [])
    decreases |s|
  {
    if s == [] {
      assert [x][1..] == [];
    } else {
      assert (s + [x])[1..] == s[1..] + [x];
      CollectSnoc(s[1..], x, keep, view);
    }
  }

  /** Two collections that the filter judges alike, element by element, and whose accepted elements
      project alike, give the same result. */
  lemma {:induction false} CollectPointwise<T, U>(s: seq<T>, t: seq<T>, keep: T -> bool, view: T -> U)
    requires |s| == |t|
    requires forall k :: 0 <= k < |s| ==> keep(s[k]) == keep(t[k])
    requires forall k :: 0 <= k < |s| && keep(s[k]) ==> view(s[k]) == view(t[k])
    ensures Collect(s, keep, view) == Collect(t, keep, view)
    decreases |s|
  {
    if s != [] {
      CollectPointwise(s[1..], t[1..], keep, view);
    }
  }

  /** Nothing is collected from a collection whose elements the filter all rejects. */
  lemma {:induction false} CollectNone<T, U>(s: seq<T>, keep: T -> bool, view: T -> U)
    requires forall k :: 0 <= k < |s| ==> !keep(s[k])
    ensures Collect(s, keep, view) == []
    decreases |s|
  {
    if s != [] {
      CollectNone(s[1..], keep, view);
    }
  }

  // ---------------------------------------------------------------- /pending/requests listings

  /** One entry of /pending/requests/user/:userId and /pending/requests/:assistantId
      (created_at is not part of this model). */
  datatype RequestSummary = RequestSummary(requestId: nat, userId: nat, userName: string,
                                           category: string, description: Option<string>,
                                           latitude: Option<real>, longitude: Option<real>,
                                           status: Option<RequestStatus>)

  function Summary(q: Request, u: User): RequestSummary {
    RequestSummary(q.requestId, u.userId, u.name, q.category, q.description,
                   q.latitude, q.longitude, q.status)
  }

  /** GET /pending/requests/user/:userId: every request the user owns, whatever its status and
      notified flag, and no other. */
  function ListForUser(users: seq<User>, requests: seq<Request>, userId: int): (r: Result<seq<RequestSummary>, Error>)
    ensures r.Err? <==> FindUser(users, userId).None?
    ensures r.Err? ==> r.error == UserNotFound
    ensures r.Ok? ==> var u := users[FindUser(users, userId).value];
                      && (forall q :: q in requests && q.user == u.oid ==> Summary(q, u) in r.value)
                      && (forall e :: e in r.value ==> exists q :: q in requests && q.user == u.oid && e == Summary(q, u))
  {
    match FindUser(users, userId)
    case None => Err(UserNotFound)
    case Some(k) =>
      var u := users[k];
      var mine, view := (q: Request) => q.user == u.oid, (q: Request) => Summary(q, u);
      CollectMembers(requests, mine, view);
      Ok(Collect(requests, mine, view))
  }

  /** The owner of request `q` as populate('user') finds it, or null when the reference dangles. */
  function Owner(users: seq<User>, q: Request): Option<User> {
    match FindUserByOid(users, q.user)
    case None => None
    case Some(k) => Some(users[k])
  }

  /** The request is assigned to the assistant with storage identity `aOid`. */
  predicate AssignedTo(q: Request, aOid: ObjectId) {
    q.assistant == Some(aOid)
  }

  /** The summaries of the requests assigned to the assistant `aOid`, each joined with its owner;
      None when an owner cannot be found (the handler then fails reading a field of null). */
  function AssignedSummaries(users: seq<User>, requests: seq<Request>, aOid: ObjectId): (r: Option<seq<RequestSummary>>)
    ensures r.None? <==> exists q :: q in requests && AssignedTo(q, aOid) && Owner(users, q).None?
    ensures r.Some? ==> forall q :: q in requests && AssignedTo(q, aOid) ==>
                          Owner(users, q).Some? && Summary(q, Owner(users, q).value) in r.value
    ensures r.Some? ==> forall e :: e in r.value ==>
                          exists q :: q in requests && AssignedTo(q, aOid) && Owner(users, q).Some?
                                      && e == Summary(q, Owner(users, q).value)
  {
    if requests == [] then Some([])
    else
      var q := requests[0];
      var rest := AssignedSummaries(users, requests[1..], aOid);
      assert forall x :: x in requests <==> x == q || x in requests[1..];
      if !AssignedTo(q, aOid) then rest
      else if Owner(users, q).None? || rest.None? then None
      else Some([Summary(q, Owner(users, q).value)] + rest.value)
  }

  /** GET /pending/requests/:assistantId: every request assigned to the assistant, whatever its
      status, joined with its owner. */
  function ListForAssistant(users: seq<User>, assistants: seq<Assistant>, requests: seq<Request>,
                            assistantId: int): (r: Result<seq<RequestSummary>, Error>)
    ensures r == Err(AssistantNotFound) <==> FindAssistant(assistants, assistantId).None?
    ensures r.Ok? ==> FindAssistant(assistants, assistantId).Some?
                      && AssignedSummaries(users, requests, assistants[FindAssistant(assistants, assistantId).value].oid) == Some(r.value)
    ensures r.Err? ==> r.error == AssistantNotFound || r.error == Thrown
    ensures r.Ok? <==> FindAssistant(assistants, assistantId).Some?
                       && AssignedSummaries(users, requests, assistants[FindAssistant(assistants, assistantId).value].oid).Some?
  {
    match FindAssistant(assistants, assistantId)
    case None => Err(AssistantNotFound)
    case Some(j) =>
      match AssignedSummaries(users, requests, assistants[j].oid)
      case None => Err(Thrown)
      case Some(list) => Ok(list)
  }

  // ---------------------------------------------------------------- joins on the assistant

  /** What populate('assistant', 'assistant_id name') leaves in the reference: the assistant it
      names, or null when the reference is empty or dangling. */
  function Populated(assistants: seq<Assistant>, ref: Option<ObjectId>): Option<Assistant> {
    match ref
    case None => None
    case Some(oid) =>
      match FindAssistantByOid(assistants, oid)
      case None => None
      case Some(j) => Some(assistants[j])
  }

  function PublicIdOf(a: Option<Assistant>): Option<nat> {
    if a.Some? then Some(a.value.assistantId) else None
  }

  function NameOf(a: Option<Assistant>): Option<string> {
    if a.Some? then Some(a.value.name) else None
  }

  // ---------------------------------------------------------------- /pending/check

  /** One entry of /pending/check/:userId; `id` is the storage identity, not the public id. */
  datatype StatusItem = StatusItem(id: ObjectId, status: Option<RequestStatus>,
                                   latitude: Option<real>, longitude: Option<real>,
                                   assistantId: Option<nat>, assistantName: Option<string>)

  function StatusOf(q: Request, assistants: seq<Assistant>): StatusItem {
    var a := Populated(assistants, q.assistant);
    StatusItem(q.oid, q.status, q.latitude, q.longitude, PublicIdOf(a), NameOf(a))
  }

  /** GET /pending/check/:userId: every request of the user regardless of its notified flag, for a
      client to reconcile with; an empty list is the "no requests" answer. */
  function CheckStatus(users: seq<User>, assistants: seq<Assistant>, requests: seq<Request>,
                       userId: int): (r: Result<seq<StatusItem>, Error>)
    ensures r.Err? <==> FindUser(users, userId).None?
    ensures r.Err? ==> r.error == UserNotFound
    ensures r.Ok? ==> var u := users[FindUser(users, userId).value];
                      && (forall q :: q in requests && q.user == u.oid ==> StatusOf(q, assistants) in r.value)
                      && (forall e :: e in r.value ==> exists q :: q in requests && q.user == u.oid && e == StatusOf(q, assistants))
  {
    match FindUser(users, userId)
    case None => Err(UserNotFound)
    case Some(k) =>
      var uOid := users[k].oid;
      var mine, view := (q: Request) => q.user == uOid, (q: Request) => StatusOf(q, assistants);
      CollectMembers(requests, mine, view);
      Ok(Collect(requests, mine, view))
  }

  // ---------------------------------------------------------------- /assistant/all

  /** One entry of /assistant/all; the picture is the stored path (the URL built around it from the
      HTTP request is not part of this model). */
  datatype AssistantCard = AssistantCard(assistantId: nat, name: string, latitude: real, longitude: real,
                                         profilePicture: Option<string>, number: Option<string>)

  function Card(a: Assistant): AssistantCard {
    AssistantCard(a.assistantId, a.name, a.latitude, a.longitude, a.profilePicture, a.number)
  }

  /** GET /assistant/all: the assistants whose status is 'available', and only those; an empty
      list is the "no assistants" answer. */
  function AvailableAssistants(assistants: seq<Assistant>): (out: seq<AssistantCard>)
    ensures forall a :: a in assistants && a.status == Available ==> Card(a) in out
    ensures forall c :: c in out ==> exists a :: a in assistants && a.status == Available && c == Card(a)
  {
    var available := (a: Assistant) => a.status == Available;
    CollectMembers(assistants, available, Card);
    Collect(assistants, available, Card)
  }

  // ---------------------------------------------------------------- /pending/notification

  /** The request is waiting to be announced to its owner `uOid`: accepted and not yet notified. */
  predicate Deliverable(q: Request, uOid: ObjectId) {
    q.user == uOid && q.status == Some(Accepted) && !q.notified
  }

  /** One entry of /pending/notification/:userId; `id` is the storage identity. */
  datatype Delivery = Delivery(id: ObjectId, latitude: Option<real>, longitude: Option<real>,
                               assistantId: Option<nat>, assistantName: Option<string>)

  function DeliveryOf(q: Request, assistants: seq<Assistant>): Delivery {
    var a := Populated(assistants, q.assistant);
    Delivery(q.oid, q.latitude, q.longitude, PublicIdOf(a), NameOf(a))
  }

  /** What the notification poll of user `uOid` returns, in store order. */
  function Inbox(requests: seq<Request>, assistants: seq<Assistant>, uOid: ObjectId): (out: seq<Delivery>)
    ensures |out| <= |requests|
  {
    Collect(requests, (q: Request) => Deliverable(q, uOid), (q: Request) => DeliveryOf(q, assistants))
  }

  /** The poll returns exactly the user's requests that are accepted and not yet notified. */
  lemma InboxMembers(requests: seq<Request>, assistants: seq<Assistant>, uOid: ObjectId)
    ensures forall q :: q in requests && Deliverable(q, uOid) ==> DeliveryOf(q, assistants) in Inbox(requests, assistants, uOid)
    ensures forall e :: e in Inbox(requests, assistants, uOid) ==>
                          exists q :: q in requests && Deliverable(q, uOid) && e == DeliveryOf(q, assistants)
  {
    CollectMembers(requests, (q: Request) => Deliverable(q, uOid), (q: Request) => DeliveryOf(q, assistants));
  }

  /** The store after the poll of user `uOid`: every request the poll returns is marked notified,
      and nothing else changes. */
  function Delivered(requests: seq<Request>, uOid: ObjectId): seq<Request> {
    seq(|requests|, k requires 0 <= k < |requests| => Mark(requests[k], uOid))
  }

  /** One request after the poll of user `uOid`. */
  function Mark(q: Request, uOid: ObjectId): Request {
    if Deliverable(q, uOid) then q.(notified := true) else q
  }

  /** The inbox of a longer prefix of the requests: one more delivery when the last request is
      deliverable. */
  lemma InboxSnoc(requests: seq<Request>, q: Request, assistants: seq<Assistant>, uOid: ObjectId)
    ensures Inbox(requests + [q], assistants, uOid)
            == Inbox(requests, assistants, uOid) + (if Deliverable(q, uOid) then [DeliveryOf(q, assistants)] else [])
  {
    CollectSnoc(requests, q, (q: Request) => Deliverable(q, uOid), (q: Request) => DeliveryOf(q, assistants));
  }

  /** Each accepted request is delivered once: an immediate second poll returns nothing. */
  lemma InboxEmptyAfterDelivery(requests: seq<Request>, assistants: seq<Assistant>, uOid: ObjectId)
    ensures Inbox(Delivered(requests, uOid), assistants, uOid) == []
  {
    CollectNone(Delivered(requests, uOid), (q: Request) => Deliverable(q, uOid),
                (q: Request) => DeliveryOf(q, assistants));
  }

  /** The poll of one user leaves every other user's inbox as it was. */
  lemma {:induction false} DeliveryKeepsOtherInboxes(requests: seq<Request>, assistants: seq<Assistant>,
                                                     uOid: ObjectId, vOid: ObjectId)
    requires uOid != vOid
    ensures Inbox(Delivered(requests, uOid), assistants, vOid) == Inbox(requests, assistants, vOid)
  {
    CollectPointwise(Delivered(requests, uOid), requests,
                     (q: Request) => Deliverable(q, vOid), (q: Request) => DeliveryOf(q, assistants));
  }
}
