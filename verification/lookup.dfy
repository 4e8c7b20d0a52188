/** How the handlers find documents: findOne scans a collection in its natural (insertion) order
    and returns the first match; and how /pending/completed decides which request an id means. */
module Lookup {
  import opened Wrappers
  import opened Text
  import opened Schema

  /** The index of the first element of `s` that satisfies `p`, or None when there is none. */
  function FirstWhere<T>(s: seq<T>, p: T -> bool): (r: Option<nat>)
    ensures r.Some? ==> r.value < |s| && p(s[r.value]) && forall k :: 0 <= k < r.value ==> !p(s[k])
    ensures r.None? <==> forall k :: 0 <= k < |s| ==> !p(s[k])
  {
    if s == [] then None
    else if p(s[0]) then Some(0)
    else match FirstWhere(s[1..], p)
      case None => None
      case Some(i) => Some(i + 1)
  }

  /** Replacing an element by one that `p` judges the same way leaves the first match unchanged. */
  lemma FirstWhereUpdate<T>(s: seq<T>, p: T -> bool, i: nat, x: T)
    requires i < |s| && p(x) == p(s[i])
    ensures FirstWhere(s[i := x], p) == FirstWhere(s, p)
  {
    var t := s[i := x];
    assert forall k :: 0 <= k < |s| ==> p(t[k]) == p(s[k]);
  }

  /** Appending an element changes the first match only when there was none. */
  lemma FirstWhereAppend<T>(s: seq<T>, p: T -> bool, x: T)
    ensures FirstWhere(s + [x], p) == if FirstWhere(s, p).Some? then FirstWhere(s, p)
                                      else if p(x) then Some(|s|) else None
  {
    var t := s + [x];
    assert forall k :: 0 <= k < |s| ==> t[k] == s[k];
    assert t[|s|] == x;
    match FirstWhere(s, p)
    case Some(i) =>
      assert p(t[i]);
      var j := FirstWhere(t, p);
      assert j.Some? && j.value == i;
    case None =>
      if p(x) {
        assert FirstWhere(t, p).Some?;
      } else {
        assert forall k :: 0 <= k < |t| ==> !p(t[k]);
      }
  }

  // ---------------------------------------------------------------- the finders of the handlers

  /** User.findOne({ user_id }) */
  function FindUser(users: seq<User>, userId: int): (r: Option<nat>)
    ensures r.Some? ==> r.value < |users| && users[r.value].userId == userId
    ensures r.None? ==> forall k :: 0 <= k < |users| ==> users[k].userId != userId
  {
    FirstWhere(users, (u: User) => u.userId == userId)
  }

  /** The user a stored reference names (what populate('user') resolves). */
  function FindUserByOid(users: seq<User>, oid: ObjectId): (r: Option<nat>)
    ensures r.Some? ==> r.value < |users| && users[r.value].oid == oid
    ensures r.None? ==> forall k :: 0 <= k < |users| ==> users[k].oid != oid
  {
    FirstWhere(users, (u: User) => u.oid == oid)
  }

  /** Assistant.findOne({ assistant_id }) */
  function FindAssistant(assistants: seq<Assistant>, assistantId: int): (r: Option<nat>)
    ensures r.Some? ==> r.value < |assistants| && assistants[r.value].assistantId == assistantId
    ensures r.None? ==> forall k :: 0 <= k < |assistants| ==> assistants[k].assistantId != assistantId
  {
    FirstWhere(assistants, (a: Assistant) => a.assistantId == assistantId)
  }

  /** The assistant a stored reference names (what populate('assistant') resolves). */
  function FindAssistantByOid(assistants: seq<Assistant>, oid: ObjectId): (r: Option<nat>)
    ensures r.Some? ==> r.value < |assistants| && assistants[r.value].oid == oid
    ensures r.None? ==> forall k :: 0 <= k < |assistants| ==> assistants[k].oid != oid
  {
    FirstWhere(assistants, (a: Assistant) => a.oid == oid)
  }

  /** PendingRequest.findOne({ request_id }) */
  function FindRequest(requests: seq<Request>, requestId: int): (r: Option<nat>)
    ensures r.Some? ==> r.value < |requests| && requests[r.value].requestId == requestId
    ensures r.None? ==> forall k :: 0 <= k < |requests| ==> requests[k].requestId != requestId
  {
    FirstWhere(requests, (q: Request) => q.requestId == requestId)
  }

  /** PendingRequest.findById(oid) */
  function FindRequestByOid(requests: seq<Request>, oid: ObjectId): (r: Option<nat>)
    ensures r.Some? ==> r.value < |requests| && requests[r.value].oid == oid
    ensures r.None? ==> forall k :: 0 <= k < |requests| ==> requests[k].oid != oid
  {
    FirstWhere(requests, (q: Request) => q.oid == oid)
  }

  /** Doctor.findOne({ doctor_id }) */
  function FindDoctor(doctors: seq<Doctor>, doctorId: int): (r: Option<nat>)
    ensures r.Some? ==> r.value < |doctors| && doctors[r.value].doctorId == doctorId
    ensures r.None? ==> forall k :: 0 <= k < |doctors| ==> doctors[k].doctorId != doctorId
  {
    FirstWhere(doctors, (d: Doctor) => d.doctorId == doctorId)
  }

  /** Appointment.findOne({ appointment_id }) */
  function FindAppointment(appointments: seq<Appointment>, appointmentId: int): (r: Option<nat>)
    ensures r.Some? ==> r.value < |appointments| && appointments[r.value].appointmentId == appointmentId
    ensures r.None? ==> forall k :: 0 <= k < |appointments| ==> appointments[k].appointmentId != appointmentId
  {
    FirstWhere(appointments, (p: Appointment) => p.appointmentId == appointmentId)
  }

  /** Post.findById(oid) */
  function FindPost(posts: seq<Post>, oid: ObjectId): (r: Option<nat>)
    ensures r.Some? ==> r.value < |posts| && posts[r.value].oid == oid
    ensures r.None? ==> forall k :: 0 <= k < |posts| ==> posts[k].oid != oid
  {
    FirstWhere(posts, (p: Post) => p.oid == oid)
  }

  /** User.findOne({ email }) for an address already passed through the schema's setters. */
  function FindUserByEmail(users: seq<User>, email: string): (r: Option<nat>)
    ensures r.Some? ==> r.value < |users| && users[r.value].email == email
    ensures r.None? ==> forall k :: 0 <= k < |users| ==> users[k].email != email
  {
    FirstWhere(users, (u: User) => u.email == email)
  }

  /** Assistant.findOne({ email }) */
  function FindAssistantByEmail(assistants: seq<Assistant>, email: string): (r: Option<nat>)
    ensures r.Some? ==> r.value < |assistants| && assistants[r.value].email == email
    ensures r.None? ==> forall k :: 0 <= k < |assistants| ==> assistants[k].email != email
  {
    FirstWhere(assistants, (a: Assistant) => a.email == email)
  }

  /** A status change of one assistant leaves every lookup of assistants by either id as it was. */
  lemma AssistantUpdateKeepsFinds(assistants: seq<Assistant>, j: nat, x: Assistant)
    requires j < |assistants| && x.oid == assistants[j].oid && x.assistantId == assistants[j].assistantId
    ensures forall n :: FindAssistant(assistants[j := x], n) == FindAssistant(assistants, n)
    ensures forall o :: FindAssistantByOid(assistants[j := x], o) == FindAssistantByOid(assistants, o)
  {
    forall n: int ensures FindAssistant(assistants[j := x], n) == FindAssistant(assistants, n) {
      FirstWhereUpdate(assistants, (a: Assistant) => a.assistantId == n, j, x);
    }
    forall o: ObjectId ensures FindAssistantByOid(assistants[j := x], o) == FindAssistantByOid(assistants, o) {
      FirstWhereUpdate(assistants, (a: Assistant) => a.oid == o, j, x);
    }
  }

  /** Registering a user keeps every earlier lookup of a user by storage identity. */
  lemma UserAppendKeepsFinds(users: seq<User>, u: User)
    ensures forall o :: FindUserByOid(users, o).Some? ==> FindUserByOid(users + [u], o) == FindUserByOid(users, o)
  {
    forall o: ObjectId | FindUserByOid(users, o).Some?
      ensures FindUserByOid(users + [u], o) == FindUserByOid(users, o)
    {
      FirstWhereAppend(users, (v: User) => v.oid == o, u);
    }
  }

  /** Registering an assistant keeps every earlier lookup of an assistant by storage identity. */
  lemma AssistantAppendKeepsFinds(assistants: seq<Assistant>, a: Assistant)
    ensures forall o :: FindAssistantByOid(assistants, o).Some? ==>
                          FindAssistantByOid(assistants + [a], o) == FindAssistantByOid(assistants, o)
  {
    forall o: ObjectId | FindAssistantByOid(assistants, o).Some?
      ensures FindAssistantByOid(assistants + [a], o) == FindAssistantByOid(assistants, o)
    {
      FirstWhereAppend(assistants, (b: Assistant) => b.oid == o, a);
    }
  }

  // ---------------------------------------------------------------- ids sent to /pending/completed

  /** An id as it arrives in a JSON body: absent, a number, or a string. */
  datatype IdArg = Absent | Num(n: int) | Str(s: string)

  /** The argument is there: neither absent nor the empty string. A numeric zero is there. */
  predicate Supplied(a: IdArg) {
    a.Num? || (a.Str? && a.s != [])
  }

  /** The number a query on a Number path reads from the argument, if it reads one: a number is
      itself, a string of decimal digits is its value. */
  function NumberCast(a: IdArg): Option<int> {
    match a
    case Num(n) => Some(n)
    case Str(s) => if IsDigits(s) then Some(DigitsValue(s)) else None
    case Absent => None
  }

  /** The argument reads as the public id `n`. */
  predicate ReadsAs(a: IdArg, n: int) {
    NumberCast(a) == Some(n)
  }

  /** The argument spells the storage identity `oid` in 24 hexadecimal digits. */
  predicate Spells(a: IdArg, oid: ObjectId) {
    a.Str? && IsHex24(a.s) && HexValue(a.s) == oid
  }

  /** The request /pending/completed means by `a`: the request whose public id the argument reads
      as; when there is none and the argument is 24 hexadecimal digits, the request whose storage
      identity they spell; otherwise none. */
  function ResolveRequest(requests: seq<Request>, a: IdArg): (r: Option<nat>)
    ensures r.Some? ==> r.value < |requests|
                        && (ReadsAs(a, requests[r.value].requestId) || Spells(a, requests[r.value].oid))
    ensures (exists k :: 0 <= k < |requests| && ReadsAs(a, requests[k].requestId))
            ==> r.Some? && ReadsAs(a, requests[r.value].requestId)
    ensures r.None? ==> && (forall k :: 0 <= k < |requests| ==> !ReadsAs(a, requests[k].requestId))
                        && (forall k :: 0 <= k < |requests| ==> !Spells(a, requests[k].oid))
  {
    var byPublicId := match NumberCast(a)
                      case Some(n) => FindRequest(requests, n)
                      case None => None;
    if byPublicId.Some? then byPublicId
    else if a.Str? && IsHex24(a.s) then FindRequestByOid(requests, HexValue(a.s))
    else None
  }

  /** Changing a request in ways that keep both of its ids keeps what every id argument resolves to. */
  lemma ResolveRequestUpdate(requests: seq<Request>, a: IdArg, i: nat, q: Request)
    requires i < |requests|
    requires q.requestId == requests[i].requestId && q.oid == requests[i].oid
    ensures ResolveRequest(requests[i := q], a) == ResolveRequest(requests, a)
  {
    if NumberCast(a).Some? {
      var n := NumberCast(a).value;
      FirstWhereUpdate(requests, (r: Request) => r.requestId == n, i, q);
    }
    if a.Str? && IsHex24(a.s) {
      FirstWhereUpdate(requests, (r: Request) => r.oid == HexValue(a.s), i, q);
    }
  }

  /** The text form of a stored request's identity, as /pending/check and the notification poll
      hand it out, leads back to that request whenever it does not also read as a public id in use. */
  lemma StorageTextResolves(requests: seq<Request>, k: nat)
    requires k < |requests| && requests[k].oid < Pow16(ObjectIdDigits)
    requires forall i, j :: 0 <= i < j < |requests| ==> requests[i].oid != requests[j].oid
    requires forall i :: 0 <= i < |requests| ==> !ReadsAs(Str(ObjectIdText(requests[k].oid)), requests[i].requestId)
    ensures ResolveRequest(requests, Str(ObjectIdText(requests[k].oid))) == Some(k)
  {
    var a := Str(ObjectIdText(requests[k].oid));
    var r := ResolveRequest(requests, a);
    assert Spells(a, requests[k].oid);
  }
}
