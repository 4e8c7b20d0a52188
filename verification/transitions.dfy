/** What each state-changing handler decides, as a function of the collections it reads: the
    error it answers with, in the order its checks run, or the documents it writes. The store's
    methods carry these decisions out; the lemmas here relate the handlers to one another. */
module Transitions {
  import opened Wrappers
  import opened Text
  import opened Schema
  import opened Errors
  import opened Lookup
  import opened Feed

  // ---------------------------------------------------------------- POST /pending/send

  /** The body of /pending/send; both ids are public ids. */
  datatype SendForm = SendForm(userId: int, assistantId: int, category: Option<string>,
                               description: Option<string>,
                               latitude: Option<real>, longitude: Option<real>)

  /** The assistant with this public id exists and its status is 'available'. */
  predicate IsAvailable(assistants: seq<Assistant>, assistantId: int) {
    var j := FindAssistant(assistants, assistantId);
    j.Some? && assistants[j.value].status == Available
  }

  /** The request /pending/send creates, or why it creates none. The availability of the assistant
      is checked before the user; the new request is 'pending', owned by the user, assigned to the
      assistant, not yet notified, and its public id must not be in use. */
  function PlanSend(users: seq<User>, assistants: seq<Assistant>, requests: seq<Request>,
                    f: SendForm, oid: ObjectId, d: Draw): (r: Result<Request, Error>)
    requires IsUnitDraw(d)
    ensures r == Err(AssistantUnavailable) <==> !IsAvailable(assistants, f.assistantId)
    ensures r == Err(UserNotFound) <==> IsAvailable(assistants, f.assistantId) && FindUser(users, f.userId).None?
    ensures r == Err(Rejected(ValidationFailed)) <==>
              IsAvailable(assistants, f.assistantId) && FindUser(users, f.userId).Some? && !Filled(f.category)
    ensures r == Err(Rejected(DuplicateKey)) <==>
              IsAvailable(assistants, f.assistantId) && FindUser(users, f.userId).Some? && Filled(f.category)
              && FindRequest(requests, PublicId(d)).Some?
    ensures r.Ok? <==> IsAvailable(assistants, f.assistantId) && FindUser(users, f.userId).Some?
                       && Filled(f.category) && FindRequest(requests, PublicId(d)).None?
    ensures r.Ok? ==> var q := r.value;
                      && q.oid == oid && q.requestId == PublicId(d) && RequestConforms(q)
                      && (forall k :: 0 <= k < |requests| ==> requests[k].requestId != q.requestId)
                      && q.user == users[FindUser(users, f.userId).value].oid
                      && q.assistant == Some(assistants[FindAssistant(assistants, f.assistantId).value].oid)
                      && q.status == Some(Pending) && !q.notified
                      && q.category == f.category.value && q.description == f.description
                      && q.latitude == f.latitude && q.longitude == f.longitude
  {
    if !IsAvailable(assistants, f.assistantId) then Err(AssistantUnavailable)
    else
      var a := assistants[FindAssistant(assistants, f.assistantId).value];
      match FindUser(users, f.userId)
      case None => Err(UserNotFound)
      case Some(k) =>
        var draft := RequestDraft(Some(users[k].oid), Some(a.oid), f.category, f.description,
                                  f.latitude, f.longitude, Some(Pending));
        match NewRequest(oid, d, draft)
        case Err(e) => Err(Rejected(e))
        case Ok(q) => if FindRequest(requests, q.requestId).Some? then Err(Rejected(DuplicateKey)) else Ok(q)
  }

  // ---------------------------------------------------------------- POST /pending/confirm

  /** The request and the assistant /pending/confirm acts on: found by their public ids, the
      request first. Neither the request's status nor its current assistant is consulted. */
  function PlanConfirm(requests: seq<Request>, assistants: seq<Assistant>,
                       requestId: int, assistantId: int): (r: Result<(nat, nat), Error>)
    ensures r == Err(RequestNotFound) <==> FindRequest(requests, requestId).None?
    ensures r == Err(AssistantNotFound) <==>
              FindRequest(requests, requestId).Some? && FindAssistant(assistants, assistantId).None?
    ensures r.Ok? <==> FindRequest(requests, requestId).Some? && FindAssistant(assistants, assistantId).Some?
    ensures r.Ok? ==> && r.value.0 < |requests| && requests[r.value.0].requestId == requestId
                      && r.value.1 < |assistants| && assistants[r.value.1].assistantId == assistantId
  {
    match FindRequest(requests, requestId)
    case None => Err(RequestNotFound)
    case Some(i) =>
      match FindAssistant(assistants, assistantId)
      case None => Err(AssistantNotFound)
      case Some(j) => Ok((i, j))
  }

  /** The requests after request `i` is accepted by the assistant with storage identity `aOid`. */
  function AcceptedBy(requests: seq<Request>, i: nat, aOid: ObjectId): seq<Request>
    requires i < |requests|
  {
    requests[i := requests[i].(status := Some(Accepted), assistant := Some(aOid))]
  }

  /** The assistants after assistant `j` takes status `s`. */
  function WithStatus(assistants: seq<Assistant>, j: nat, s: AssistantStatus): seq<Assistant>
    requires j < |assistants|
  {
    assistants[j := assistants[j].(status := s)]
  }

  // ---------------------------------------------------------------- POST /pending/completed

  /** The assistant /pending/completed names: the argument read as a public id (None when it does
      not read as a number, which makes the query throw). */
  function NamedAssistant(assistants: seq<Assistant>, a: IdArg): Option<nat> {
    match NumberCast(a)
    case None => None
    case Some(n) => FindAssistant(assistants, n)
  }

  /** The request and the assistant /pending/completed acts on, or why it refuses. The checks run in
      this order: both ids supplied, the assistant found, the request found (by public id, then by
      storage id), the request not already completed, the request assigned to that assistant. A
      pending request may be completed. */
  function PlanComplete(requests: seq<Request>, assistants: seq<Assistant>,
                        requestArg: IdArg, assistantArg: IdArg): (r: Result<(nat, nat), Error>)
    ensures r == Err(IdsRequired) <==> !Supplied(requestArg) || !Supplied(assistantArg)
    ensures Supplied(requestArg) && Supplied(assistantArg) ==>
              var j := NamedAssistant(assistants, assistantArg);
              var i := ResolveRequest(requests, requestArg);
              && (r == Err(Thrown) <==>
                    || NumberCast(assistantArg).None?
                    || (j.Some? && i.Some? && requests[i.value].status != Some(Completed) && requests[i.value].assistant.None?))
              && (r == Err(AssistantNotFound) <==> NumberCast(assistantArg).Some? && j.None?)
              && (r == Err(RequestNotFound) <==> j.Some? && i.None?)
              && (r == Err(AlreadyCompleted) <==> j.Some? && i.Some? && requests[i.value].status == Some(Completed))
              && (r == Err(NotOwner) <==>
                    && j.Some? && i.Some? && requests[i.value].status != Some(Completed)
                    && requests[i.value].assistant.Some? && requests[i.value].assistant.value != assistants[j.value].oid)
              && (r.Ok? <==>
                    && j.Some? && i.Some? && requests[i.value].status != Some(Completed)
                    && requests[i.value].assistant == Some(assistants[j.value].oid))
              && (r.Ok? ==> r.value == (i.value, j.value))
    ensures r.Ok? ==> && r.value.0 < |requests| && r.value.1 < |assistants|
                      && ReadsAs(assistantArg, assistants[r.value.1].assistantId)
                      && requests[r.value.0].assistant == Some(assistants[r.value.1].oid)
                      && requests[r.value.0].status != Some(Completed)
  {
    if !Supplied(requestArg) || !Supplied(assistantArg) then Err(IdsRequired)
    else if NumberCast(assistantArg).None? then Err(Thrown)
    else match FindAssistant(assistants, NumberCast(assistantArg).value)
      case None => Err(AssistantNotFound)
      case Some(j) =>
        match ResolveRequest(requests, requestArg)
        case None => Err(RequestNotFound)
        case Some(i) =>
          var q := requests[i];
          if q.status == Some(Completed) then Err(AlreadyCompleted)
          else if q.assistant.None? then Err(Thrown)
          else if q.assistant.value != assistants[j].oid then Err(NotOwner)
          else Ok((i, j))
  }

  /** The requests after request `i` is marked completed. */
  function Finished(requests: seq<Request>, i: nat): seq<Request>
    requires i < |requests|
  {
    requests[i := requests[i].(status := Some(Completed))]
  }

  /** A completed request cannot be completed again: repeating the same call is refused. */
  lemma CompleteTwiceRejected(requests: seq<Request>, assistants: seq<Assistant>,
                              requestArg: IdArg, assistantArg: IdArg)
    requires PlanComplete(requests, assistants, requestArg, assistantArg).Ok?
    ensures var (i, j) := PlanComplete(requests, assistants, requestArg, assistantArg).value;
            PlanComplete(Finished(requests, i), WithStatus(assistants, j, Available), requestArg, assistantArg)
              == Err(AlreadyCompleted)
  {
    var (i, j) := PlanComplete(requests, assistants, requestArg, assistantArg).value;
    ResolveRequestUpdate(requests, requestArg, i, requests[i].(status := Some(Completed)));
    AssistantUpdateKeepsFinds(assistants, j, assistants[j].(status := Available));
  }

  // ---------------------------------------------------------------- the assistants' status

  /** Every busy assistant has an accepted request assigned to it. */
  predicate BusyAreEngaged(assistants: seq<Assistant>, requests: seq<Request>) {
    forall j :: 0 <= j < |assistants| && assistants[j].status == Busy ==>
      exists i :: 0 <= i < |requests| && Engages(requests[i], assistants[j].oid)
  }

  /** Every assistant with an accepted request assigned to it is busy. */
  predicate EngagedAreBusy(assistants: seq<Assistant>, requests: seq<Request>) {
    forall i, j :: 0 <= i < |requests| && 0 <= j < |assistants| && Engages(requests[i], assistants[j].oid) ==>
      assistants[j].status == Busy
  }

  /** Request `q` is accepted and assigned to the assistant with storage identity `aOid`. */
  predicate Engages(q: Request, aOid: ObjectId) {
    q.status == Some(Accepted) && q.assistant == Some(aOid)
  }

  predicate UniqueAssistantOids(assistants: seq<Assistant>) {
    forall j, k :: 0 <= j < k < |assistants| ==> assistants[j].oid != assistants[k].oid
  }

  /** A send adds a pending request and changes no assistant, so it keeps both invariants. */
  lemma SendKeepsInvariants(assistants: seq<Assistant>, requests: seq<Request>, q: Request)
    requires q.status == Some(Pending)
    ensures BusyAreEngaged(assistants, requests) ==> BusyAreEngaged(assistants, requests + [q])
    ensures EngagedAreBusy(assistants, requests) ==> EngagedAreBusy(assistants, requests + [q])
  {
    var after := requests + [q];
    assert forall i :: 0 <= i < |requests| ==> after[i] == requests[i];
  }

  /** A confirm makes the confirming assistant busy, so every assistant with an accepted request
      stays busy. */
  lemma ConfirmKeepsEngagedBusy(assistants: seq<Assistant>, requests: seq<Request>, i: nat, j: nat)
    requires i < |requests| && j < |assistants| && UniqueAssistantOids(assistants)
    ensures EngagedAreBusy(assistants, requests) ==>
              EngagedAreBusy(WithStatus(assistants, j, Busy), AcceptedBy(requests, i, assistants[j].oid))
  {
    if !EngagedAreBusy(assistants, requests) {
      return;
    }
    var aa := WithStatus(assistants, j, Busy);
    var rr := AcceptedBy(requests, i, assistants[j].oid);
    forall i', j' | 0 <= i' < |rr| && 0 <= j' < |aa| && Engages(rr[i'], aa[j'].oid)
      ensures aa[j'].status == Busy
    {
      if i' == i {
        assert aa[j'].oid == assistants[j].oid;
      }
    }
  }

  /** A confirm does not free the request's previous assistant: re-assigning an accepted request
      leaves its first assistant busy with nothing accepted. */
  lemma ConfirmCanStrandBusy()
    ensures var first := Assistant(1, 10, "A", "a@x", None, None, 0.0, 0.0, Busy);
            var second := Assistant(2, 20, "B", "b@x", None, None, 0.0, 0.0, Available);
            var q := Request(3, 30, 4, Some(1), "care", None, None, None, Some(Accepted), true);
            && BusyAreEngaged([first, second], [q])
            && PlanConfirm([q], [first, second], 30, 20) == Ok((0, 1))
            && !BusyAreEngaged(WithStatus([first, second], 1, Busy), AcceptedBy([q], 0, 2))
  {
    var first := Assistant(1, 10, "A", "a@x", None, None, 0.0, 0.0, Busy);
    var second := Assistant(2, 20, "B", "b@x", None, None, 0.0, 0.0, Available);
    var q := Request(3, 30, 4, Some(1), "care", None, None, None, Some(Accepted), true);
    assert Engages([q][0], [first, second][0].oid);
    var named := (a: Assistant) => a.assistantId == 20;
    assert [first, second][1..] == [second];
    assert FirstWhere([second], named) == Some(0);
    var aa := WithStatus([first, second], 1, Busy);
    var after := AcceptedBy([q], 0, 2);
    assert aa[0].status == Busy && aa[0].oid == 1;
    assert !Engages(after[0], 1);
  }

  /** A complete frees the completing assistant only after checking the request is its own, so
      every busy assistant keeps an accepted request. */
  lemma CompleteKeepsBusyEngaged(assistants: seq<Assistant>, requests: seq<Request>,
                                 requestArg: IdArg, assistantArg: IdArg)
    requires UniqueAssistantOids(assistants)
    requires PlanComplete(requests, assistants, requestArg, assistantArg).Ok?
    ensures var (i, j) := PlanComplete(requests, assistants, requestArg, assistantArg).value;
            BusyAreEngaged(assistants, requests) ==>
              BusyAreEngaged(WithStatus(assistants, j, Available), Finished(requests, i))
  {
    if !BusyAreEngaged(assistants, requests) {
      return;
    }
    var (i, j) := PlanComplete(requests, assistants, requestArg, assistantArg).value;
    var aa := WithStatus(assistants, j, Available);
    var rr := Finished(requests, i);
    forall j' | 0 <= j' < |aa| && aa[j'].status == Busy
      ensures exists i' :: 0 <= i' < |rr| && Engages(rr[i'], aa[j'].oid)
    {
      var i' :| 0 <= i' < |requests| && Engages(requests[i'], assistants[j'].oid);
      assert j' != j;
      assert Engages(rr[i'], aa[j'].oid);
    }
  }

  /** A complete frees the assistant even when the completed request was only pending and another
      of its requests is still accepted. */
  lemma CompleteCanFreeEngaged()
    ensures var a := Assistant(1, 10, "A", "a@x", None, None, 0.0, 0.0, Busy);
            var accepted := Request(2, 20, 5, Some(1), "care", None, None, None, Some(Accepted), false);
            var pending := Request(3, 30, 5, Some(1), "care", None, None, None, Some(Pending), false);
            && EngagedAreBusy([a], [accepted, pending])
            && PlanComplete([accepted, pending], [a], Num(30), Num(10)) == Ok((1, 0))
            && !EngagedAreBusy(WithStatus([a], 0, Available), Finished([accepted, pending], 1))
  {
    var a := Assistant(1, 10, "A", "a@x", None, None, 0.0, 0.0, Busy);
    var accepted := Request(2, 20, 5, Some(1), "care", None, None, None, Some(Accepted), false);
    var pending := Request(3, 30, 5, Some(1), "care", None, None, None, Some(Pending), false);
    var after := Finished([accepted, pending], 1);
    assert Engages(after[0], WithStatus([a], 0, Available)[0].oid);
  }

  /** A request just sent can be confirmed by its public id, and the confirm acts on that very
      request, whatever assistant confirms it. */
  lemma SendThenConfirm(users: seq<User>, assistants: seq<Assistant>, requests: seq<Request>,
                        f: SendForm, oid: ObjectId, d: Draw, assistantId: int)
    requires IsUnitDraw(d) && PlanSend(users, assistants, requests, f, oid, d).Ok?
    requires FindAssistant(assistants, assistantId).Some?
    ensures var q := PlanSend(users, assistants, requests, f, oid, d).value;
            PlanConfirm(requests + [q], assistants, q.requestId, assistantId)
              == Ok((|requests|, FindAssistant(assistants, assistantId).value))
  {
    var q := PlanSend(users, assistants, requests, f, oid, d).value;
    FirstWhereAppend(requests, (r: Request) => r.requestId == q.requestId, q);
  }

  // ---------------------------------------------------------------- the feed

  /** The post /user/feed/post creates for the user with this public id, or why it creates none. */
  function PlanPublish(users: seq<User>, userId: int, content: Option<string>, media: Option<string>,
                       oid: ObjectId): (r: Result<Post, Error>)
    ensures r == Err(UserNotFound) <==> FindUser(users, userId).None?
    ensures r == Err(Rejected(ValidationFailed)) <==> FindUser(users, userId).Some? && !Filled(content)
    ensures r.Ok? <==> FindUser(users, userId).Some? && Filled(content)
    ensures r.Ok? ==> && r.value.oid == oid && r.value.user == users[FindUser(users, userId).value].oid
                      && r.value.content == content.value && r.value.media == media && r.value.likedBy == []
  {
    match FindUser(users, userId)
    case None => Err(UserNotFound)
    case Some(k) =>
      match NewPost(oid, Some(users[k].oid), content, media)
      case Err(e) => Err(Rejected(e))
      case Ok(p) => Ok(p)
  }

  /** The user and the post /user/feed/like acts on; the user is looked up first. */
  function PlanLike(users: seq<User>, posts: seq<Post>, userId: int, postOid: ObjectId): (r: Result<(nat, nat), Error>)
    ensures r == Err(UserNotFound) <==> FindUser(users, userId).None?
    ensures r == Err(PostNotFound) <==> FindUser(users, userId).Some? && FindPost(posts, postOid).None?
    ensures r.Ok? <==> FindUser(users, userId).Some? && FindPost(posts, postOid).Some?
    ensures r.Ok? ==> && r.value.0 < |users| && users[r.value.0].userId == userId
                      && r.value.1 < |posts| && posts[r.value.1].oid == postOid
  {
    match FindUser(users, userId)
    case None => Err(UserNotFound)
    case Some(k) =>
      match FindPost(posts, postOid)
      case None => Err(PostNotFound)
      case Some(m) => Ok((k, m))
  }

  /** The notification a like by `liker` sends to the author of `post`; its save always passes
      validation, since the author is set and the text is never empty. */
  function LikeNotification(oid: ObjectId, post: Post, liker: User): (n: Notification)
    ensures NewNotification(oid, NotificationDraft(Some(post.user), Some(LikeNotice(liker.name)), Some(false), Some(post.oid)))
            == Ok(n)
    ensures n.oid == oid && n.user == post.user && !n.isRead && n.post == Some(post.oid)
  {
    NewNotification(oid, NotificationDraft(Some(post.user), Some(LikeNotice(liker.name)), Some(false), Some(post.oid))).value
  }

  // ---------------------------------------------------------------- POST /doctor/appointment/add

  /** The body of /doctor/appointment/add: public ids, and the instant the date and time strings
      denote (None when they denote no valid date). */
  datatype AppointmentForm = AppointmentForm(userId: int, doctorId: int, time: Option<int>)

  /** The appointment /doctor/appointment/add creates, or why it creates none: the user is looked up
      before the doctor, and the new appointment is requested ('pending') for that user and doctor. */
  function PlanAddAppointment(users: seq<User>, doctors: seq<Doctor>, appointments: seq<Appointment>,
                              f: AppointmentForm, oid: ObjectId, d: Draw): (r: Result<Appointment, Error>)
    requires IsUnitDraw(d)
    ensures r == Err(UserNotFound) <==> FindUser(users, f.userId).None?
    ensures r == Err(DoctorNotFound) <==> FindUser(users, f.userId).Some? && FindDoctor(doctors, f.doctorId).None?
    ensures r == Err(Rejected(ValidationFailed)) <==>
              FindUser(users, f.userId).Some? && FindDoctor(doctors, f.doctorId).Some? && f.time.None?
    ensures r == Err(Rejected(DuplicateKey)) <==>
              FindUser(users, f.userId).Some? && FindDoctor(doctors, f.doctorId).Some? && f.time.Some?
              && FindAppointment(appointments, PublicId(d)).Some?
    ensures r.Ok? <==> FindUser(users, f.userId).Some? && FindDoctor(doctors, f.doctorId).Some? && f.time.Some?
                       && FindAppointment(appointments, PublicId(d)).None?
    ensures r.Ok? ==> var p := r.value;
                      && p.oid == oid && p.appointmentId == PublicId(d) && AppointmentConforms(p)
                      && (forall k :: 0 <= k < |appointments| ==> appointments[k].appointmentId != p.appointmentId)
                      && p.user == users[FindUser(users, f.userId).value].oid
                      && p.doctor == doctors[FindDoctor(doctors, f.doctorId).value].oid
                      && p.time == f.time.value && p.status == Requested
  {
    match FindUser(users, f.userId)
    case None => Err(UserNotFound)
    case Some(k) =>
      match FindDoctor(doctors, f.doctorId)
      case None => Err(DoctorNotFound)
      case Some(m) =>
        match NewAppointment(oid, d, AppointmentDraft(Some(users[k].oid), Some(doctors[m].oid), f.time, Some(Requested)))
        case Err(e) => Err(Rejected(e))
        case Ok(p) => if FindAppointment(appointments, p.appointmentId).Some? then Err(Rejected(DuplicateKey)) else Ok(p)
  }

  // ---------------------------------------------------------------- POST /doctor/appointment/confirm

  /** The appointment /doctor/appointment/confirm confirms: found by its public id; the doctor must
      exist but need not be the appointment's doctor, and the current status is not consulted. */
  function PlanConfirmAppointment(appointments: seq<Appointment>, doctors: seq<Doctor>,
                                  appointmentId: int, doctorId: int): (r: Result<nat, Error>)
    ensures r == Err(AppointmentNotFound) <==> FindAppointment(appointments, appointmentId).None?
    ensures r == Err(DoctorNotFound) <==>
              FindAppointment(appointments, appointmentId).Some? && FindDoctor(doctors, doctorId).None?
    ensures r.Ok? <==> FindAppointment(appointments, appointmentId).Some? && FindDoctor(doctors, doctorId).Some?
    ensures r.Ok? ==> r.value < |appointments| && appointments[r.value].appointmentId == appointmentId
  {
    match FindAppointment(appointments, appointmentId)
    case None => Err(AppointmentNotFound)
    case Some(i) =>
      match FindDoctor(doctors, doctorId)
      case None => Err(DoctorNotFound)
      case Some(_) => Ok(i)
  }

  // ---------------------------------------------------------------- registrations

  /** The user /user/register creates, or why it creates none. The lookup for an existing account
      runs its e-mail value through the same `trim` and `lowercase` setters as a save does, so it
      finds the account whatever the case or padding of the address. Once that lookup has found
      nothing, the unique index on the address cannot clash; only the one on the public id can. */
  function PlanRegisterUser(users: seq<User>, f: UserForm, oid: ObjectId, d: Draw): (r: Result<User, Error>)
    requires IsUnitDraw(d)
    ensures r == Err(EmailTaken) <==> f.email.Some? && FindUserByEmail(users, NormalizeEmail(f.email.value)).Some?
    ensures r == Err(Rejected(ValidationFailed)) <==>
              !(f.email.Some? && FindUserByEmail(users, NormalizeEmail(f.email.value)).Some?) && NewUser(oid, d, f).Err?
    ensures r == Err(Rejected(DuplicateKey)) <==>
              && !(f.email.Some? && FindUserByEmail(users, NormalizeEmail(f.email.value)).Some?) && NewUser(oid, d, f).Ok?
              && FindUser(users, PublicId(d)).Some?
    ensures r.Ok? <==> && !(f.email.Some? && FindUserByEmail(users, NormalizeEmail(f.email.value)).Some?)
                       && NewUser(oid, d, f).Ok? && FindUser(users, PublicId(d)).None?
    ensures r.Ok? ==> && NewUser(oid, d, f) == Ok(r.value)
                      && (forall k :: 0 <= k < |users| ==> users[k].userId != r.value.userId)
                      && (forall k :: 0 <= k < |users| ==> users[k].email != r.value.email)
  {
    if f.email.Some? && FindUserByEmail(users, NormalizeEmail(f.email.value)).Some? then Err(EmailTaken)
    else match NewUser(oid, d, f)
      case Err(e) => Err(Rejected(e))
      case Ok(u) => if FindUser(users, u.userId).Some? then Err(Rejected(DuplicateKey)) else Ok(u)
  }

  /** The assistant /assistant/register creates, or why it creates none; it starts 'available'. */
  function PlanRegisterAssistant(assistants: seq<Assistant>, f: AssistantForm, oid: ObjectId, d: Draw): (r: Result<Assistant, Error>)
    requires IsUnitDraw(d)
    ensures r == Err(EmailTaken) <==> f.email.Some? && FindAssistantByEmail(assistants, f.email.value).Some?
    ensures r == Err(Rejected(ValidationFailed)) <==>
              !(f.email.Some? && FindAssistantByEmail(assistants, f.email.value).Some?) && NewAssistant(oid, d, f).Err?
    ensures r.Ok? ==> && NewAssistant(oid, d, f) == Ok(r.value) && r.value.status == Available
                      && (forall k :: 0 <= k < |assistants| ==> assistants[k].assistantId != r.value.assistantId)
                      && (forall k :: 0 <= k < |assistants| ==> assistants[k].email != r.value.email)
    ensures r == Err(Rejected(DuplicateKey)) <==>
              && !(f.email.Some? && FindAssistantByEmail(assistants, f.email.value).Some?) && NewAssistant(oid, d, f).Ok?
              && FindAssistant(assistants, PublicId(d)).Some?
    ensures r.Ok? <==> && !(f.email.Some? && FindAssistantByEmail(assistants, f.email.value).Some?)
                       && NewAssistant(oid, d, f).Ok? && FindAssistant(assistants, PublicId(d)).None?
  {
    if f.email.Some? && FindAssistantByEmail(assistants, f.email.value).Some? then Err(EmailTaken)
    else match NewAssistant(oid, d, f)
      case Err(e) => Err(Rejected(e))
      case Ok(a) => if FindAssistant(assistants, a.assistantId).Some? then Err(Rejected(DuplicateKey)) else Ok(a)
  }

  /** The id the assistant registration answers with: the public id, or the storage identity when
      the public id is 0 (which the `||` fallback treats as missing). */
  datatype AssistantRef = PublicRef(assistantId: nat) | StorageRef(oid: ObjectId)

  function RegistrationReply(a: Assistant): (r: AssistantRef)
    ensures r.PublicRef? <==> a.assistantId != 0
    ensures r.PublicRef? ==> r.assistantId == a.assistantId
    ensures r.StorageRef? ==> r.oid == a.oid
  {
    if a.assistantId != 0 then PublicRef(a.assistantId) else StorageRef(a.oid)
  }
}
