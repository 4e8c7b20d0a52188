/** What every store of the application satisfies, and why each handler that writes keeps it:
    the unique indexes hold, every stored document passes its schema, every storage identity is
    below the next free one, and every request names an existing user and assistant. */
module Consistency {
  import opened Wrappers
  import opened Schema
  import opened Lookup
  import opened Transitions
  import opened Feed
  import Queries

  // ---------------------------------------------------------------- what every store satisfies

  /** Users conform to their schema, have storage identities below `bound`, and no two share a
      storage identity, a public id or an e-mail address (the unique indexes). */
  predicate UsersValid(users: seq<User>, bound: ObjectId) {
    && (forall i :: 0 <= i < |users| ==> UserConforms(users[i]) && users[i].oid < bound)
    && (forall i, j :: 0 <= i < j < |users| ==>
          users[i].oid != users[j].oid && users[i].userId != users[j].userId && users[i].email != users[j].email)
  }

  predicate AssistantsValid(assistants: seq<Assistant>, bound: ObjectId) {
    && (forall i :: 0 <= i < |assistants| ==> AssistantConforms(assistants[i]) && assistants[i].oid < bound)
    && (forall i, j :: 0 <= i < j < |assistants| ==>
          && assistants[i].oid != assistants[j].oid && assistants[i].assistantId != assistants[j].assistantId
          && assistants[i].email != assistants[j].email)
  }

  predicate DoctorsValid(doctors: seq<Doctor>, bound: ObjectId) {
    && (forall i :: 0 <= i < |doctors| ==> doctors[i].oid < bound)
    && (forall i, j :: 0 <= i < j < |doctors| ==>
          doctors[i].oid != doctors[j].oid && doctors[i].doctorId != doctors[j].doctorId)
  }

  /** Requests conform, have distinct identities and public ids, and name an existing user and
      an existing assistant (every handler that writes a request sets both). */
  predicate RequestsValid(requests: seq<Request>, users: seq<User>, assistants: seq<Assistant>, bound: ObjectId) {
    && (forall i :: 0 <= i < |requests| ==>
          && RequestConforms(requests[i]) && requests[i].oid < bound
          && FindUserByOid(users, requests[i].user).Some?
          && requests[i].assistant.Some? && FindAssistantByOid(assistants, requests[i].assistant.value).Some?)
    && (forall i, j :: 0 <= i < j < |requests| ==>
          requests[i].oid != requests[j].oid && requests[i].requestId != requests[j].requestId)
  }

  predicate AppointmentsValid(appointments: seq<Appointment>, bound: ObjectId) {
    && (forall i :: 0 <= i < |appointments| ==> AppointmentConforms(appointments[i]) && appointments[i].oid < bound)
    && (forall i, j :: 0 <= i < j < |appointments| ==>
          appointments[i].oid != appointments[j].oid && appointments[i].appointmentId != appointments[j].appointmentId)
  }

  predicate PostsValid(posts: seq<Post>, bound: ObjectId) {
    && (forall i :: 0 <= i < |posts| ==> posts[i].oid < bound)
    && (forall i, j :: 0 <= i < j < |posts| ==> posts[i].oid != posts[j].oid)
  }

  predicate NotificationsValid(notifications: seq<Notification>, bound: ObjectId) {
    && (forall i :: 0 <= i < |notifications| ==> notifications[i].oid < bound)
    && (forall i, j :: 0 <= i < j < |notifications| ==> notifications[i].oid != notifications[j].oid)
  }

  /** Every collection of a store is valid against the others and below the next free identity. */
  predicate Consistent(users: seq<User>, assistants: seq<Assistant>, doctors: seq<Doctor>, requests: seq<Request>,
                       appointments: seq<Appointment>, posts: seq<Post>, notifications: seq<Notification>,
                       bound: ObjectId)
  {
    && UsersValid(users, bound)
    && AssistantsValid(assistants, bound)
    && DoctorsValid(doctors, bound)
    && RequestsValid(requests, users, assistants, bound)
    && AppointmentsValid(appointments, bound)
    && PostsValid(posts, bound)
    && NotificationsValid(notifications, bound)
  }

  // ---------------------------------------------------------------- how the handlers keep it

  /** Raising the bound on storage identities keeps every collection valid. */
  lemma RaiseBound(users: seq<User>, assistants: seq<Assistant>, doctors: seq<Doctor>,
                   appointments: seq<Appointment>, posts: seq<Post>, notifications: seq<Notification>,
                   bound: ObjectId, bound': ObjectId)
    requires bound <= bound'
    ensures UsersValid(users, bound) ==> UsersValid(users, bound')
    ensures AssistantsValid(assistants, bound) ==> AssistantsValid(assistants, bound')
    ensures DoctorsValid(doctors, bound) ==> DoctorsValid(doctors, bound')
    ensures AppointmentsValid(appointments, bound) ==> AppointmentsValid(appointments, bound')
    ensures PostsValid(posts, bound) ==> PostsValid(posts, bound')
    ensures NotificationsValid(notifications, bound) ==> NotificationsValid(notifications, bound')
  {
  }

  /** A request with the next storage identity, a public id not in use, and an existing user and
      assistant keeps the requests valid. */
  lemma RequestsGrow(requests: seq<Request>, users: seq<User>, assistants: seq<Assistant>, bound: ObjectId, q: Request)
    requires RequestsValid(requests, users, assistants, bound)
    requires RequestConforms(q) && q.oid == bound
    requires forall k :: 0 <= k < |requests| ==> requests[k].requestId != q.requestId
    requires FindUserByOid(users, q.user).Some?
    requires q.assistant.Some? && FindAssistantByOid(assistants, q.assistant.value).Some?
    ensures RequestsValid(requests + [q], users, assistants, bound + 1)
  {
    var rr := requests + [q];
    assert forall k :: 0 <= k < |requests| ==> rr[k] == requests[k];
  }

  /** Changing the status or the assistant of one request, to an existing assistant, keeps the
      requests valid. */
  lemma RequestsUpdate(requests: seq<Request>, users: seq<User>, assistants: seq<Assistant>, bound: ObjectId,
                       i: nat, q: Request)
    requires RequestsValid(requests, users, assistants, bound) && i < |requests|
    requires q.oid == requests[i].oid && q.requestId == requests[i].requestId && q.user == requests[i].user
    requires q.category == requests[i].category
    requires q.assistant.Some? && FindAssistantByOid(assistants, q.assistant.value).Some?
    ensures RequestsValid(requests[i := q], users, assistants, bound)
  {
  }

  /** Changing the status of one assistant keeps the assistants valid, and keeps the requests
      valid against them. */
  lemma AssistantStatusChange(requests: seq<Request>, users: seq<User>, assistants: seq<Assistant>, bound: ObjectId,
                              j: nat, s: AssistantStatus)
    requires j < |assistants| && AssistantsValid(assistants, bound) && RequestsValid(requests, users, assistants, bound)
    ensures AssistantsValid(WithStatus(assistants, j, s), bound)
    ensures RequestsValid(requests, users, WithStatus(assistants, j, s), bound)
  {
    AssistantUpdateKeepsFinds(assistants, j, assistants[j].(status := s));
  }

  /** A send keeps the store consistent. */
  lemma SendKeepsConsistent(users: seq<User>, assistants: seq<Assistant>, doctors: seq<Doctor>, requests: seq<Request>,
                            appointments: seq<Appointment>, posts: seq<Post>, notifications: seq<Notification>,
                            bound: ObjectId, f: SendForm, d: Draw, q: Request, requests': seq<Request>,
                            bound': ObjectId)
    requires Consistent(users, assistants, doctors, requests, appointments, posts, notifications, bound)
    requires IsUnitDraw(d) && PlanSend(users, assistants, requests, f, bound, d) == Ok(q)
    requires requests' == requests + [q] && bound' == bound + 1
    ensures Consistent(users, assistants, doctors, requests', appointments, posts, notifications, bound')
  {
    var k := FindUser(users, f.userId).value;
    var j := FindAssistant(assistants, f.assistantId).value;
    assert FindUserByOid(users, users[k].oid).Some?;
    assert FindAssistantByOid(assistants, assistants[j].oid).Some?;
    RequestsGrow(requests, users, assistants, bound, q);
    RaiseBound(users, assistants, doctors, appointments, posts, notifications, bound, bound + 1);
  }

  /** A confirm keeps the store consistent. */
  lemma ConfirmKeepsConsistent(users: seq<User>, assistants: seq<Assistant>, doctors: seq<Doctor>, requests: seq<Request>,
                               appointments: seq<Appointment>, posts: seq<Post>, notifications: seq<Notification>,
                               bound: ObjectId, i: nat, j: nat, requests': seq<Request>, assistants': seq<Assistant>)
    requires Consistent(users, assistants, doctors, requests, appointments, posts, notifications, bound)
    requires i < |requests| && j < |assistants|
    requires requests' == AcceptedBy(requests, i, assistants[j].oid) && assistants' == WithStatus(assistants, j, Busy)
    ensures Consistent(users, assistants', doctors, requests', appointments, posts, notifications, bound)
  {
    var a := assistants[j];
    assert FindAssistantByOid(assistants, a.oid).Some?;
    RequestsUpdate(requests, users, assistants, bound, i, requests[i].(status := Some(Accepted), assistant := Some(a.oid)));
    AssistantStatusChange(AcceptedBy(requests, i, a.oid), users, assistants, bound, j, Busy);
  }

  /** A complete keeps the store consistent. */
  lemma CompleteKeepsConsistent(users: seq<User>, assistants: seq<Assistant>, doctors: seq<Doctor>, requests: seq<Request>,
                                appointments: seq<Appointment>, posts: seq<Post>, notifications: seq<Notification>,
                                bound: ObjectId, i: nat, j: nat, requests': seq<Request>, assistants': seq<Assistant>)
    requires Consistent(users, assistants, doctors, requests, appointments, posts, notifications, bound)
    requires i < |requests| && j < |assistants|
    requires requests' == Finished(requests, i) && assistants' == WithStatus(assistants, j, Available)
    ensures Consistent(users, assistants', doctors, requests', appointments, posts, notifications, bound)
  {
    RequestsUpdate(requests, users, assistants, bound, i, requests[i].(status := Some(Completed)));
    AssistantStatusChange(Finished(requests, i), users, assistants, bound, j, Available);
  }

  /** A notification poll keeps the store consistent: it only sets `notified`. */
  lemma DeliveredKeepsConsistent(users: seq<User>, assistants: seq<Assistant>, doctors: seq<Doctor>, requests: seq<Request>,
                                 appointments: seq<Appointment>, posts: seq<Post>, notifications: seq<Notification>,
                                 bound: ObjectId, uOid: ObjectId, requests': seq<Request>)
    requires Consistent(users, assistants, doctors, requests, appointments, posts, notifications, bound)
    requires requests' == Queries.Delivered(requests, uOid)
    ensures Consistent(users, assistants, doctors, requests', appointments, posts, notifications, bound)
  {
    RequestsMarked(requests, users, assistants, bound, uOid);
  }

  lemma RequestsMarked(requests: seq<Request>, users: seq<User>, assistants: seq<Assistant>, bound: ObjectId,
                       uOid: ObjectId)
    requires RequestsValid(requests, users, assistants, bound)
    ensures RequestsValid(Queries.Delivered(requests, uOid), users, assistants, bound)
  {
    var rr := Queries.Delivered(requests, uOid);
    assert forall k :: 0 <= k < |requests| ==> rr[k] == Queries.Mark(requests[k], uOid);
  }

  /** Publishing a post keeps the store consistent. */
  lemma PublishKeepsConsistent(users: seq<User>, assistants: seq<Assistant>, doctors: seq<Doctor>, requests: seq<Request>,
                               appointments: seq<Appointment>, posts: seq<Post>, notifications: seq<Notification>,
                               bound: ObjectId, p: Post, posts': seq<Post>, bound': ObjectId)
    requires Consistent(users, assistants, doctors, requests, appointments, posts, notifications, bound)
    requires p.oid == bound && posts' == posts + [p] && bound' == bound + 1
    ensures Consistent(users, assistants, doctors, requests, appointments, posts', notifications, bound')
  {
    RaiseBound(users, assistants, doctors, appointments, posts, notifications, bound, bound + 1);
    assert forall k :: 0 <= k < |posts| ==> posts'[k] == posts[k];
  }

  /** A like or an unlike keeps the store consistent: the post keeps its identity, and the
      notification of a like takes the next storage identity. */
  lemma LikeKeepsConsistent(users: seq<User>, assistants: seq<Assistant>, doctors: seq<Doctor>, requests: seq<Request>,
                            appointments: seq<Appointment>, posts: seq<Post>, notifications: seq<Notification>,
                            bound: ObjectId, k: nat, m: nat,
                            posts': seq<Post>, notifications': seq<Notification>, bound': ObjectId)
    requires Consistent(users, assistants, doctors, requests, appointments, posts, notifications, bound)
    requires k < |users| && m < |posts|
    requires posts' == posts[m := posts[m].(likedBy := Toggled(posts[m].likedBy, users[k].oid))]
    requires users[k].oid in posts[m].likedBy ==> notifications' == notifications && bound' == bound
    requires users[k].oid !in posts[m].likedBy ==>
               notifications' == notifications + [LikeNotification(bound, posts[m], users[k])] && bound' == bound + 1
    ensures Consistent(users, assistants, doctors, requests, appointments, posts', notifications', bound')
  {
    RaiseBound(users, assistants, doctors, appointments, posts, notifications, bound, bound');
    assert PostsValid(posts', bound');
    if users[k].oid !in posts[m].likedBy {
      assert forall i :: 0 <= i < |notifications| ==> notifications'[i] == notifications[i];
    }
  }

  /** Adding an appointment keeps the store consistent. */
  lemma AddAppointmentKeepsConsistent(users: seq<User>, assistants: seq<Assistant>, doctors: seq<Doctor>,
                                      requests: seq<Request>, appointments: seq<Appointment>, posts: seq<Post>,
                                      notifications: seq<Notification>, bound: ObjectId, f: AppointmentForm, d: Draw,
                                      p: Appointment, appointments': seq<Appointment>, bound': ObjectId)
    requires Consistent(users, assistants, doctors, requests, appointments, posts, notifications, bound)
    requires IsUnitDraw(d) && PlanAddAppointment(users, doctors, appointments, f, bound, d) == Ok(p)
    requires appointments' == appointments + [p] && bound' == bound + 1
    ensures Consistent(users, assistants, doctors, requests, appointments', posts, notifications, bound')
  {
    RaiseBound(users, assistants, doctors, appointments, posts, notifications, bound, bound + 1);
    AppointmentsGrow(appointments, bound, p);
  }

  lemma AppointmentsGrow(appointments: seq<Appointment>, bound: ObjectId, p: Appointment)
    requires AppointmentsValid(appointments, bound) && AppointmentConforms(p) && p.oid == bound
    requires forall k :: 0 <= k < |appointments| ==> appointments[k].appointmentId != p.appointmentId
    ensures AppointmentsValid(appointments + [p], bound + 1)
  {
    var pp := appointments + [p];
    assert forall k :: 0 <= k < |appointments| ==> pp[k] == appointments[k];
  }

  /** Confirming an appointment keeps the store consistent: only its status changes. */
  lemma ConfirmAppointmentKeepsConsistent(users: seq<User>, assistants: seq<Assistant>, doctors: seq<Doctor>,
                                          requests: seq<Request>, appointments: seq<Appointment>, posts: seq<Post>,
                                          notifications: seq<Notification>, bound: ObjectId, i: nat,
                                          appointments': seq<Appointment>)
    requires Consistent(users, assistants, doctors, requests, appointments, posts, notifications, bound)
    requires i < |appointments| && appointments' == appointments[i := appointments[i].(status := Confirmed)]
    ensures Consistent(users, assistants, doctors, requests, appointments', posts, notifications, bound)
  {
  }

  /** Registering a user keeps the store consistent: the unique indexes were checked, and every
      request still finds its user. */
  lemma RegisterUserKeepsConsistent(users: seq<User>, assistants: seq<Assistant>, doctors: seq<Doctor>,
                                    requests: seq<Request>, appointments: seq<Appointment>, posts: seq<Post>,
                                    notifications: seq<Notification>, bound: ObjectId, f: UserForm, d: Draw,
                                    u: User, users': seq<User>, bound': ObjectId)
    requires Consistent(users, assistants, doctors, requests, appointments, posts, notifications, bound)
    requires IsUnitDraw(d) && PlanRegisterUser(users, f, bound, d) == Ok(u)
    requires users' == users + [u] && bound' == bound + 1
    ensures Consistent(users', assistants, doctors, requests, appointments, posts, notifications, bound')
  {
    RaiseBound(users, assistants, doctors, appointments, posts, notifications, bound, bound + 1);
    UsersGrow(users, bound, u);
    RequestsKeepUsers(requests, users, assistants, bound, u);
  }

  lemma UsersGrow(users: seq<User>, bound: ObjectId, u: User)
    requires UsersValid(users, bound) && UserConforms(u) && u.oid == bound
    requires forall k :: 0 <= k < |users| ==> users[k].userId != u.userId && users[k].email != u.email
    ensures UsersValid(users + [u], bound + 1)
  {
    var uu := users + [u];
    assert forall k :: 0 <= k < |users| ==> uu[k] == users[k];
  }

  lemma RequestsKeepUsers(requests: seq<Request>, users: seq<User>, assistants: seq<Assistant>, bound: ObjectId, u: User)
    requires RequestsValid(requests, users, assistants, bound)
    ensures RequestsValid(requests, users + [u], assistants, bound + 1)
  {
    UserAppendKeepsFinds(users, u);
  }

  /** Registering an assistant keeps the store consistent: the unique indexes were checked, and
      every request still finds its assistant. */
  lemma RegisterAssistantKeepsConsistent(users: seq<User>, assistants: seq<Assistant>, doctors: seq<Doctor>,
                                         requests: seq<Request>, appointments: seq<Appointment>, posts: seq<Post>,
                                         notifications: seq<Notification>, bound: ObjectId, f: AssistantForm, d: Draw,
                                         a: Assistant, assistants': seq<Assistant>, bound': ObjectId)
    requires Consistent(users, assistants, doctors, requests, appointments, posts, notifications, bound)
    requires IsUnitDraw(d) && PlanRegisterAssistant(assistants, f, bound, d) == Ok(a)
    requires assistants' == assistants + [a] && bound' == bound + 1
    ensures Consistent(users, assistants', doctors, requests, appointments, posts, notifications, bound')
  {
    RaiseBound(users, assistants, doctors, appointments, posts, notifications, bound, bound + 1);
    AssistantsGrow(assistants, bound, a);
    RequestsKeepAssistants(requests, users, assistants, bound, a);
  }

  lemma AssistantsGrow(assistants: seq<Assistant>, bound: ObjectId, a: Assistant)
    requires AssistantsValid(assistants, bound) && AssistantConforms(a) && a.oid == bound
    requires forall k :: 0 <= k < |assistants| ==> assistants[k].assistantId != a.assistantId && assistants[k].email != a.email
    ensures AssistantsValid(assistants + [a], bound + 1)
  {
    var aa := assistants + [a];
    assert forall k :: 0 <= k < |assistants| ==> aa[k] == assistants[k];
  }

  lemma RequestsKeepAssistants(requests: seq<Request>, users: seq<User>, assistants: seq<Assistant>, bound: ObjectId,
                               a: Assistant)
    requires RequestsValid(requests, users, assistants, bound)
    ensures RequestsValid(requests, users, assistants + [a], bound + 1)
  {
    AssistantAppendKeepsFinds(assistants, a);
  }
}
