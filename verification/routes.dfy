/** The router of routes/RouteUser.js over an in-memory store of the collections. Each handler
    that writes is a method of the store, run as one atomic step: it takes its decision from
    module Transitions and then updates the collections it names. Reads are the functions of
    module Queries applied to the store's fields. */
module Routes {
  import opened Wrappers
  import opened Schema
  import opened Errors
  import opened Lookup
  import opened Queries
  import opened Feed
  import opened Transitions
  import opened Consistency

  /** The store of the application's collections, each in insertion order, and the source of fresh
      storage identities. */
  class Store {
    var users: seq<User>
    var assistants: seq<Assistant>
    var doctors: seq<Doctor>
    var requests: seq<Request>
    var appointments: seq<Appointment>
    var posts: seq<Post>
    var notifications: seq<Notification>
    var nextOid: ObjectId

    ghost predicate Valid()
      reads this
    {
      Consistent(users, assistants, doctors, requests, appointments, posts, notifications, nextOid)
    }

    /** A store holding the doctors on record and nothing else; identities from `firstOid` on are free. */
    constructor(doctors0: seq<Doctor>, firstOid: ObjectId)
      requires DoctorsValid(doctors0, firstOid)
      ensures Valid()
      ensures doctors == doctors0 && nextOid == firstOid
      ensures users == [] && assistants == [] && requests == [] && appointments == []
      ensures posts == [] && notifications == []
    {
      users := [];
      assistants := [];
      doctors := doctors0;
      requests := [];
      appointments := [];
      posts := [];
      notifications := [];
      nextOid := firstOid;
    }

    /** POST /pending/send: on success the store holds one more request, the one PlanSend
        describes, and the reply is its public id; nothing else changes, the assistant's status
        included. */
    method Send(f: SendForm, d: Draw) returns (r: Result<nat, Error>)
      requires Valid() && IsUnitDraw(d)
      modifies this`requests, this`nextOid
      ensures Valid()
      ensures match PlanSend(old(users), old(assistants), old(requests), f, old(nextOid), d)
              case Err(e) => r == Err(e) && requests == old(requests) && nextOid == old(nextOid)
              case Ok(q) => r == Ok(q.requestId) && requests == old(requests) + [q] && nextOid == old(nextOid) + 1
    {
      match PlanSend(users, assistants, requests, f, nextOid, d)
      case Err(e) =>
        return Err(e);
      case Ok(q) =>
        ghost var requests0, nextOid0 := requests, nextOid;
        requests := requests + [q];
        nextOid := nextOid + 1;
        SendKeepsConsistent(users, assistants, doctors, requests0, appointments, posts, notifications, nextOid0, f, d, q, requests, nextOid);
        return Ok(q.requestId);
    }

    /** POST /pending/confirm: on success the request is accepted and assigned to the confirming
        assistant, and that assistant is busy; a refusal changes nothing. */
    method Confirm(requestId: int, assistantId: int) returns (r: Outcome<Error>)
      requires Valid()
      modifies this`requests, this`assistants
      ensures Valid()
      ensures match PlanConfirm(old(requests), old(assistants), requestId, assistantId)
              case Err(e) => r == Fail(e) && requests == old(requests) && assistants == old(assistants)
              case Ok((i, j)) => && r == Pass
                                 && requests == AcceptedBy(old(requests), i, old(assistants)[j].oid)
                                 && assistants == WithStatus(old(assistants), j, Busy)
    {
      match PlanConfirm(requests, assistants, requestId, assistantId)
      case Err(e) =>
        return Fail(e);
      case Ok((i, j)) =>
        ghost var requests0, assistants0 := requests, assistants;
        requests := AcceptedBy(requests, i, assistants[j].oid);
        assistants := WithStatus(assistants, j, Busy);
        ConfirmKeepsConsistent(users, assistants0, doctors, requests0, appointments, posts, notifications, nextOid, i, j,
                               requests, assistants);
        return Pass;
    }

    /** POST /pending/completed: on success the request is completed and its assistant available,
        and the reply carries both new statuses; a refusal changes nothing. Since every stored request
        has an assistant, the handler throws only when the assistant id does not read as a number. */
    method Complete(requestArg: IdArg, assistantArg: IdArg) returns (r: Result<(RequestStatus, AssistantStatus), Error>)
      requires Valid()
      modifies this`requests, this`assistants
      ensures Valid()
      ensures match PlanComplete(old(requests), old(assistants), requestArg, assistantArg)
              case Err(e) => r == Err(e) && requests == old(requests) && assistants == old(assistants)
              case Ok((i, j)) => && r == Ok((Completed, Available))
                                 && requests == Finished(old(requests), i)
                                 && assistants == WithStatus(old(assistants), j, Available)
      ensures r == Err(Thrown) ==> NumberCast(assistantArg).None?
    {
      match PlanComplete(requests, assistants, requestArg, assistantArg)
      case Err(e) =>
        return Err(e);
      case Ok((i, j)) =>
        ghost var requests0, assistants0 := requests, assistants;
        requests := Finished(requests, i);
        assistants := WithStatus(assistants, j, Available);
        CompleteKeepsConsistent(users, assistants0, doctors, requests0, appointments, posts, notifications, nextOid, i, j,
                                requests, assistants);
        return Ok((Completed, Available));
    }
  
    /** GET /pending/notification/:userId: the reply lists the user's accepted requests that were
        not yet notified, in store order, and each of them is marked notified; an empty list is
        the reply without content. An unknown user changes nothing. */
    method TakeNotifications(userId: int) returns (r: Result<seq<Delivery>, Error>)
      requires Valid()
      modifies this`requests
      ensures Valid()
      ensures match FindUser(users, userId)
              case None => r == Err(UserNotFound) && requests == old(requests)
              case Some(k) => && r == Ok(Inbox(old(requests), assistants, users[k].oid))
                              && requests == Delivered(old(requests), users[k].oid)
    {
      match FindUser(users, userId)
      case None =>
        return Err(UserNotFound);
      case Some(k) =>
        ghost var requests0 := requests;
        var out := Deliver(users[k].oid);
        DeliveredKeepsConsistent(users, assistants, doctors, requests0, appointments, posts, notifications, nextOid,
                                 users[k].oid, requests);
        return Ok(out);
    }

    /** The poll's walk over the requests of user `uOid`: each accepted, not yet notified request
        is marked notified as its delivery is added to the reply. */
    method Deliver(uOid: ObjectId) returns (out: seq<Delivery>)
      modifies this`requests
      ensures out == Inbox(old(requests), assistants, uOid)
      ensures requests == Delivered(old(requests), uOid)
    {
      ghost var before := requests;
      out := [];
      var i := 0;
      while i < |requests|
        invariant 0 <= i <= |requests| == |before|
        invariant forall m :: 0 <= m < i ==> requests[m] == Mark(before[m], uOid)
        invariant forall m :: i <= m < |requests| ==> requests[m] == before[m]
        invariant out == Inbox(before[..i], assistants, uOid)
      {
        var q := requests[i];
        InboxSnoc(before[..i], q, assistants, uOid);
        assert before[..i + 1] == before[..i] + [q];
        if Deliverable(q, uOid) {
          out := out + [DeliveryOf(q, assistants)];
          requests := requests[i := q.(notified := true)];
        }
        assert out == Inbox(before[..i + 1], assistants, uOid);
        i := i + 1;
      }
      assert before[..i] == before;
    }

    /** POST /user/feed/post: on success the store holds one more post, the one PlanPublish
        describes, and the reply is its storage identity. */
    method Publish(userId: int, content: Option<string>, media: Option<string>) returns (r: Result<ObjectId, Error>)
      requires Valid()
      modifies this`posts, this`nextOid
      ensures Valid()
      ensures match PlanPublish(users, userId, content, media, old(nextOid))
              case Err(e) => r == Err(e) && posts == old(posts) && nextOid == old(nextOid)
              case Ok(p) => r == Ok(p.oid) && posts == old(posts) + [p] && nextOid == old(nextOid) + 1
    {
      match PlanPublish(users, userId, content, media, nextOid)
      case Err(e) =>
        return Err(e);
      case Ok(p) =>
        ghost var posts0, nextOid0 := posts, nextOid;
        posts := posts + [p];
        nextOid := nextOid + 1;
        PublishKeepsConsistent(users, assistants, doctors, requests, appointments, posts0, notifications, nextOid0, p,
                               posts, nextOid);
        return Ok(p.oid);
    }

    /** POST /user/feed/like: the user's like of the post is toggled; a new like also notifies the
        post's author. A refusal changes nothing. */
    method ToggleLike(userId: int, postOid: ObjectId) returns (r: Outcome<Error>)
      requires Valid()
      modifies this`posts, this`notifications, this`nextOid
      ensures Valid()
      ensures match PlanLike(users, old(posts), userId, postOid)
              case Err(e) => && r == Fail(e) && posts == old(posts)
                             && notifications == old(notifications) && nextOid == old(nextOid)
              case Ok((k, m)) =>
                var p, u := old(posts)[m], users[k];
                && r == Pass
                && posts == old(posts)[m := p.(likedBy := Toggled(p.likedBy, u.oid))]
                && (u.oid in p.likedBy ==> notifications == old(notifications) && nextOid == old(nextOid))
                && (u.oid !in p.likedBy ==> && notifications == old(notifications) + [LikeNotification(old(nextOid), p, u)]
                                            && nextOid == old(nextOid) + 1)
    {
      match PlanLike(users, posts, userId, postOid)
      case Err(e) =>
        return Fail(e);
      case Ok((k, m)) =>
        ghost var posts0, notifications0, nextOid0 := posts, notifications, nextOid;
        var p, u := posts[m], users[k];
        if u.oid !in p.likedBy {
          notifications := notifications + [LikeNotification(nextOid, p, u)];
          nextOid := nextOid + 1;
        }
        posts := posts[m := p.(likedBy := Toggled(p.likedBy, u.oid))];
        LikeKeepsConsistent(users, assistants, doctors, requests, appointments, posts0, notifications0, nextOid0, k, m,
                            posts, notifications, nextOid);
        return Pass;
    }

    /** POST /doctor/appointment/add: on success the store holds one more appointment, the one
        PlanAddAppointment describes, and the reply is its public id. */
    method AddAppointment(f: AppointmentForm, d: Draw) returns (r: Result<nat, Error>)
      requires Valid() && IsUnitDraw(d)
      modifies this`appointments, this`nextOid
      ensures Valid()
      ensures match PlanAddAppointment(users, doctors, old(appointments), f, old(nextOid), d)
              case Err(e) => r == Err(e) && appointments == old(appointments) && nextOid == old(nextOid)
              case Ok(p) => && r == Ok(p.appointmentId)
                            && appointments == old(appointments) + [p] && nextOid == old(nextOid) + 1
    {
      match PlanAddAppointment(users, doctors, appointments, f, nextOid, d)
      case Err(e) =>
        return Err(e);
      case Ok(p) =>
        ghost var appointments0, nextOid0 := appointments, nextOid;
        appointments := appointments + [p];
        nextOid := nextOid + 1;
        AddAppointmentKeepsConsistent(users, assistants, doctors, requests, appointments0, posts, notifications, nextOid0,
                                      f, d, p, appointments, nextOid);
        return Ok(p.appointmentId);
    }

    /** POST /doctor/appointment/confirm: on success the appointment is confirmed and nothing else
        about it changes. */
    method ConfirmAppointment(appointmentId: int, doctorId: int) returns (r: Outcome<Error>)
      requires Valid()
      modifies this`appointments
      ensures Valid()
      ensures match PlanConfirmAppointment(old(appointments), doctors, appointmentId, doctorId)
              case Err(e) => r == Fail(e) && appointments == old(appointments)
              case Ok(i) => && r == Pass
                            && appointments == old(appointments)[i := old(appointments)[i].(status := Confirmed)]
    {
      match PlanConfirmAppointment(appointments, doctors, appointmentId, doctorId)
      case Err(e) =>
        return Fail(e);
      case Ok(i) =>
        ghost var appointments0 := appointments;
        appointments := appointments[i := appointments[i].(status := Confirmed)];
        ConfirmAppointmentKeepsConsistent(users, assistants, doctors, requests, appointments0, posts, notifications,
                                          nextOid, i, appointments);
        return Pass;
    }

    /** POST /user/register: on success the store holds one more user, the one PlanRegisterUser
        describes, and the reply is its public id. */
    method RegisterUser(f: UserForm, d: Draw) returns (r: Result<nat, Error>)
      requires Valid() && IsUnitDraw(d)
      modifies this`users, this`nextOid
      ensures Valid()
      ensures match PlanRegisterUser(old(users), f, old(nextOid), d)
              case Err(e) => r == Err(e) && users == old(users) && nextOid == old(nextOid)
              case Ok(u) => r == Ok(u.userId) && users == old(users) + [u] && nextOid == old(nextOid) + 1
    {
      match PlanRegisterUser(users, f, nextOid, d)
      case Err(e) =>
        return Err(e);
      case Ok(u) =>
        ghost var users0, nextOid0 := users, nextOid;
        users := users + [u];
        nextOid := nextOid + 1;
        RegisterUserKeepsConsistent(users0, assistants, doctors, requests, appointments, posts, notifications, nextOid0,
                                    f, d, u, users, nextOid);
        return Ok(u.userId);
    }

    /** POST /assistant/register: on success the store holds one more assistant, the one
        PlanRegisterAssistant describes, and the reply carries its id as RegistrationReply picks it. */
    method RegisterAssistant(f: AssistantForm, d: Draw) returns (r: Result<AssistantRef, Error>)
      requires Valid() && IsUnitDraw(d)
      modifies this`assistants, this`nextOid
      ensures Valid()
      ensures match PlanRegisterAssistant(old(assistants), f, old(nextOid), d)
              case Err(e) => r == Err(e) && assistants == old(assistants) && nextOid == old(nextOid)
              case Ok(a) => && r == Ok(RegistrationReply(a))
                            && assistants == old(assistants) + [a] && nextOid == old(nextOid) + 1
    {
      match PlanRegisterAssistant(assistants, f, nextOid, d)
      case Err(e) =>
        return Err(e);
      case Ok(a) =>
        ghost var assistants0, nextOid0 := assistants, nextOid;
        assistants := assistants + [a];
        nextOid := nextOid + 1;
        RegisterAssistantKeepsConsistent(users, assistants0, doctors, requests, appointments, posts, notifications,
                                         nextOid0, f, d, a, assistants, nextOid);
        return Ok(RegistrationReply(a));
    }
  }
}
