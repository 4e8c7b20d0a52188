/** The document schemas of models/User.js: the fields each collection stores, their defaults,
    required flags, length limits and setters, and the generator of the public ids. Validation is
    what a save does before it writes; the unique indexes are checked with the other collection
    documents in view (module Transitions). */
module Schema {
  import opened Wrappers
  import opened Text

  /** Storage identity of a document (MongoDB's 12-byte ObjectId), distinct from its public id. */
  type ObjectId = nat

  /** An ObjectId is 12 bytes, written as 24 hexadecimal digits. */
  const ObjectIdDigits: nat := 24

  /** The text form of a storage identity, as a client receives it in an `id` field. Reading it
      back gives the identity again. */
  function ObjectIdText(oid: ObjectId): (s: string)
    requires oid < Pow16(ObjectIdDigits)
    ensures IsHex24(s) && HexValue(s) == oid
  {
    HexRoundTrip(oid, ObjectIdDigits);
    HexText(oid, ObjectIdDigits)
  }

  // ---------------------------------------------------------------- public ids

  /** Public ids are drawn from [0, PublicIdLimit). */
  const PublicIdLimit: nat := 1000000

  /** A value of Math.random(): the fraction num / den, which lies in [0, 1) when num < den. */
  datatype Draw = Draw(num: nat, den: nat)

  predicate IsUnitDraw(d: Draw) {
    d.num < d.den
  }

  /** The default of user_id, assistant_id, request_id and appointment_id,
      Math.floor(Math.random() * 1000000): the whole part of the draw scaled by the limit. Nothing
      compares it with the ids already in use; only the unique index does, when the document is saved. */
  function PublicId(d: Draw): (id: nat)
    requires IsUnitDraw(d)
    ensures id < PublicIdLimit
    ensures id * d.den <= d.num * PublicIdLimit < (id + 1) * d.den
  {
    FloorQuotient(d.num * PublicIdLimit, d.den, PublicIdLimit)
  }

  /** The whole part of a / b, which lies below `bound` when a < b * bound. */
  function FloorQuotient(a: nat, b: nat, bound: nat): (q: nat)
    requires 0 < b && a < b * bound
    ensures q < bound
    ensures q * b <= a < (q + 1) * b
  {
    var m := a % b;
    assert a == (a / b) * b + m && 0 <= m < b;
    a / b
  }

  // ---------------------------------------------------------------- validators

  /** Mongoose's `required` on a String path: the value is present and not empty. */
  predicate Filled(s: Option<string>) {
    s.Some? && s.value != []
  }

  /** Mongoose's `maxLength`: an absent value passes. */
  predicate Fits(s: Option<string>, max: nat) {
    s.None? || |s.value| <= max
  }

  const UserNameMax: nat := 100
  const GenderMax: nat := 50
  const NumberMax: nat := 20
  const AssistantNameMax: nat := 255
  const AssistantEmailMax: nat := 255

  /** The setters of the user schema's `email` path: trim, then lowercase. */
  function NormalizeEmail(e: string): string {
    Lower(Trim(e))
  }

  /** An e-mail address as the `trim` and `lowercase` setters leave it: no capital letter, and no
      white space at either end. */
  predicate IsNormalEmail(e: string) {
    && (forall k :: 0 <= k < |e| ==> !('A' <= e[k] <= 'Z'))
    && (e != [] ==> !IsSpace(e[0]) && !IsSpace(e[|e| - 1]))
  }

  /** What the setters store is a normal address. */
  lemma NormalizeEmailIsNormal(e: string)
    ensures IsNormalEmail(NormalizeEmail(e))
  {
    LowerOfTrimmedIsNormal(Trim(e));
  }

  /** Lower-casing a string with no white space at its ends gives a normal address. */
  lemma LowerOfTrimmedIsNormal(t: string)
    requires t == [] || (!IsSpace(t[0]) && !IsSpace(t[|t| - 1]))
    ensures IsNormalEmail(Lower(t))
  {
    var n := Lower(t);
    forall k | 0 <= k < |n|
      ensures !('A' <= n[k] <= 'Z')
    {
      assert n[k] == LowerChar(t[k]);
    }
    if t != [] {
      LowerKeepsSpace(t[0]);
      LowerKeepsSpace(t[|t| - 1]);
    }
  }

  /** The normal addresses are exactly those that the setters leave unchanged. */
  lemma NormalEmailFixpoint(e: string)
    ensures NormalizeEmail(e) == e <==> IsNormalEmail(e)
  {
    if IsNormalEmail(e) {
      NormalEmailUnchanged(e);
    } else {
      NormalizeEmailIsNormal(e);
    }
  }

  lemma NormalEmailUnchanged(e: string)
    requires IsNormalEmail(e)
    ensures NormalizeEmail(e) == e
  {
    assert TrimStart(e) == e;
    assert TrimEnd(e) == e;
    var n := Lower(e);
    assert forall k :: 0 <= k < |e| ==> n[k] == LowerChar(e[k]) == e[k];
    assert n == e;
  }

  lemma {:induction false} NormalizeEmailIdempotent(e: string)
    ensures NormalizeEmail(NormalizeEmail(e)) == NormalizeEmail(e)
  {
    var t := Trim(e);
    TrimLowerCommute(t);
    TrimIdempotent(e);
    LowerIdempotent(t);
  }

  /** Failures of a save: a validator refused the document, or a unique index already holds its key. */
  datatype SaveError = ValidationFailed | DuplicateKey

  // ---------------------------------------------------------------- users

  datatype User = User(oid: ObjectId, userId: nat, name: string, email: string,
                       address: Option<string>, gender: Option<string>, number: Option<string>,
                       profilePicture: Option<string>)

  /** What every stored user satisfies. */
  predicate UserConforms(u: User) {
    && u.userId < PublicIdLimit
    && 0 < |u.name| <= UserNameMax
    && u.email != [] && IsNormalEmail(u.email)
    && Fits(u.gender, GenderMax)
    && Fits(u.number, NumberMax)
  }

  /** The fields a registration hands to `new User(...)`. The password is checked for presence;
      its hash is not part of this model. */
  datatype UserForm = UserForm(name: Option<string>, email: Option<string>, password: Option<string>,
                               address: Option<string>, gender: Option<string>,
                               number: Option<string>, profilePicture: Option<string>)

  /** A new user document, validated as a save validates it: `name`, `email` and `password` are
      required, the e-mail address is trimmed and lower-cased before it is checked and stored, and
      `name`, `gender` and `number` have maximum lengths. */
  function NewUser(oid: ObjectId, d: Draw, f: UserForm): (r: Result<User, SaveError>)
    requires IsUnitDraw(d)
    ensures r.Ok? <==> && Filled(f.name) && |f.name.value| <= UserNameMax
                       && f.email.Some? && NormalizeEmail(f.email.value) != []
                       && Filled(f.password)
                       && Fits(f.gender, GenderMax) && Fits(f.number, NumberMax)
    ensures r.Err? ==> r.error == ValidationFailed
    ensures r.Ok? ==> && UserConforms(r.value)
                      && r.value.oid == oid && r.value.userId == PublicId(d)
                      && r.value.name == f.name.value
                      && r.value.email == NormalizeEmail(f.email.value)
                      && r.value.address == f.address && r.value.gender == f.gender
                      && r.value.number == f.number && r.value.profilePicture == f.profilePicture
  {
    if f.email.None? then Err(ValidationFailed)
    else
      var email := NormalizeEmail(f.email.value);
      if Filled(f.name) && |f.name.value| <= UserNameMax && email != [] && Filled(f.password)
         && Fits(f.gender, GenderMax) && Fits(f.number, NumberMax)
      then
        NormalizeEmailIsNormal(f.email.value);
        Ok(User(oid, PublicId(d), f.name.value, email, f.address, f.gender, f.number, f.profilePicture))
      else Err(ValidationFailed)
  }

  // ---------------------------------------------------------------- assistants

  /** `status` is stored as the strings 'available' and 'busy'. */
  datatype AssistantStatus = Available | Busy

  datatype Assistant = Assistant(oid: ObjectId, assistantId: nat, name: string, email: string,
                                 number: Option<string>, profilePicture: Option<string>,
                                 latitude: real, longitude: real, status: AssistantStatus)

  /** What every stored assistant satisfies. */
  predicate AssistantConforms(a: Assistant) {
    && a.assistantId < PublicIdLimit
    && 0 < |a.name| <= AssistantNameMax
    && 0 < |a.email| <= AssistantEmailMax
  }

  /** The fields a registration hands to `new Assistant(...)`; it never supplies a status. */
  datatype AssistantForm = AssistantForm(name: Option<string>, email: Option<string>,
                                         password: Option<string>, number: Option<string>,
                                         profilePicture: Option<string>,
                                         latitude: Option<real>, longitude: Option<real>)

  /** A new assistant document: `name`, `email`, `password`, `latitude` and `longitude` are
      required, the name and the e-mail address are at most 255 characters long (the address is
      stored as given), and `status` takes its default, 'available'. */
  function NewAssistant(oid: ObjectId, d: Draw, f: AssistantForm): (r: Result<Assistant, SaveError>)
    requires IsUnitDraw(d)
    ensures r.Ok? <==> && Filled(f.name) && |f.name.value| <= AssistantNameMax
                       && Filled(f.email) && |f.email.value| <= AssistantEmailMax
                       && Filled(f.password)
                       && f.latitude.Some? && f.longitude.Some?
    ensures r.Err? ==> r.error == ValidationFailed
    ensures r.Ok? ==> && AssistantConforms(r.value) && r.value.status == Available
                      && r.value.oid == oid && r.value.assistantId == PublicId(d)
                      && r.value.name == f.name.value && r.value.email == f.email.value
                      && r.value.latitude == f.latitude.value && r.value.longitude == f.longitude.value
                      && r.value.number == f.number && r.value.profilePicture == f.profilePicture
  {
    if && Filled(f.name) && |f.name.value| <= AssistantNameMax
       && Filled(f.email) && |f.email.value| <= AssistantEmailMax
       && Filled(f.password) && f.latitude.Some? && f.longitude.Some?
    then
      Ok(Assistant(oid, PublicId(d), f.name.value, f.email.value, f.number, f.profilePicture,
                   f.latitude.value, f.longitude.value, Available))
    else Err(ValidationFailed)
  }

  // ---------------------------------------------------------------- doctors

  /** Doctors are looked up by the appointment routes; their registration is not part of this model. */
  datatype Doctor = Doctor(oid: ObjectId, doctorId: nat, name: string)

  // ---------------------------------------------------------------- pending requests

  /** `status` is stored as the strings 'pending', 'accepted' and 'completed'. */
  datatype RequestStatus = Pending | Accepted | Completed

  datatype Request = Request(oid: ObjectId, requestId: nat, user: ObjectId,
                             assistant: Option<ObjectId>, category: string,
                             description: Option<string>,
                             latitude: Option<real>, longitude: Option<real>,
                             status: Option<RequestStatus>, notified: bool)

  /** What every stored request satisfies. */
  predicate RequestConforms(q: Request) {
    q.requestId < PublicIdLimit && q.category != []
  }

  /** The fields handed to `new PendingRequest(...)`. */
  datatype RequestDraft = RequestDraft(user: Option<ObjectId>, assistant: Option<ObjectId>,
                                       category: Option<string>, description: Option<string>,
                                       latitude: Option<real>, longitude: Option<real>,
                                       status: Option<RequestStatus>)

  /** A new pending-request document: only `user` and `category` are required (`assistant`,
      `latitude`, `longitude` and `status` may be absent), and `notified` starts false. */
  function NewRequest(oid: ObjectId, d: Draw, f: RequestDraft): (r: Result<Request, SaveError>)
    requires IsUnitDraw(d)
    ensures r.Ok? <==> f.user.Some? && Filled(f.category)
    ensures r.Err? ==> r.error == ValidationFailed
    ensures r.Ok? ==> && RequestConforms(r.value) && !r.value.notified
                      && r.value.oid == oid && r.value.requestId == PublicId(d)
                      && r.value.user == f.user.value && r.value.assistant == f.assistant
                      && r.value.category == f.category.value
                      && r.value.description == f.description
                      && r.value.latitude == f.latitude && r.value.longitude == f.longitude
                      && r.value.status == f.status
  {
    if f.user.Some? && Filled(f.category) then
      Ok(Request(oid, PublicId(d), f.user.value, f.assistant, f.category.value, f.description,
                 f.latitude, f.longitude, f.status, false))
    else Err(ValidationFailed)
  }

  // ---------------------------------------------------------------- appointments

  /** `status` is stored as the strings 'pending' (Requested) and 'confirmed'. */
  datatype AppointmentStatus = Requested | Confirmed

  /** `time` stands for the appointment's Date; its formatting is not part of this model. */
  datatype Appointment = Appointment(oid: ObjectId, appointmentId: nat, user: ObjectId,
                                     doctor: ObjectId, time: int, status: AppointmentStatus)

  predicate AppointmentConforms(p: Appointment) {
    p.appointmentId < PublicIdLimit
  }

  /** The fields handed to `new Appointment(...)`; an invalid date is an absent `time`. */
  datatype AppointmentDraft = AppointmentDraft(user: Option<ObjectId>, doctor: Option<ObjectId>,
                                               time: Option<int>, status: Option<AppointmentStatus>)

  /** A new appointment document: `user`, `doctor`, `appointment_time` and `status` are all required. */
  function NewAppointment(oid: ObjectId, d: Draw, f: AppointmentDraft): (r: Result<Appointment, SaveError>)
    requires IsUnitDraw(d)
    ensures r.Ok? <==> f.user.Some? && f.doctor.Some? && f.time.Some? && f.status.Some?
    ensures r.Err? ==> r.error == ValidationFailed
    ensures r.Ok? ==> && AppointmentConforms(r.value)
                      && r.value.oid == oid && r.value.appointmentId == PublicId(d)
                      && r.value.user == f.user.value && r.value.doctor == f.doctor.value
                      && r.value.time == f.time.value && r.value.status == f.status.value
  {
    if f.user.Some? && f.doctor.Some? && f.time.Some? && f.status.Some? then
      Ok(Appointment(oid, PublicId(d), f.user.value, f.doctor.value, f.time.value, f.status.value))
    else Err(ValidationFailed)
  }

  // ---------------------------------------------------------------- feed

  /** A post of the social feed; `likedBy` holds the storage identities of the users who like it. */
  datatype Post = Post(oid: ObjectId, user: ObjectId, content: string, media: Option<string>,
                       likedBy: seq<ObjectId>)

  /** A new post document: `user` and `content` are required; nobody likes it yet. */
  function NewPost(oid: ObjectId, user: Option<ObjectId>, content: Option<string>, media: Option<string>): (r: Result<Post, SaveError>)
    ensures r.Ok? <==> user.Some? && Filled(content)
    ensures r.Err? ==> r.error == ValidationFailed
    ensures r.Ok? ==> && r.value.oid == oid && r.value.user == user.value && r.value.content == content.value
                      && r.value.media == media && r.value.likedBy == []
  {
    if user.Some? && Filled(content) then Ok(Post(oid, user.value, content.value, media, []))
    else Err(ValidationFailed)
  }

  datatype Notification = Notification(oid: ObjectId, user: ObjectId, content: string,
                                       isRead: bool, post: Option<ObjectId>)

  datatype NotificationDraft = NotificationDraft(user: Option<ObjectId>, content: Option<string>,
                                                 isRead: Option<bool>, post: Option<ObjectId>)

  /** A new notification document: `user` and `content` are required, `is_read` defaults to false. */
  function NewNotification(oid: ObjectId, f: NotificationDraft): (r: Result<Notification, SaveError>)
    ensures r.Ok? <==> f.user.Some? && Filled(f.content)
    ensures r.Err? ==> r.error == ValidationFailed
    ensures r.Ok? ==> && r.value.oid == oid && r.value.user == f.user.value
                      && r.value.content == f.content.value && r.value.post == f.post
                      && r.value.isRead == (f.isRead.Some? && f.isRead.value)
  {
    if f.user.Some? && Filled(f.content) then
      Ok(Notification(oid, f.user.value, f.content.value,
                      if f.isRead.Some? then f.isRead.value else false, f.post))
    else Err(ValidationFailed)
  }
}
