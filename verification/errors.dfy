/** The failures the route handlers report, one kind per distinguishable answer. */
module Errors {
  import opened Schema

  datatype Error =
    | AssistantUnavailable     // send: no assistant with that id, or it is not 'available' (400)
    | UserNotFound             // 404
    | AssistantNotFound        // 404
    | RequestNotFound          // 404
    | DoctorNotFound           // 404
    | AppointmentNotFound      // 404
    | PostNotFound             // 404
    | IdsRequired              // complete: requestId or assistantId missing (400)
    | AlreadyCompleted         // complete: the request is already 'completed' (400)
    | NotOwner                 // complete: the request is assigned to another assistant (403)
    | EmailTaken               // registration: a document with this e-mail address exists (409)
    | Rejected(cause: SaveError)  // the save failed: a validator, or a unique index (400)
    | Thrown                   // an exception raised inside the handler, answered by its catch block
}
