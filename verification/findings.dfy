/** /pending/completed as its handler is written, beside the corrected decision that the store
    uses (Transitions.PlanComplete), and inputs on which the two differ. */
module Findings {
  import opened Wrappers
  import opened Text
  import opened Schema
  import opened Errors
  import opened Lookup
  import opened Transitions

  /** JavaScript truthiness of a body field: an absent field, the number 0 and the empty string are
      falsy. */
  predicate Truthy(a: IdArg) {
    match a
    case Absent => false
    case Num(n) => n != 0
    case Str(s) => s != []
  }

  /** The request the handler finds as written: the query on the Number path `request_id` throws a
      cast error when the argument does not read as a number; a miss with a numeric argument throws
      when `.match` is called on the number; a miss with a string falls back to the storage
      identity when the string is 24 hexadecimal digits. */
  function ResolveAsWritten(requests: seq<Request>, a: IdArg): (r: Result<Option<nat>, Error>)
    ensures NumberCast(a).None? ==> r == Err(Thrown)
    ensures r.Ok? && r.value.Some? ==> r.value.value < |requests|
    ensures r.Ok? ==> r.value == ResolveRequest(requests, a)
  {
    match NumberCast(a)
    case None => Err(Thrown)
    case Some(n) =>
      match FindRequest(requests, n)
      case Some(i) => Ok(Some(i))
      case None =>
        if a.Num? then Err(Thrown)
        else if IsHex24(a.s) then Ok(FindRequestByOid(requests, HexValue(a.s)))
        else Ok(None)
  }

  /** /pending/completed as written: the presence test is JavaScript truthiness and the request is
      found by ResolveAsWritten; the remaining checks are those of the corrected decision. */
  function CompleteAsWritten(requests: seq<Request>, assistants: seq<Assistant>,
                             requestArg: IdArg, assistantArg: IdArg): (r: Result<(nat, nat), Error>)
    ensures !Truthy(requestArg) || !Truthy(assistantArg) ==> r == Err(IdsRequired)
    ensures r.Ok? ==> r == PlanComplete(requests, assistants, requestArg, assistantArg)
  {
    if !Truthy(requestArg) || !Truthy(assistantArg) then Err(IdsRequired)
    else if NumberCast(assistantArg).None? then Err(Thrown)
    else match FindAssistant(assistants, NumberCast(assistantArg).value)
      case None => Err(AssistantNotFound)
      case Some(j) =>
        match ResolveAsWritten(requests, requestArg)
        case Err(e) => Err(e)
        case Ok(None) => Err(RequestNotFound)
        case Ok(Some(i)) =>
          var q := requests[i];
          if q.status == Some(Completed) then Err(AlreadyCompleted)
          else if q.assistant.None? then Err(Thrown)
          else if q.assistant.value != assistants[j].oid then Err(NotOwner)
          else Ok((i, j))
  }

  /** A numeric request id that names no request makes the handler throw instead of answering
      "request not found". */
  lemma NumericMissThrows(requests: seq<Request>, assistants: seq<Assistant>, n: int, assistantArg: IdArg)
    requires n != 0 && Truthy(assistantArg) && NamedAssistant(assistants, assistantArg).Some?
    requires FindRequest(requests, n).None?
    ensures CompleteAsWritten(requests, assistants, Num(n), assistantArg) == Err(Thrown)
    ensures PlanComplete(requests, assistants, Num(n), assistantArg) == Err(RequestNotFound)
  {
    assert ResolveRequest(requests, Num(n)).None?;
  }

  /** A request whose public id is 0, which the generator can draw, cannot be completed by its
      numeric id: the presence test refuses it, while the corrected decision completes it. */
  lemma ZeroIdRefused()
    ensures var a := Assistant(1, 7, "A", "a@x", None, None, 0.0, 0.0, Busy);
            var q := Request(2, 0, 3, Some(1), "care", None, None, None, Some(Accepted), false);
            && PublicId(Draw(0, 1)) == q.requestId
            && CompleteAsWritten([q], [a], Num(0), Num(7)) == Err(IdsRequired)
            && PlanComplete([q], [a], Num(0), Num(7)) == Ok((0, 0))
  {
  }

  /** The text of a storage identity whose last hexadecimal digit is a letter does not read as a
      number, so the first query throws a cast error and the fallback on the storage identity is
      never reached; the corrected decision finds the request through that fallback. */
  lemma StorageIdWithLetterThrows(requests: seq<Request>, assistants: seq<Assistant>, k: nat, j: nat)
    requires k < |requests| && j < |assistants|
    requires requests[k].oid < Pow16(ObjectIdDigits) && requests[k].oid % 16 >= 10
    requires forall i, i' :: 0 <= i < i' < |requests| ==> requests[i].oid != requests[i'].oid
    requires FindAssistant(assistants, assistants[j].assistantId) == Some(j) && assistants[j].assistantId != 0
    requires requests[k].status != Some(Completed) && requests[k].assistant == Some(assistants[j].oid)
    ensures var text := Str(ObjectIdText(requests[k].oid));
            var aArg := Num(assistants[j].assistantId);
            && CompleteAsWritten(requests, assistants, text, aArg) == Err(Thrown)
            && PlanComplete(requests, assistants, text, aArg) == Ok((k, j))
  {
    var oid := requests[k].oid;
    var s := ObjectIdText(oid);
    assert s[23] == HexDigit(oid % 16);
    assert !IsDigits(s);
    assert NumberCast(Str(s)).None?;
    StorageTextResolves(requests, k);
    TextWithoutNumberThrows(requests, assistants, s, Num(assistants[j].assistantId));
    CompleteResolved(requests, assistants, Str(s), Num(assistants[j].assistantId), k, j);
  }

  /** Text that does not read as a number makes the handler as written throw, once both ids are
      present and the assistant is found. */
  lemma TextWithoutNumberThrows(requests: seq<Request>, assistants: seq<Assistant>, s: string, assistantArg: IdArg)
    requires s != [] && !IsDigits(s) && Truthy(assistantArg) && NamedAssistant(assistants, assistantArg).Some?
    ensures CompleteAsWritten(requests, assistants, Str(s), assistantArg) == Err(Thrown)
  {
  }

  /** The corrected decision completes the request an argument resolves to, when it belongs to the
      assistant the other argument names and is not completed. */
  lemma CompleteResolved(requests: seq<Request>, assistants: seq<Assistant>, requestArg: IdArg, assistantArg: IdArg,
                         k: nat, j: nat)
    requires Supplied(requestArg) && Supplied(assistantArg)
    requires k < |requests| && j < |assistants| && NamedAssistant(assistants, assistantArg) == Some(j)
    requires ResolveRequest(requests, requestArg) == Some(k)
    requires requests[k].status != Some(Completed) && requests[k].assistant == Some(assistants[j].oid)
    ensures PlanComplete(requests, assistants, requestArg, assistantArg) == Ok((k, j))
  {
  }
}
