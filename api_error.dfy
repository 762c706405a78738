/**
 * The uniform error body (`ApiError.java`): the record, its factories
 * `of` and `validation` in both overloads, and the wire form with its
 * "omit empty `details`" rule.
 *
 * `Instant.now()` becomes a `now` parameter and `UUID.randomUUID()` a draw
 * from an `IdSource` that never hands out the same id twice.
 */
module ApiErrors {
  import opened Wrappers
  import opened ErrorCodes
  import opened ValidationErrorDetails

  /** A point in time (what `Instant.now()` returns), as nanoseconds since the epoch. */
  datatype Instant = Instant(epochNanos: int)

  /** A correlation identifier (what `UUID.randomUUID()` returns). */
  datatype Uuid = Uuid(value: nat)

  /** The record, with its components in declaration order. */
  datatype ApiError = ApiError(
    timestamp: Instant,
    path: string,
    status: int,
    code: ErrorCode,
    message: string,
    details: seq<ValidationErrorDetail>,
    errorId: Uuid)

  /** `of(status, code, message, path, errorId)`: the given values and no details. */
  function Of(status: int, code: ErrorCode, message: string, path: string, errorId: Uuid, now: Instant): (e: ApiError)
    ensures e.status == status && e.code == code && e.message == message
    ensures e.path == path && e.errorId == errorId && e.timestamp == now
    ensures e.details == []
  {
    ApiError(now, path, status, code, message, [], errorId)
  }

  /**
   * `validation(status, code, message, path, details, errorId)`: as `Of`, but
   * with a copy of the given details; a null list (`None`) gives no details.
   */
  function Validation(status: int, code: ErrorCode, message: string, path: string,
                      details: Option<seq<ValidationErrorDetail>>, errorId: Uuid, now: Instant): (e: ApiError)
    ensures e.status == status && e.code == code && e.message == message
    ensures e.path == path && e.errorId == errorId && e.timestamp == now
    ensures details.None? ==> e.details == []
    ensures details.Some? ==> |e.details| == |details.value|
    ensures details.Some? ==> forall i :: 0 <= i < |e.details| ==> e.details[i] == details.value[i]
  {
    ApiError(now, path, status, code, message, details.GetOr([]), errorId)
  }

  /** With no details, the two factories build the same error. */
  lemma ValidationWithoutDetailsIsOf(status: int, code: ErrorCode, message: string, path: string, errorId: Uuid, now: Instant)
    ensures Validation(status, code, message, path, None, errorId, now) == Of(status, code, message, path, errorId, now)
    ensures Validation(status, code, message, path, Some([]), errorId, now) == Of(status, code, message, path, errorId, now)
  {
  }

  /**
   * The source of fresh correlation ids. `issued` records every id handed
   * out so far; `Fresh` never returns one of them again.
   */
  class IdSource {
    ghost var issued: set<Uuid>
    var next: nat

    ghost predicate Valid()
      reads this
    {
      forall u :: u in issued ==> u.value < next
    }

    constructor ()
      ensures Valid() && issued == {}
    {
      issued := {};
      next := 0;
    }

    /** `UUID.randomUUID()`: an id that was never issued before. */
    method Fresh() returns (id: Uuid)
      requires Valid()
      modifies this
      ensures Valid()
      ensures id !in old(issued)
      ensures issued == old(issued) + {id}
    {
      id := Uuid(next);
      issued := issued + {id};
      next := next + 1;
    }
  }

  /** `of(status, code, message, path)`: the 5-argument `of` with a freshly generated id. */
  method OfFresh(ids: IdSource, status: int, code: ErrorCode, message: string, path: string, now: Instant)
    returns (e: ApiError)
    requires ids.Valid()
    modifies ids
    ensures ids.Valid()
    ensures e == Of(status, code, message, path, e.errorId, now)
    ensures e.errorId !in old(ids.issued) && ids.issued == old(ids.issued) + {e.errorId}
  {
    var id := ids.Fresh();
    e := Of(status, code, message, path, id, now);
  }

  /** `validation(status, code, message, path, details)`: the 6-argument `validation` with a freshly generated id. */
  method ValidationFresh(ids: IdSource, status: int, code: ErrorCode, message: string, path: string,
                         details: Option<seq<ValidationErrorDetail>>, now: Instant)
    returns (e: ApiError)
    requires ids.Valid()
    modifies ids
    ensures ids.Valid()
    ensures e == Validation(status, code, message, path, details, e.errorId, now)
    ensures e.errorId !in old(ids.issued) && ids.issued == old(ids.issued) + {e.errorId}
  {
    var id := ids.Fresh();
    e := Validation(status, code, message, path, details, id, now);
  }

  /** Two errors built with generated ids carry different ids. */
  method TwoGeneratedIdsDiffer(ids: IdSource, status1: int, code1: ErrorCode, message1: string, path1: string,
                                status2: int, code2: ErrorCode, message2: string, path2: string, now: Instant)
    returns (e1: ApiError, e2: ApiError)
    requires ids.Valid()
    modifies ids
    ensures ids.Valid()
    ensures e1 == Of(status1, code1, message1, path1, e1.errorId, now)
    ensures e2 == Of(status2, code2, message2, path2, e2.errorId, now)
    ensures e1.errorId != e2.errorId
  {
    e1 := OfFresh(ids, status1, code1, message1, path1, now);
    e2 := OfFresh(ids, status2, code2, message2, path2, now);
  }

  /**
   * The details are copied when the error is built: overwriting the
   * caller's list afterwards leaves the error as it was.
   */
  method DetailsAreCopied(list: array<ValidationErrorDetail>, replacement: ValidationErrorDetail,
                          status: int, code: ErrorCode, message: string, path: string, id: Uuid, now: Instant)
    returns (e: ApiError)
    requires list.Length > 0
    modifies list
    ensures e == Validation(status, code, message, path, Some(old(list[..])), id, now)
    ensures e.details == old(list[..])
    ensures list[0] == replacement
  {
    e := Validation(status, code, message, path, Some(list[..]), id, now);
    list[0] := replacement;
  }

  // ---------------------------------------------------------------------
  // The wire form
  // ---------------------------------------------------------------------

  /**
   * One JSON property of the serialised body. The textual JSON encoding is
   * Jackson's; what the model keeps is which keys appear, in which order,
   * and what each carries (the code by its `name()`).
   */
  datatype Property =
    | TimestampProp(t: Instant)
    | PathProp(p: string)
    | StatusProp(s: int)
    | CodeProp(name: string)
    | MessageProp(m: string)
    | DetailsProp(ds: seq<ValidationErrorDetail>)
    | ErrorIdProp(id: Uuid)

  function Key(p: Property): string {
    match p
    case TimestampProp(_) => "timestamp"
    case PathProp(_) => "path"
    case StatusProp(_) => "status"
    case CodeProp(_) => "code"
    case MessageProp(_) => "message"
    case DetailsProp(_) => "details"
    case ErrorIdProp(_) => "errorId"
  }

  function Keys(props: seq<Property>): (ks: seq<string>)
    ensures |ks| == |props|
    ensures forall i :: 0 <= i < |props| ==> ks[i] == Key(props[i])
  {
    if props == [] then [] else [Key(props[0])] + Keys(props[1..])
  }

  /**
   * The body as written: the components in record order, with `details`
   * left out when it is empty (`@JsonInclude(NON_EMPTY)`).
   */
  function Serialize(e: ApiError): seq<Property> {
    [TimestampProp(e.timestamp), PathProp(e.path), StatusProp(e.status), CodeProp(Name(e.code)), MessageProp(e.message)]
    + (if e.details == [] then [] else [DetailsProp(e.details)])
    + [ErrorIdProp(e.errorId)]
  }

  /**
   * A client's reading of the body: the six always-present keys in order,
   * `details` optional before `errorId`, read as empty when absent.
   */
  function Deserialize(props: seq<Property>): Option<ApiError> {
    if |props| < 6 || |props| > 7 then None
    else
      match (props[0], props[1], props[2], props[3], props[4], props[|props| - 1])
      case (TimestampProp(t), PathProp(p), StatusProp(s), CodeProp(n), MessageProp(m), ErrorIdProp(id)) =>
        var details := if |props| == 7 then (if props[5].DetailsProp? then Some(props[5].ds) else None) else Some([]);
        if ValueOf(n).Some? && details.Some?
        then Some(ApiError(t, p, s, ValueOf(n).value, m, details.value, id))
        else None
      case _ => None
  }

  /** The `details` key is present exactly when there are details. */
  lemma DetailsKeyOmittedWhenEmpty(e: ApiError)
    ensures "details" in Keys(Serialize(e)) <==> e.details != []
    ensures Keys(Serialize(e)) ==
      ["timestamp", "path", "status", "code", "message"] + (if e.details == [] then [] else ["details"]) + ["errorId"]
  {
    var ks := Keys(Serialize(e));
    var expected := ["timestamp", "path", "status", "code", "message"] + (if e.details == [] then [] else ["details"]) + ["errorId"];
    assert |ks| == |expected|;
    forall i | 0 <= i < |ks| ensures ks[i] == expected[i] {
    }
    assert ks == expected;
    if e.details == [] {
      assert forall i :: 0 <= i < |expected| ==> expected[i] != "details";
    } else {
      assert expected[5] == "details";
    }
  }

  /** Reading the written body back gives the same error, empty details included. */
  lemma {:induction false} SerializeRoundTrip(e: ApiError)
    ensures Deserialize(Serialize(e)) == Some(e)
  {
    ValueOfName(e.code, Name(e.code));
  }
}
