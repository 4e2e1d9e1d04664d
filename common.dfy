/** Values shared by every part of the inventory model: optional values,
    partial-update payload fields, calendar days and the error taxonomy of
    the HTTP routes. */
module Common {

  /** A nullable column or an optional payload field. */
  datatype Option<+T> = None | Some(value: T) {
    function GetOr(default: T): T {
      match this
      case Some(v) => v
      case None => default
    }

    /** This value when present, `other` otherwise. */
    function OrElse(other: Option<T>): Option<T> {
      if Some? then this else other
    }
  }

  /** One field of an update payload: absent from the JSON body (the record
      keeps its value) or present (the record takes the given value). */
  datatype Patch<+T> = Keep | Set(value: T) {
    function ApplyTo(current: T): T {
      match this
      case Keep => current
      case Set(v) => v
    }
  }

  /** A calendar date as a day number (consecutive dates differ by one). */
  type Date = int

  /** Primary key of a stored record. */
  type Id = nat

  /** The record kinds of the store, named in not-found errors. */
  datatype Entity = DataloggerEntity | ClienteEntity | DemandaEntity | AlocacaoEntity

  /** Route failures. `NotFound` is a lookup the route checks itself;
      `Abort404` is a `get_or_404` lookup, which aborts the request with a
      not-found exception. `IntegridadeViolada` is a commit the database
      refuses: deleting a record of `entity` makes the ORM set the
      non-nullable foreign key of its allocations to null. Every other
      error is a business rule that refused the request. */
  datatype Error =
    | NotFound(entity: Entity)
    | Abort404(entity: Entity)
    | SerialDuplicado
    | DataloggerIndisponivel
    | DemandaInativa
    | AlocacaoJaFinalizada
    | AlocacoesAtivas
    | DemandasAtivas
    | IntegridadeViolada(entity: Entity)
  {
    predicate IsNotFound() {
      NotFound? || Abort404?
    }

    /** The answer as the routes are written: the not-found exception of
        `get_or_404` and the database's integrity error are both raised
        inside the route's `try` and caught by its `except Exception`,
        which answers 500. */
    function HttpStatusAsWritten(): (code: nat)
      ensures Abort404? || IntegridadeViolada? ==> code == 500
      ensures NotFound? ==> code == 404
      ensures !IsNotFound() && !IntegridadeViolada? ==> code == 400
    {
      match this
      case NotFound(_) => 404
      case Abort404(_) => 500
      case IntegridadeViolada(_) => 500
      case _ => 400
    }

    /** The answer the lookups evidently intend: 404 for every missing
        record, 500 for a failing commit, 400 for every refused request. */
    function HttpStatus(): (code: nat)
      ensures code == 404 <==> IsNotFound()
      ensures code == 500 <==> IntegridadeViolada?
      ensures code == 400 <==> !IsNotFound() && !IntegridadeViolada?
    {
      if IsNotFound() then 404 else if IntegridadeViolada? then 500 else 400
    }
  }

  /** A `get_or_404` lookup inside a route answers 500, not the 404 its
      name promises; the intended status of the same error is 404. */
  lemma Abort404AnswersInternalError(e: Entity)
    ensures Abort404(e).HttpStatusAsWritten() == 500
    ensures Abort404(e).HttpStatus() == 404
    ensures Abort404(e).HttpStatusAsWritten() != Abort404(e).HttpStatus()
  {
  }

  /** As intended, every not-found error is answered alike, whether the
      route looked the record up itself or through `get_or_404`. */
  lemma NotFoundAnswersAgree(e: Entity)
    ensures NotFound(e).HttpStatus() == Abort404(e).HttpStatus() == 404
    ensures NotFound(e).HttpStatusAsWritten() == NotFound(e).HttpStatus()
  {
  }

  /** Outcome of a route that answers with a record or a message. */
  datatype Result<+T> = Ok(value: T) | Err(error: Error)

  /** A JSON truthiness test on an optional string: present and non-empty. */
  predicate Truthy(s: Option<string>) {
    s.Some? && s.value != ""
  }
}
