/** The toast text for a failed database call (`buildSupabaseToast`): the
    free-plan limit gets its own title, any other error with a message
    shows that message, and everything else shows the caller's fallback. */
module SupabaseError {
  import opened Wrappers
  import opened Text

  /** The thrown value: not an object (or null), or an object with the
      optional fields of a database error; `isError` tells whether it is
      an `Error` instance. */
  datatype Thrown =
    | NotObject
    | ErrorObject(message: Option<string>, code: Option<string>, hint: Option<string>, isError: bool)

  datatype FriendlyError = FriendlyError(title: string, description: string)

  const PlanLimitTitle: string := "Limite do plano Free atingido"
  const PlanLimitCode: string := "P0001"
  const PlanLimitPhrase: string := "limite do plano free"

  /** An optional field with surrounding whitespace removed; an absent or
      blank field counts as absent (JavaScript treats "" as false). */
  function Trimmed(field: Option<string>): (r: Option<string>)
    ensures r.Some? ==> r.value != [] && field.Some? && r.value == Trim(field.value)
    ensures r.None? <==> field.None? || Trim(field.value) == []
  {
    match field
    case None => None
    case Some(s) => if Trim(s) == [] then None else Some(Trim(s))
  }

  /** `a || b`: the first present value. */
  function Or(a: Option<string>, b: string): string
  {
    if a.Some? then a.value else b
  }

  /** The error is the free-plan limit: the database's raise code, or a
      message that mentions the limit in any case. */
  predicate IsPlanLimit(e: Thrown)
  {
    e.ErrorObject? &&
    (e.code == Some(PlanLimitCode)
     || (Trimmed(e.message).Some? && Contains(Lower(Trimmed(e.message).value), PlanLimitPhrase)))
  }

  /** `buildSupabaseToast`, every branch as written, including the
      `instanceof Error` branch after the object checks. */
  function BuildSupabaseToast(e: Thrown, fallback: FriendlyError): (r: FriendlyError)
    ensures IsPlanLimit(e) ==> r.title == PlanLimitTitle
    ensures IsPlanLimit(e) ==> r.description == Or(Trimmed(e.message), Or(Trimmed(e.hint), fallback.description))
    ensures !IsPlanLimit(e) && e.ErrorObject? && Trimmed(e.message).Some? ==>
              r == FriendlyError(fallback.title, Trimmed(e.message).value)
    ensures !IsPlanLimit(e) && (e.NotObject? || Trimmed(e.message).None?) ==> r == fallback
  {
    var fromObject :=
      if e.NotObject? then None
      else
        var message := Trimmed(e.message);
        var hint := Trimmed(e.hint);
        if e.code == Some(PlanLimitCode) || (message.Some? && Contains(Lower(message.value), PlanLimitPhrase))
        then Some(FriendlyError(PlanLimitTitle, Or(message, Or(hint, fallback.description))))
        else if message.Some? then Some(FriendlyError(fallback.title, message.value))
        else None;
    var errorMessage := if e.ErrorObject? && e.isError then e.message else None;
    if fromObject.Some? then fromObject.value
    else if errorMessage.Some? && Trim(errorMessage.value) != []
    then FriendlyError(fallback.title, Or(errorMessage, ""))
    else fallback
  }

  /** The `instanceof Error` branch never decides the result: an error
      with a non-blank message has already been handled by the object
      branch, so the result does not depend on `isError`. */
  lemma {:induction false} ErrorBranchUnreachable(message: Option<string>, code: Option<string>, hint: Option<string>, fallback: FriendlyError)
    ensures BuildSupabaseToast(ErrorObject(message, code, hint, true), fallback)
            == BuildSupabaseToast(ErrorObject(message, code, hint, false), fallback)
  {}

  /** Outside the plan-limit case the hint is never read. */
  lemma {:induction false} HintOnlyForPlanLimit(e: Thrown, hint: Option<string>, fallback: FriendlyError)
    requires e.ErrorObject? && !IsPlanLimit(e)
    ensures BuildSupabaseToast(e.(hint := hint), fallback) == BuildSupabaseToast(e, fallback)
  {}

  /** Every result either carries the plan-limit title or the fallback's. */
  lemma {:induction false} TitleIsPlanLimitOrFallback(e: Thrown, fallback: FriendlyError)
    ensures BuildSupabaseToast(e, fallback).title == PlanLimitTitle
            || BuildSupabaseToast(e, fallback).title == fallback.title
  {}
}
