/**
 `assign_customer` of alerta/utils/api.py: which customer a new alert, blackout or
 other customer-scoped object is assigned to, given the customer the caller asked for,
 the caller's scopes and the customers the caller belongs to (Flask's `g.scopes` and
 `g.customers`, passed in here).
 */
module CustomerScope {
  import opened Wrappers

  /** The `admin` scope, which may act for any customer. */
  const AdminScope: string := "admin"

  /** Why no customer could be assigned. */
  datatype Reason =
    | NotAllowed(wanted: string)   // the caller may not set this customer
    | Ambiguous                    // the caller belongs to several customers and named none

  /** ApiError with its HTTP status code. */
  datatype ApiError = ApiError(reason: Reason, code: int)

  /** Python's truthiness of an optional string: None and "" are falsy. */
  predicate Given(wanted: Option<string>) {
    wanted.Some? && wanted.value != ""
  }

  /** The caller holds `admin` or the given permission. */
  predicate Privileged(permission: string, scopes: seq<string>) {
    AdminScope in scopes || permission in scopes
  }

  /** The customer to assign, `None` for no customer, or a 400 error. */
  function AssignCustomer(wanted: Option<string>, permission: string, scopes: seq<string>, customers: seq<string>)
    : (r: Result<Option<string>, ApiError>)
    // every error is a 400
    ensures r.Failure? ==> r.error.code == 400
    // a named customer: granted to a privileged caller, otherwise only if it is one of theirs
    ensures Given(wanted) && Privileged(permission, scopes) ==> r == Success(wanted)
    ensures Given(wanted) && !Privileged(permission, scopes) ==>
              (r == Success(wanted) <==> wanted.value in customers) &&
              (r.Failure? <==> wanted.value !in customers)
    // no customer named: the caller's only customer, none, or an error when ambiguous
    ensures !Given(wanted) && |customers| == 1 ==> r == Success(Some(customers[0]))
    ensures !Given(wanted) && |customers| > 1 ==> r == Failure(ApiError(Ambiguous, 400))
    ensures !Given(wanted) && |customers| == 0 ==> r == Success(None)
    // whatever is assigned was asked for or belongs to the caller, and an unprivileged
    // caller is never assigned a customer outside their own
    ensures r.Success? && r.value.Some? ==> r.value == wanted || r.value.value in customers
    ensures r.Success? && r.value.Some? && !Privileged(permission, scopes) ==> r.value.value in customers
  {
    if Given(wanted) then
      if AdminScope in scopes || permission in scopes then
        Success(wanted)
      else if wanted.value !in customers then
        Failure(ApiError(NotAllowed(wanted.value), 400))
      else
        Success(wanted)
    else if |customers| > 0 then
      if |customers| > 1 then
        Failure(ApiError(Ambiguous, 400))
      else
        Success(Some(customers[0]))
    else
      Success(None)
  }
}
