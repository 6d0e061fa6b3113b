/**
 * The back end's write-permission rule for the API: anyone may read, only
 * an authenticated superuser may write.
 */
module Permissions {
  import opened Wrappers

  /** The HTTP methods that only read. */
  const SafeMethods: set<string> := {"GET", "HEAD", "OPTIONS"}

  /** The two flags of a request's user that the rule looks at. */
  datatype RequestUser = RequestUser(isAuthenticated: bool, isSuperuser: bool)

  /** A request: its method, its user (`None` when there is none) and the rest of it. */
  datatype Request = Request(verb: string, user: Option<RequestUser>, body: string)

  /** IsSuperUserOrReadOnly.has_permission; the view it is asked about plays no part. */
  function HasPermission(request: Request, view: string): (allowed: bool)
    ensures request.verb in SafeMethods ==> allowed
    ensures request.verb !in SafeMethods ==>
              (allowed <==> request.user.Some? && request.user.value.isAuthenticated && request.user.value.isSuperuser)
  {
    if request.verb in SafeMethods then true
    else request.user.Some? && request.user.value.isAuthenticated && request.user.value.isSuperuser
  }

  /** A request without a user, or whose user is not an authenticated superuser, cannot write. */
  lemma WriteNeedsSuperuser(request: Request, view: string)
    requires request.verb !in SafeMethods
    requires request.user == None || !request.user.value.isAuthenticated || !request.user.value.isSuperuser
    ensures !HasPermission(request, view)
  {
  }

  /** POST, PUT, PATCH and DELETE are writes: an anonymous request is refused all four. */
  lemma AnonymousCannotWrite(body: string, view: string)
    ensures forall m :: m in ["POST", "PUT", "PATCH", "DELETE"] ==> !HasPermission(Request(m, None, body), view)
  {
  }

  /** The decision is a function of the method and the user's two flags alone. */
  lemma DecisionDependsOnlyOnMethodAndFlags(r1: Request, r2: Request, v1: string, v2: string)
    requires r1.verb == r2.verb && r1.user == r2.user
    ensures HasPermission(r1, v1) == HasPermission(r2, v2)
  {
  }

  /** An authenticated superuser may use any method. */
  lemma SuperuserMayDoAnything(verb: string, body: string, view: string)
    ensures HasPermission(Request(verb, Some(RequestUser(true, true)), body), view)
  {
  }
}
