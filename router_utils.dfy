/** `router.utils.ts`: the route guard that admits a user holding one of the allowed roles. */
module RouterUtils {
  import opened Js

  /** A thrown `redirect({ to })`. */
  datatype Redirect = Redirect(to: string)

  const ForbiddenPath := "/403"

  /** `allowedRoles.some(role => userRoles.includes(role))` */
  function SomeAllowed(allowedRoles: seq<string>, userRoles: seq<string>): (b: bool)
    ensures b <==> exists i :: 0 <= i < |allowedRoles| && allowedRoles[i] in userRoles
  {
    if allowedRoles == [] then false
    else if allowedRoles[0] in userRoles then true
    else
      var rest := SomeAllowed(allowedRoles[1..], userRoles);
      assert rest <==> exists i :: 1 <= i < |allowedRoles| && allowedRoles[i] in userRoles by {
        forall i | 1 <= i < |allowedRoles|
          ensures allowedRoles[i] == allowedRoles[1..][i - 1]
        {
        }
      }
      rest
  }

  /**
    * `requireRole(userRoles = [], allowedRoles)`: returns when the user has
    * an allowed role, throws a redirect to `/403` otherwise.
    */
  function RequireRole(userRoles: Option<seq<string>>, allowedRoles: seq<string>): (r: Result<(), Redirect>)
    ensures r.Ok? <==> exists role :: role in allowedRoles && role in userRoles.GetOr([])
    ensures r.Err? ==> r.error == Redirect(ForbiddenPath)
  {
    if SomeAllowed(allowedRoles, userRoles.GetOr([])) then Ok(()) else Err(Redirect(ForbiddenPath))
  }

  /** No allowed roles: every user is redirected. */
  lemma EmptyAllowedRedirects(userRoles: Option<seq<string>>)
    ensures RequireRole(userRoles, []) == Err(Redirect(ForbiddenPath))
  {
  }

  /** Omitted user roles default to `[]`: always redirected. */
  lemma OmittedRolesRedirect(allowedRoles: seq<string>)
    ensures RequireRole(None, allowedRoles) == Err(Redirect(ForbiddenPath))
  {
  }

  /** Only membership matters: order and repetition of either list do not change the outcome. */
  lemma MembershipOnly(user1: seq<string>, user2: seq<string>, allowed1: seq<string>, allowed2: seq<string>)
    requires Elements(user1) == Elements(user2) && Elements(allowed1) == Elements(allowed2)
    ensures RequireRole(Some(user1), allowed1) == RequireRole(Some(user2), allowed2)
  {
    if RequireRole(Some(user1), allowed1).Ok? {
      var role :| role in allowed1 && role in user1;
      assert role in Elements(allowed1) && role in Elements(user1);
      assert role in allowed2 && role in user2;
    }
    if RequireRole(Some(user2), allowed2).Ok? {
      var role :| role in allowed2 && role in user2;
      assert role in Elements(allowed2) && role in Elements(user2);
      assert role in allowed1 && role in user1;
    }
  }
}
