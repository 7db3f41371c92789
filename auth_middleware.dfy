/**
 * The session gate in front of every identity-dependent route: read the
 * `jwt` cookie, validate it, resolve its user, attach the public identity
 * and continue, or reject.
 */
module AuthMiddleware {
  import opened Domain

  /** What the token validator gives back for a token: its user id, a falsy value, or an exception. */
  datatype TokenCheck = Decoded(userId: string) | Invalid | Throws

  /** Either the request is answered with a status, or `next()` runs. */
  datatype Outcome = Reject(status: int, message: string) | Continue

  const NoTokenMessage := "Unauthorized - No token provided"
  const InvalidTokenMessage := "Unauthorized - Invalid token"
  const UserNotFoundMessage := "User not found"
  const ExpiredTokenMessage := "Unauthorized: Invalid or expired token"

  /** `User.findById`: the stored user with the id, if there is one. */
  function FindById(users: seq<User>, id: string): (r: Option<User>)
    ensures r.Some? ==> r.value in users && r.value.id == id
    ensures r.None? <==> forall u :: u in users ==> u.id != id
  {
    if users == [] then None
    else if users[0].id == id then Some(users[0])
    else FindById(users[1..], id)
  }

  /**
   * `validate` stands for the token library's check; `lookupThrows` for a
   * user query that throws. `nextCalls` counts the calls of `next()` and
   * `reqUser` is the identity attached to the request.
   */
  method Authenticate(jwt: Option<string>, validate: string -> TokenCheck, users: seq<User>, lookupThrows: bool)
    returns (outcome: Outcome, reqUser: Option<PublicUser>, nextCalls: nat)
    ensures !Truthy(jwt) ==> outcome == Reject(401, NoTokenMessage)
    ensures Truthy(jwt) && validate(jwt.value).Invalid? ==> outcome == Reject(401, InvalidTokenMessage)
    ensures Truthy(jwt) && validate(jwt.value).Throws? ==> outcome == Reject(401, ExpiredTokenMessage)
    ensures Truthy(jwt) && validate(jwt.value).Decoded? && lookupThrows ==> outcome == Reject(401, ExpiredTokenMessage)
    ensures Truthy(jwt) && validate(jwt.value).Decoded? && !lookupThrows ==>
      var found := FindById(users, validate(jwt.value).userId);
      (found.None? ==> outcome == Reject(404, UserNotFoundMessage)) &&
      (found.Some? ==> outcome == Continue && reqUser == Some(Sanitize(found.value)))
    ensures outcome.Continue? <==> nextCalls == 1
    ensures outcome.Reject? <==> nextCalls == 0
    ensures outcome.Reject? ==> reqUser == None
    ensures outcome.Continue? ==>
      (reqUser.Some? && Truthy(jwt) && validate(jwt.value) == Decoded(reqUser.value.id) &&
       exists u :: u in users && reqUser.value == Sanitize(u))
  {
    reqUser, nextCalls := None, 0;
    if !Truthy(jwt) {
      return Reject(401, NoTokenMessage), reqUser, nextCalls;
    }
    var decoded := validate(jwt.value);
    if decoded.Throws? {
      return Reject(401, ExpiredTokenMessage), reqUser, nextCalls;
    }
    if decoded.Invalid? {
      return Reject(401, InvalidTokenMessage), reqUser, nextCalls;
    }
    if lookupThrows {
      return Reject(401, ExpiredTokenMessage), reqUser, nextCalls;
    }
    var user := FindById(users, decoded.userId);
    if user.None? {
      return Reject(404, UserNotFoundMessage), reqUser, nextCalls;
    }
    reqUser := Some(Sanitize(user.value));
    nextCalls := nextCalls + 1;
    outcome := Continue;
  }
}
