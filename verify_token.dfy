/**
 * The token-verifying middleware (src/handlers/verify-token.js). Fetching the
 * signing key and checking the RS256 signature and expiry are one abstract
 * step: a function from the bearer token to the decoded claims, or nothing when
 * the token does not verify. What remains is the decision: take the token from
 * the Authorization header, search the configured claim paths for the access
 * claim, and require one of the three role names in it.
 */
module VerifyToken {
  import opened Wrappers
  import opened Text

  /** Decoded token claims, as JSON. */
  datatype Json = Null | Bool(b: bool) | Num(n: int) | Str(s: string) | Arr(items: seq<Json>) | Obj(fields: map<string, Json>)

  /** JavaScript truthiness: `null`, `false`, `0` and `''` are falsy. */
  predicate Truthy(v: Json)
  {
    match v
    case Null => false
    case Bool(b) => b
    case Num(n) => n != 0
    case Str(s) => s != ""
    case _ => true
  }

  /** `v != null`: neither `undefined` (None) nor `null`. */
  predicate Present(v: Option<Json>)
  {
    v.Some? && v.value != Null
  }

  // ---------------------------------------------------------------------
  // Claim lookup: `_.get(claims, path)` with dot-separated paths
  // ---------------------------------------------------------------------

  /** Follow the keys of `path` through nested objects; None is `undefined`. */
  function GetPath(v: Json, path: seq<string>): Option<Json>
  {
    if |path| == 0 then Some(v)
    else match v
      case Obj(m) => if path[0] in m then GetPath(m[path[0]], path[1..]) else None
      case _ => None
  }

  /** `_.get(claims, claim)`. */
  function Get(claims: Json, claim: string): Option<Json>
  {
    GetPath(claims, Split(claim, '.'))
  }

  /** Looking up a longer path continues from where the shorter one ended. */
  lemma {:induction false} GetPathAppend(v: Json, p: seq<string>, q: seq<string>)
    ensures GetPath(v, p + q) == match GetPath(v, p) { case Some(w) => GetPath(w, q) case None => None }
  {
    if |p| == 0 {
      assert p + q == q;
    } else if v.Obj? && p[0] in v.fields {
      assert (p + q)[1..] == p[1..] + q;
      GetPathAppend(v.fields[p[0]], p[1..], q);
    }
  }

  /** The object nesting `value` under the keys of `path`. */
  function Nest(path: seq<string>, value: Json): Json
  {
    if |path| == 0 then value else Obj(map[path[0] := Nest(path[1..], value)])
  }

  /** A value nested under a path is found again along that path. */
  lemma {:induction false} GetPathNest(path: seq<string>, value: Json)
    ensures GetPath(Nest(path, value), path) == Some(value)
  {
    if |path| > 0 {
      GetPathNest(path[1..], value);
    }
  }

  // ---------------------------------------------------------------------
  // Claim-path search
  // ---------------------------------------------------------------------

  /** `AccessClaimPath.split(',').map(c => c.trim())`. */
  function ClaimPaths(claimPath: string): (paths: seq<string>)
    ensures |paths| >= 1
  {
    TrimAll(Split(claimPath, ','))
  }

  /**
   * The value `access` holds after the search loop, started from `prev`: the first
   * lookup that is not null or undefined; if there is none, the last lookup made.
   */
  function Search(claims: Json, paths: seq<string>, prev: Option<Json>): Option<Json>
  {
    if |paths| == 0 then prev
    else
      var a := Get(claims, paths[0]);
      if Present(a) then a else Search(claims, paths[1..], a)
  }

  /** The search answers the lookup of the first path that yields a value, and no later path's. */
  lemma {:induction false} SearchFindsFirst(claims: Json, paths: seq<string>, prev: Option<Json>, k: nat)
    requires k < |paths|
    requires Present(Get(claims, paths[k]))
    requires forall j :: 0 <= j < k ==> !Present(Get(claims, paths[j]))
    ensures Search(claims, paths, prev) == Get(claims, paths[k])
  {
    if k > 0 {
      assert !Present(Get(claims, paths[0]));
      SearchFindsFirst(claims, paths[1..], Get(claims, paths[0]), k - 1);
    }
  }

  /** When no path yields a value, the search answers null or undefined. */
  lemma {:induction false} SearchMisses(claims: Json, paths: seq<string>, prev: Option<Json>)
    requires !Present(prev)
    requires forall j :: 0 <= j < |paths| ==> !Present(Get(claims, paths[j]))
    ensures !Present(Search(claims, paths, prev))
  {
    if |paths| > 0 {
      SearchMisses(claims, paths[1..], Get(claims, paths[0]));
    }
  }

  /** The search loop: try each path in order and stop at the first that yields a value. */
  method FindAccess(claims: Json, paths: seq<string>) returns (access: Option<Json>)
    ensures access == Search(claims, paths, Some(Null))
  {
    access := Some(Null);
    var i := 0;
    while i < |paths|
      invariant 0 <= i <= |paths|
      invariant Search(claims, paths[i..], access) == Search(claims, paths, Some(Null))
      invariant i > 0 ==> !Present(access)
    {
      assert paths[i..][1..] == paths[i + 1..];
      access := Get(claims, paths[i]);
      if Present(access) {
        return;
      }
      i := i + 1;
    }
  }

  // ---------------------------------------------------------------------
  // Role check: `userAccess.indexOf(role)`
  // ---------------------------------------------------------------------

  /** The first position of `Str(role)` among the items, or -1. */
  function ItemIndex(items: seq<Json>, role: string): (r: int)
    ensures -1 <= r < |items|
    ensures r >= 0 ==> items[r] == Str(role)
    ensures r == -1 <==> Str(role) !in items
  {
    if |items| == 0 then -1
    else if items[0] == Str(role) then 0
    else
      var k := ItemIndex(items[1..], role);
      if k == -1 then -1 else k + 1
  }

  /**
   * `access.indexOf(role)`: a substring search on a string, an element search on
   * an array; any other value has no `indexOf` and the call throws (None).
   */
  function AccessIndexOf(access: Json, role: string): Option<int>
  {
    match access
    case Str(s) => Some(IndexOf(s, role))
    case Arr(items) => Some(ItemIndex(items, role))
    case _ => None
  }

  /** `indexOf` finds a role in an array claim exactly when it is an element, in a string claim when it is a substring. */
  lemma AccessIndexOfMeaning(access: Json, role: string)
    ensures access.Arr? ==> (AccessIndexOf(access, role) != Some(-1) <==> Str(role) in access.items)
    ensures access.Str? ==>
      (AccessIndexOf(access, role) != Some(-1) <==> exists i :: OccursAt(access.s, role, i))
    ensures !access.Arr? && !access.Str? ==> AccessIndexOf(access, role) == None
  {
  }

  /** The configured role names and claim paths. */
  datatype Config = Config(claimPath: string, readRole: string, writeRole: string, adminRole: string)

  /** Why a request was turned away; every reason is answered 401 `{message: "Authorisation failed."}`. */
  datatype Denial =
    | HeaderMissing
    | TokenUnverified
    | ClaimsPathNotFound
    | RolesNotFound
    | AccessNotSearchable

  datatype Outcome = Next | Denied(reason: Denial)

  const AuthFailedMessage := "Authorisation failed."

  /** `authorization.split(' ')[1]`, undefined when there is no second piece. */
  function TokenOf(authorization: string): Option<string>
  {
    var words := Split(authorization, ' ');
    if |words| > 1 then Some(words[1]) else None
  }

  /** In `Bearer <token>` the token is the word after the first space. */
  lemma TokenAfterScheme(scheme: string, token: string)
    requires ' ' !in scheme && ' ' !in token
    ensures TokenOf(scheme + " " + token) == Some(token)
  {
    SplitPrefix(scheme, token, ' ');
    SplitNoSeparator(token, ' ');
  }

  /** The middleware's result and what it stored on the request (None: left as it was). */
  datatype Verdict = Verdict(outcome: Outcome, userData: Option<Json>, userAccess: Option<Json>)

  /** The role check: throws (None) when the access claim has no `indexOf`. */
  function RolesPresent(access: Json, config: Config): Option<bool>
  {
    match (AccessIndexOf(access, config.readRole), AccessIndexOf(access, config.writeRole), AccessIndexOf(access, config.adminRole))
    case (Some(r), Some(w), Some(a)) => Some(!(r == -1 && w == -1 && a == -1))
    case _ => None
  }

  /** What the middleware decides for an Authorization header, given the token verifier. */
  function Decide(authorization: Option<string>, config: Config, verifyJwt: string -> Option<Json>): Verdict
  {
    if authorization.None? || authorization.value == "" then Verdict(Denied(HeaderMissing), None, None)
    else match TokenOf(authorization.value)
      case None => Verdict(Denied(TokenUnverified), None, None)
      case Some(token) =>
        match verifyJwt(token)
        case None => Verdict(Denied(TokenUnverified), None, None)
        case Some(claims) =>
          var access := Search(claims, ClaimPaths(config.claimPath), Some(Null));
          if access.None? || !Truthy(access.value) then Verdict(Denied(ClaimsPathNotFound), Some(claims), None)
          else match RolesPresent(access.value, config)
            case None => Verdict(Denied(AccessNotSearchable), Some(claims), access)
            case Some(false) => Verdict(Denied(RolesNotFound), Some(claims), access)
            case Some(true) => Verdict(Next, Some(claims), access)
  }

  /** A request without an Authorization header is refused and nothing is stored on it. */
  lemma MissingHeaderDenied(config: Config, verifyJwt: string -> Option<Json>)
    ensures Decide(None, config, verifyJwt) == Verdict(Denied(HeaderMissing), None, None)
    ensures Decide(Some(""), config, verifyJwt) == Verdict(Denied(HeaderMissing), None, None)
  {
  }

  /** The access claim is a string or array holding at least one of the three role names. */
  predicate GrantsSomeRole(access: Json, config: Config)
  {
    && (access.Str? || access.Arr?)
    && (|| AccessIndexOf(access, config.readRole) != Some(-1)
        || AccessIndexOf(access, config.writeRole) != Some(-1)
        || AccessIndexOf(access, config.adminRole) != Some(-1))
  }

  lemma RolesPresentMeaning(access: Json, config: Config)
    ensures RolesPresent(access, config) == Some(true) <==> GrantsSomeRole(access, config)
    ensures RolesPresent(access, config) == None <==> !(access.Str? || access.Arr?)
  {
  }

  /**
   * A request passes exactly when its token verifies, some claim path yields a
   * truthy value, and that value holds one of the three role names; it then
   * carries the decoded claims and the found value.
   */
  lemma PassesIff(authorization: string, config: Config, verifyJwt: string -> Option<Json>)
    ensures Decide(Some(authorization), config, verifyJwt).outcome == Next <==>
      && authorization != ""
      && TokenOf(authorization).Some?
      && verifyJwt(TokenOf(authorization).value).Some?
      && var access := Search(verifyJwt(TokenOf(authorization).value).value, ClaimPaths(config.claimPath), Some(Null));
         access.Some? && Truthy(access.value) && GrantsSomeRole(access.value, config)
    ensures Decide(Some(authorization), config, verifyJwt).outcome == Next ==>
      var claims := verifyJwt(TokenOf(authorization).value);
      && Decide(Some(authorization), config, verifyJwt).userData == claims
      && Decide(Some(authorization), config, verifyJwt).userAccess
         == Search(claims.value, ClaimPaths(config.claimPath), Some(Null))
  {
    var v := Decide(Some(authorization), config, verifyJwt);
    if authorization != "" && TokenOf(authorization).Some? && verifyJwt(TokenOf(authorization).value).Some? {
      var claims := verifyJwt(TokenOf(authorization).value).value;
      var access := Search(claims, ClaimPaths(config.claimPath), Some(Null));
      if access.Some? && Truthy(access.value) {
        RolesPresentMeaning(access.value, config);
        assert v == match RolesPresent(access.value, config)
          case None => Verdict(Denied(AccessNotSearchable), Some(claims), access)
          case Some(false) => Verdict(Denied(RolesNotFound), Some(claims), access)
          case Some(true) => Verdict(Next, Some(claims), access);
      } else {
        assert v == Verdict(Denied(ClaimsPathNotFound), Some(claims), None);
      }
    }
  }

  /**
   * A claim path that yields a falsy value (such as '') ends the search and the
   * request is refused, even when a later path would have matched.
   */
  lemma FalsyClaimBlocksLaterPaths(authorization: string, config: Config, verifyJwt: string -> Option<Json>, k: nat)
    requires authorization != ""
    requires TokenOf(authorization).Some? && verifyJwt(TokenOf(authorization).value).Some?
    requires var claims := verifyJwt(TokenOf(authorization).value).value;
      var paths := ClaimPaths(config.claimPath);
      && k < |paths|
      && Present(Get(claims, paths[k])) && !Truthy(Get(claims, paths[k]).value)
      && forall j :: 0 <= j < k ==> !Present(Get(claims, paths[j]))
    ensures Decide(Some(authorization), config, verifyJwt).outcome == Denied(ClaimsPathNotFound)
  {
    var claims := verifyJwt(TokenOf(authorization).value).value;
    SearchFindsFirst(claims, ClaimPaths(config.claimPath), Some(Null), k);
  }

  // ---------------------------------------------------------------------
  // The middleware
  // ---------------------------------------------------------------------

  /** The parts of an Express request the middleware reads and writes. */
  class Request {
    var authorization: Option<string>
    var userData: Option<Json>
    var userAccess: Option<Json>

    constructor (authorization: Option<string>)
      ensures this.authorization == authorization && userData == None && userAccess == None
    {
      this.authorization := authorization;
      userData := None;
      userAccess := None;
    }
  }

  /**
   * The middleware: on success `next()` runs with `req.userData` and
   * `req.userAccess` set; otherwise the answer is 401. The decoded claims are
   * stored before the claim search, and the found value before the role check,
   * so a refused request may carry them.
   */
  method Verify(req: Request, config: Config, verifyJwt: string -> Option<Json>) returns (outcome: Outcome)
    modifies req
    ensures var v := Decide(old(req.authorization), config, verifyJwt);
      && outcome == v.outcome
      && req.userData == (if v.userData.Some? then v.userData else old(req.userData))
      && req.userAccess == (if v.userAccess.Some? then v.userAccess else old(req.userAccess))
      && req.authorization == old(req.authorization)
  {
    if req.authorization.None? || req.authorization.value == "" {
      return Denied(HeaderMissing);
    }
    ghost var authorization := req.authorization;
    var token := TokenOf(req.authorization.value);
    if token.None? {
      return Denied(TokenUnverified);
    }
    var decoded := verifyJwt(token.value);
    if decoded.None? {
      assert Decide(authorization, config, verifyJwt) == Verdict(Denied(TokenUnverified), None, None);
      return Denied(TokenUnverified);
    }
    req.userData := decoded;
    var access := FindAccess(decoded.value, ClaimPaths(config.claimPath));
    ghost var claims := decoded.value;
    if access.None? || !Truthy(access.value) {
      assert Decide(authorization, config, verifyJwt) == Verdict(Denied(ClaimsPathNotFound), Some(claims), None);
      return Denied(ClaimsPathNotFound);
    }
    req.userAccess := access;
    var roles := RolesPresent(access.value, config);
    assert Decide(authorization, config, verifyJwt)
      == if roles == Some(true) then Verdict(Next, Some(claims), access)
         else if roles.None? then Verdict(Denied(AccessNotSearchable), Some(claims), access)
         else Verdict(Denied(RolesNotFound), Some(claims), access);
    if roles.None? {
      return Denied(AccessNotSearchable);
    }
    if !roles.value {
      return Denied(RolesNotFound);
    }
    outcome := Next;
  }
}
