/**
 * The server call gate of service/auth_interceptor.go: a static table from
 * full RPC method name to the roles allowed to call it, and `authorize`,
 * which decides a call from that table, the incoming metadata and the JWT
 * verifier. The verifier (HS256 signature and expiry check) is an abstract
 * function from token to claims or an error text.
 */
module ServerAuth {
  import opened Wrappers
  import opened Grpc

  /** The user claims a verified access token carries. */
  datatype Claims = Claims(username: string, role: string)

  /** `JWTManager.Verify`: the claims of a valid token, or the reason it is invalid. */
  type Verifier = string -> Result<Claims, string>

  /** Incoming metadata: absent from the context, or key to list of values. */
  type IncomingMetadata = Option<map<string, seq<string>>>

  /** The server interceptor: its two fields are never written after construction. */
  datatype AuthInterceptor = AuthInterceptor(accessibleRoles: map<string, seq<string>>, verify: Verifier)

  const LaptopServicePath := "/ecommerce.LaptopService/"
  const CreateLaptopMethod := LaptopServicePath + "CreateLaptop"
  const UploadImageMethod := LaptopServicePath + "UploadImage"
  const RateLaptopMethod := LaptopServicePath + "RateLaptop"
  const SearchLaptopMethod := LaptopServicePath + "SearchLaptop"

  /** The policy table: protected methods and their roles; every other method is public. */
  function AccessibleRoles(): map<string, seq<string>>
  {
    map[
      CreateLaptopMethod := ["admin"],
      UploadImageMethod := ["admin"],
      RateLaptopMethod := ["admin", "user"]
    ]
  }

  /** The scan over the method's roles: stops at the first entry equal to `role`. */
  function RoleListed(roles: seq<string>, role: string): (found: bool)
    ensures found <==> role in roles
  {
    if roles == [] then false
    else if roles[0] == role then true
    else RoleListed(roles[1..], role)
  }

  /** The values of the `authorization` key; a missing key reads as an empty list. */
  function AuthorizationValues(md: map<string, seq<string>>): seq<string>
  {
    if AuthorizationKey in md then md[AuthorizationKey] else []
  }

  /**
   * `authorize`: None lets the call through, Some(status) rejects it.
   * A method outside the table passes whatever the metadata and verifier;
   * a protected one needs metadata, a non-empty `authorization` list whose
   * FIRST value verifies, and a verified role listed for the method.
   */
  function Authorize(ic: AuthInterceptor, md: IncomingMetadata, fullMethod: string): (r: Option<Status>)
    ensures fullMethod !in ic.accessibleRoles ==> r == None
    ensures fullMethod in ic.accessibleRoles && md.None? ==>
              r == Some(Status(Unauthenticated, "metadata not provided"))
    ensures fullMethod in ic.accessibleRoles && md.Some? && AuthorizationValues(md.value) == [] ==>
              r == Some(Status(Unauthenticated, "Authorization token not provided"))
    ensures fullMethod in ic.accessibleRoles && md.Some? && AuthorizationValues(md.value) != [] ==>
              var verified := ic.verify(AuthorizationValues(md.value)[0]);
              && (verified.Failure? ==> r == Some(Status(Unauthenticated, "access token is invalid: " + verified.error)))
              && (verified.Success? && verified.value.role in ic.accessibleRoles[fullMethod] ==> r == None)
              && (verified.Success? && verified.value.role !in ic.accessibleRoles[fullMethod] ==>
                    r == Some(Status(PermissionDenied, "no permission to access this RPC")))
    ensures r.Some? ==> r.value.code == Unauthenticated || r.value.code == PermissionDenied
  {
    if fullMethod !in ic.accessibleRoles then None
    else
      var roles := ic.accessibleRoles[fullMethod];
      match md
      case None => Some(Status(Unauthenticated, "metadata not provided"))
      case Some(m) =>
        var values := AuthorizationValues(m);
        if |values| == 0 then Some(Status(Unauthenticated, "Authorization token not provided"))
        else
          match ic.verify(values[0])
          case Failure(e) => Some(Status(Unauthenticated, "access token is invalid: " + e))
          case Success(claims) =>
            if RoleListed(roles, claims.role) then None
            else Some(Status(PermissionDenied, "no permission to access this RPC"))
  }

  /** A call passes exactly when its method is public or it carries a verified, listed role. */
  lemma AuthorizeAllowsExactly(ic: AuthInterceptor, md: IncomingMetadata, fullMethod: string)
    ensures Authorize(ic, md, fullMethod).None? <==>
              || fullMethod !in ic.accessibleRoles
              || (&& md.Some?
                  && AuthorizationValues(md.value) != []
                  && ic.verify(AuthorizationValues(md.value)[0]).Success?
                  && ic.verify(AuthorizationValues(md.value)[0]).value.role in ic.accessibleRoles[fullMethod])
  {
  }

  /** A public method is decided without looking at the metadata or the verifier. */
  lemma PublicMethodIgnoresCredentials(ic: AuthInterceptor, md1: IncomingMetadata, md2: IncomingMetadata,
                                       verify2: Verifier, fullMethod: string)
    requires fullMethod !in ic.accessibleRoles
    ensures Authorize(ic, md1, fullMethod) == Authorize(ic.(verify := verify2), md2, fullMethod) == None
  {
  }

  /** Only the first `authorization` value matters: later values and other keys are ignored. */
  lemma OnlyFirstTokenMatters(ic: AuthInterceptor, m1: map<string, seq<string>>, m2: map<string, seq<string>>,
                              fullMethod: string)
    requires AuthorizationValues(m1) != [] && AuthorizationValues(m2) != []
    requires AuthorizationValues(m1)[0] == AuthorizationValues(m2)[0]
    ensures Authorize(ic, Some(m1), fullMethod) == Authorize(ic, Some(m2), fullMethod)
  {
  }

  /** The verifier is consulted only through the first token: two verifiers agreeing on it decide alike. */
  lemma VerifierSeenOnlyOnFirstToken(ic: AuthInterceptor, verify2: Verifier, m: map<string, seq<string>>,
                                     fullMethod: string)
    requires AuthorizationValues(m) != []
    requires ic.verify(AuthorizationValues(m)[0]) == verify2(AuthorizationValues(m)[0])
    ensures Authorize(ic, Some(m), fullMethod) == Authorize(ic.(verify := verify2), Some(m), fullMethod)
  {
  }

  /** What the table decides for the four methods of the laptop service. */
  lemma {:induction false} LaptopServicePolicy(verify: Verifier, md: IncomingMetadata, token: string, claims: Claims)
    requires md.Some? && AuthorizationValues(md.value) != [] && AuthorizationValues(md.value)[0] == token
    requires verify(token) == Success(claims)
    ensures Authorize(AuthInterceptor(AccessibleRoles(), verify), md, SearchLaptopMethod) == None
    ensures Authorize(AuthInterceptor(AccessibleRoles(), verify), md, CreateLaptopMethod).None? <==> claims.role == "admin"
    ensures Authorize(AuthInterceptor(AccessibleRoles(), verify), md, UploadImageMethod).None? <==> claims.role == "admin"
    ensures Authorize(AuthInterceptor(AccessibleRoles(), verify), md, RateLaptopMethod).None? <==>
              claims.role == "admin" || claims.role == "user"
  {
    var ic := AuthInterceptor(AccessibleRoles(), verify);
    assert SearchLaptopMethod != CreateLaptopMethod && SearchLaptopMethod != UploadImageMethod
        && SearchLaptopMethod != RateLaptopMethod by {
      assert SearchLaptopMethod[|LaptopServicePath|] == 'S';
      assert CreateLaptopMethod[|LaptopServicePath|] == 'C';
      assert UploadImageMethod[|LaptopServicePath|] == 'U';
      assert RateLaptopMethod[|LaptopServicePath|] == 'R';
    }
    assert ic.accessibleRoles[CreateLaptopMethod] == ["admin"];
    assert ic.accessibleRoles[UploadImageMethod] == ["admin"] by {
      assert UploadImageMethod != RateLaptopMethod by {
        assert UploadImageMethod[|LaptopServicePath|] == 'U';
        assert RateLaptopMethod[|LaptopServicePath|] == 'R';
      }
    }
    assert ic.accessibleRoles[RateLaptopMethod] == ["admin", "user"];
  }

  /** The unary gate: the handler's reply when `authorize` passes, the rejection otherwise. */
  function Unary<Req, Resp>(ic: AuthInterceptor, md: IncomingMetadata, fullMethod: string, req: Req,
                            handler: Req -> Result<Resp, Status>): (r: Result<Resp, Status>)
    ensures Authorize(ic, md, fullMethod).None? ==> r == handler(req)
    ensures Authorize(ic, md, fullMethod).Some? ==> r == Failure(Authorize(ic, md, fullMethod).value)
  {
    var err := Authorize(ic, md, fullMethod);
    if err.Some? then Failure(err.value) else handler(req)
  }

  /** The stream gate: the handler's error (None for success) when `authorize` passes, the rejection otherwise. */
  function Stream<S>(ic: AuthInterceptor, md: IncomingMetadata, fullMethod: string, stream: S,
                     handler: S -> Option<Status>): (r: Option<Status>)
    ensures Authorize(ic, md, fullMethod).None? ==> r == handler(stream)
    ensures Authorize(ic, md, fullMethod).Some? ==> r == Authorize(ic, md, fullMethod)
  {
    var err := Authorize(ic, md, fullMethod);
    if err.Some? then err else handler(stream)
  }

  /** A rejected call never reaches its handler: any two handlers give the same reply. */
  lemma RejectedCallSkipsHandler<Req, Resp, S>(ic: AuthInterceptor, md: IncomingMetadata, fullMethod: string,
                                              req: Req, h1: Req -> Result<Resp, Status>, h2: Req -> Result<Resp, Status>,
                                              stream: S, s1: S -> Option<Status>, s2: S -> Option<Status>)
    requires Authorize(ic, md, fullMethod).Some?
    ensures Unary(ic, md, fullMethod, req, h1) == Unary(ic, md, fullMethod, req, h2)
    ensures Stream(ic, md, fullMethod, stream, s1) == Stream(ic, md, fullMethod, stream, s2)
    ensures Unary(ic, md, fullMethod, req, h1).Failure?
  {
  }
}
