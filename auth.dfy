/**
 * Credential dispatch and identity linking for incoming requests.
 *
 * A request carries `Authorization: Bearer <jwt>` (section 2.1 of RFC 6750). The issuer claim
 * (section 4.1.1 of RFC 7519) picks the verifier: the service's own access tokens are checked
 * with its shared HS256 secret (section 3.2 of RFC 7518), every other token goes to the Firebase
 * SDK. An optional metadata token may then rewrite the identity to the account it was merged
 * into. Signature and expiry checking are not modelled: a `Decoder` stands for them and yields
 * the claims of a token or a failure.
 */
module Auth {
  import opened Wrappers

  const IssuerIce := "ice.io/access"
  const IssuerIceMetadata := "ice.io/metadata"
  const RegisteredWithClaim := "registeredWithProvider"
  const IceIdClaim := "iceId"
  const FirebaseIdClaim := "firebaseId"

  const AuthorizationHeader := "Authorization"
  const BearerPrefix := "Bearer "
  const MetadataHeader := "X-Account-Metadata"
  const MigrateHeader := "X-Migrate-Phone-Number-To-Email"
  const MigrateLanguageHeader := "X-Migrate-Phone-Number-Language"
  const MigrateDeviceHeader := "X-Migrate-Phone-Number-Device-Unique-Id"
  const MigrateEmailHeader := "X-Migrate-Phone-Number-Email"
  const MagicLinkHeader := "X-Send-Email-Magic-Link"

  const InvalidTokenCode := "INVALID_TOKEN"
  const NotAllowedCode := "OPERATION_NOT_ALLOWED"

  type Claims = map<string, string>
  type Headers = map<string, string>

  /** The three ways the service decodes a JWT. */
  datatype Scheme =
    | Unverified    // read the claims without checking the signature
    | SharedSecret  // HS256 with the service's JWT secret
    | FirebaseSdk   // the Firebase SDK's verify_id_token

  datatype Decoded = Claims(claims: Claims) | Rejected(reason: string)

  /** Signature, expiry and format checks, left abstract. */
  type Decoder = (Scheme, string) -> Decoded

  /** The exceptions that end authentication, each answered with 401 INVALID_TOKEN. */
  datatype AuthError =
    | DecodeError(reason: string)    // the decoder refused the token
    | MissingClaim(name: string)     // a required claim is missing (a KeyError)
    | InvalidIssuer(issuer: string)  // a metadata token from another issuer
    | NotOwner(userId: string)       // the caller owns none of the metadata's ids

  /** What a verified access token says about its bearer. */
  datatype Identity = Identity(userId: string, email: string, role: string, provider: string)

  function ClaimOr(c: Claims, name: string, default: string): string
  {
    if name in c then c[name] else default
  }

  function HeaderOr(h: Headers, name: string): string
  {
    if name in h then h[name] else ""
  }

  // ---------------------------------------------------------------------------------------
  // Reading the bearer token

  predicate OccursAt(s: string, pat: string, i: nat)
  {
    i + |pat| <= |s| && s[i..i + |pat|] == pat
  }

  /** Python's `s.replace(pat, rep, 1)`: the first occurrence of `pat`, wherever it is, is replaced. */
  function ReplaceFirst(s: string, pat: string, rep: string): (r: string)
    requires pat != ""
    ensures OccursAt(s, pat, 0) ==> r == rep + s[|pat|..]
    ensures |s| < |pat| ==> r == s
    ensures |r| == |s| || |r| == |s| - |pat| + |rep|
    decreases |s|
  {
    if |s| < |pat| then s
    else if s[..|pat|] == pat then rep + s[|pat|..]
    else [s[0]] + ReplaceFirst(s[1..], pat, rep)
  }

  /** A header of the form `Bearer <t>` yields exactly `t`. */
  lemma BearerPrefixStripped(t: string)
    ensures ReplaceFirst(BearerPrefix + t, BearerPrefix, "") == t
  {
    assert (BearerPrefix + t)[..|BearerPrefix|] == BearerPrefix;
    assert (BearerPrefix + t)[|BearerPrefix|..] == t;
  }

  /** A header that never mentions the prefix is taken whole as the token. */
  lemma {:induction false} ReplaceFirstAbsent(s: string, pat: string, rep: string)
    requires pat != ""
    requires forall i: nat :: !OccursAt(s, pat, i)
    ensures ReplaceFirst(s, pat, rep) == s
    decreases |s|
  {
    if |s| >= |pat| {
      assert !OccursAt(s, pat, 0);
      forall i: nat ensures !OccursAt(s[1..], pat, i) {
        assert !OccursAt(s, pat, i + 1);
        if i + |pat| <= |s[1..]| {
          assert s[1..][i..i + |pat|] == s[i + 1..i + 1 + |pat|];
        }
      }
      ReplaceFirstAbsent(s[1..], pat, rep);
    }
  }

  /** In general the first occurrence, at whatever position, is the one replaced. */
  lemma {:induction false} ReplaceFirstAt(s: string, pat: string, rep: string, i: nat)
    requires pat != ""
    requires OccursAt(s, pat, i)
    requires forall j: nat :: j < i ==> !OccursAt(s, pat, j)
    ensures ReplaceFirst(s, pat, rep) == s[..i] + rep + s[i + |pat|..]
    decreases i
  {
    if i == 0 {
      assert s[..|pat|] == pat;
    } else {
      var t := s[1..];
      assert !OccursAt(s, pat, 0);
      assert ReplaceFirst(s, pat, rep) == [s[0]] + ReplaceFirst(t, pat, rep);
      OccursShift(s, pat, i - 1);
      forall j: nat | j < i - 1 ensures !OccursAt(t, pat, j) {
        assert !OccursAt(s, pat, j + 1);
        OccursShift(s, pat, j);
      }
      ReplaceFirstAt(t, pat, rep, i - 1);
      assert t[..i - 1] == s[1..i];
      assert t[i - 1 + |pat|..] == s[i + |pat|..];
      assert [s[0]] + s[1..i] == s[..i];
    }
  }

  /** Dropping the first character moves every occurrence one place to the left. */
  lemma OccursShift(s: string, pat: string, j: nat)
    requires |s| > 0
    ensures OccursAt(s[1..], pat, j) <==> OccursAt(s, pat, j + 1)
  {
    if j + |pat| <= |s| - 1 {
      assert s[1..][j..j + |pat|] == s[j + 1..j + 1 + |pat|];
    }
  }

  /** The token the guard reads: "" when the header is missing. */
  function BearerToken(h: Headers): (t: string)
    ensures AuthorizationHeader !in h ==> t == ""
    ensures AuthorizationHeader in h && OccursAt(h[AuthorizationHeader], BearerPrefix, 0) ==>
              t == h[AuthorizationHeader][|BearerPrefix|..]
  {
    if AuthorizationHeader in h then ReplaceFirst(h[AuthorizationHeader], BearerPrefix, "") else ""
  }

  // ---------------------------------------------------------------------------------------
  // Parsing verified tokens

  /** `_parse_ice`: the shared-secret claims must hold `sub`, `email` and `role`, read in that order. */
  function ParseIce(token: string, decode: Decoder): (r: Result<Identity, AuthError>)
    ensures r.Ok? <==> decode(SharedSecret, token).Claims?
                       && var c := decode(SharedSecret, token).claims;
                       "sub" in c && "email" in c && "role" in c
    ensures r.Ok? ==> var c := decode(SharedSecret, token).claims;
                      r.value == Identity(c["sub"], c["email"], c["role"], "ice")
  {
    match decode(SharedSecret, token)
    case Rejected(reason) => Err(DecodeError(reason))
    case Claims(c) =>
      if "sub" !in c then Err(MissingClaim("sub"))
      else if "email" !in c then Err(MissingClaim("email"))
      else if "role" !in c then Err(MissingClaim("role"))
      else Ok(Identity(c["sub"], c["email"], c["role"], "ice"))
  }

  /** `_parse_firebase`: only `uid` is required; `email` and `role` default to "". */
  function ParseFirebase(token: string, decode: Decoder): (r: Result<Identity, AuthError>)
    ensures r.Ok? <==> decode(FirebaseSdk, token).Claims? && "uid" in decode(FirebaseSdk, token).claims
    ensures r.Ok? ==> var c := decode(FirebaseSdk, token).claims;
                      r.value == Identity(c["uid"], ClaimOr(c, "email", ""), ClaimOr(c, "role", ""), "firebase")
  {
    match decode(FirebaseSdk, token)
    case Rejected(reason) => Err(DecodeError(reason))
    case Claims(c) =>
      if "uid" !in c then Err(MissingClaim("uid"))
      else Ok(Identity(c["uid"], ClaimOr(c, "email", ""), ClaimOr(c, "role", ""), "firebase"))
  }

  /** The issuer read from the unverified claims picks the parser. */
  function ParseBearer(token: string, decode: Decoder): (r: Result<Identity, AuthError>)
    ensures r.Ok? ==> decode(Unverified, token).Claims? && "iss" in decode(Unverified, token).claims
    ensures r.Ok? ==> (r.value.provider == "ice" <==> decode(Unverified, token).claims["iss"] == IssuerIce)
    ensures r.Ok? ==> r.value.provider == "ice" || r.value.provider == "firebase"
    ensures decode(Unverified, token).Claims? && "iss" in decode(Unverified, token).claims ==>
              r == if decode(Unverified, token).claims["iss"] == IssuerIce
                   then ParseIce(token, decode) else ParseFirebase(token, decode)
  {
    match decode(Unverified, token)
    case Rejected(reason) => Err(DecodeError(reason))
    case Claims(c) =>
      if "iss" !in c then Err(MissingClaim("iss"))
      else if c["iss"] == IssuerIce then ParseIce(token, decode)
      else ParseFirebase(token, decode)
  }

  // ---------------------------------------------------------------------------------------
  // Linking through a metadata token

  /** The caller's id is one of the non-empty ids the metadata names. */
  predicate Owns(userId: string, md: Claims)
    requires "sub" in md
  {
    || (md["sub"] != "" && userId == md["sub"])
    || (ClaimOr(md, FirebaseIdClaim, "") != "" && userId == ClaimOr(md, FirebaseIdClaim, ""))
    || (ClaimOr(md, IceIdClaim, "") != "" && userId == ClaimOr(md, IceIdClaim, ""))
  }

  /** The id of the provider the account was registered with, "" when there is none. */
  function SelectedId(md: Claims): string
  {
    var registered := ClaimOr(md, RegisteredWithClaim, "");
    if registered == "firebase" then ClaimOr(md, FirebaseIdClaim, "")
    else if registered == "ice" then ClaimOr(md, IceIdClaim, "")
    else ""
  }

  datatype Linked = Keep | Rewrite(newId: string)

  function LinkedId(userId: string, l: Linked): string
  {
    match l
    case Keep => userId
    case Rewrite(id) => id
  }

  /** What `_modify_with_metadata` decides for a caller id and a metadata token. */
  function Link(userId: string, mdToken: string, decode: Decoder): (r: Result<Linked, AuthError>)
    ensures mdToken == "" ==> r == Ok(Keep)
    ensures mdToken != "" && decode(SharedSecret, mdToken).Claims? ==>
              var md := decode(SharedSecret, mdToken).claims;
              "iss" in md && md["iss"] != IssuerIceMetadata ==> r == Err(InvalidIssuer(md["iss"]))
    ensures r.Ok? && mdToken != "" ==>
              decode(SharedSecret, mdToken).Claims? &&
              var md := decode(SharedSecret, mdToken).claims;
              "iss" in md && md["iss"] == IssuerIceMetadata && "sub" in md
              && (userId != "" ==> Owns(userId, md))
              && (r.value == Keep <==> SelectedId(md) == "")
              && (r.value.Rewrite? ==> r.value.newId == SelectedId(md) && r.value.newId != "" && Owns(r.value.newId, md))
    ensures mdToken != "" && decode(SharedSecret, mdToken).Claims? ==>
              var md := decode(SharedSecret, mdToken).claims;
              "iss" in md && md["iss"] == IssuerIceMetadata && "sub" in md && userId != "" && !Owns(userId, md)
              ==> r == Err(NotOwner(userId))
    ensures mdToken != "" && decode(SharedSecret, mdToken).Claims? ==>
              var md := decode(SharedSecret, mdToken).claims;
              "iss" in md && md["iss"] == IssuerIceMetadata && "sub" in md && (userId == "" || Owns(userId, md))
              ==> r == (if SelectedId(md) == "" then Ok(Keep) else Ok(Rewrite(SelectedId(md))))
  {
    if mdToken == "" then Ok(Keep)
    else match decode(SharedSecret, mdToken)
      case Rejected(reason) => Err(DecodeError(reason))
      case Claims(md) =>
        if "iss" !in md then Err(MissingClaim("iss"))
        else if md["iss"] != IssuerIceMetadata then Err(InvalidIssuer(md["iss"]))
        else if "sub" !in md then Err(MissingClaim("sub"))
        else if userId != "" && !Owns(userId, md) then Err(NotOwner(userId))
        else if SelectedId(md) == "" then Ok(Keep)
        else Ok(Rewrite(SelectedId(md)))
  }

  /** Linking twice with the same metadata token ends at the same id as linking once. */
  lemma LinkIdempotent(userId: string, mdToken: string, decode: Decoder)
    requires Link(userId, mdToken, decode).Ok?
    ensures var once := LinkedId(userId, Link(userId, mdToken, decode).value);
            Link(once, mdToken, decode).Ok?
            && LinkedId(once, Link(once, mdToken, decode).value) == once
  {
    var l := Link(userId, mdToken, decode);
    if l.value.Rewrite? {
      var md := decode(SharedSecret, mdToken).claims;
      assert Owns(l.value.newId, md);
    }
  }

  // ---------------------------------------------------------------------------------------
  // The request identity

  class Token {
    var userId: string
    var email: string
    var role: string
    var rawToken: Option<string>
    var metadata: string
    var language: string
    var deviceUniqueId: string
    var phoneNumberMigration: bool
    var sendEmailMagicLink: bool
    var provider: string

    constructor (rawToken: Option<string>, userId: string, email: string, role: string, provider: string,
                 deviceUniqueId: string, language: string, phoneNumberMigration: bool, sendEmailMagicLink: bool)
      ensures this.rawToken == rawToken && this.userId == userId && this.email == email && this.role == role
      ensures this.provider == provider && this.metadata == ""
      ensures this.deviceUniqueId == deviceUniqueId && this.language == language
      ensures this.phoneNumberMigration == phoneNumberMigration && this.sendEmailMagicLink == sendEmailMagicLink
    {
      this.rawToken := rawToken;
      this.userId := userId;
      this.email := email;
      this.role := role;
      this.provider := provider;
      this.metadata := "";
      this.deviceUniqueId := deviceUniqueId;
      this.language := language;
      this.phoneNumberMigration := phoneNumberMigration;
      this.sendEmailMagicLink := sendEmailMagicLink;
    }

    predicate IsIce(): (ice: bool)
      reads this
      ensures ice <==> provider == "ice"
    {
      provider == "ice"
    }

    /** `_modify_with_metadata`: rewrites `userId` and keeps the metadata token, or fails untouched. */
    method ModifyWithMetadata(mdToken: string, decode: Decoder) returns (err: Option<AuthError>)
      modifies this
      ensures var l := Link(old(userId), mdToken, decode);
              && (l.Err? ==> err == Some(l.error) && userId == old(userId) && metadata == old(metadata))
              && (l.Ok? ==> err == None && userId == LinkedId(old(userId), l.value)
                            && metadata == (if l.value.Rewrite? then mdToken else old(metadata)))
      ensures email == old(email) && role == old(role) && rawToken == old(rawToken) && provider == old(provider)
      ensures language == old(language) && deviceUniqueId == old(deviceUniqueId)
      ensures phoneNumberMigration == old(phoneNumberMigration) && sendEmailMagicLink == old(sendEmailMagicLink)
    {
      var l := Link(userId, mdToken, decode);
      match l
      case Err(e) =>
        err := Some(e);
      case Ok(Keep) =>
        err := None;
      case Ok(Rewrite(id)) =>
        userId := id;
        metadata := mdToken;
        err := None;
    }
  }

  // ---------------------------------------------------------------------------------------
  // The request guard

  datatype Message =
    | NotPresented                       // "Authorization token not presented"
    | Failure(cause: AuthError)          // the text of the exception
    | NotAllowed(uriId: string, tokenId: string)

  datatype ErrorBody = ErrorBody(message: Message, code: string, error: Option<string>)

  /** Either the handler runs with the identity, or the request is answered with an error. */
  datatype Guarded = Invoke(user: Token) | Reject(status: int, body: ErrorBody)

  predicate Migrating(allowMigrate: bool, h: Headers)
  {
    allowMigrate && MigrateHeader in h
  }

  /** The identity a bearer token and a metadata token resolve to, before the path check. */
  function Resolve(token: string, mdToken: string, decode: Decoder): (r: Result<(Identity, Linked), AuthError>)
    ensures r.Ok? ==> ParseBearer(token, decode) == Ok(r.value.0)
                      && Link(r.value.0.userId, mdToken, decode) == Ok(r.value.1)
    ensures r.Err? ==> ParseBearer(token, decode).Err? || Link(ParseBearer(token, decode).value.userId, mdToken, decode).Err?
  {
    match ParseBearer(token, decode)
    case Err(e) => Err(e)
    case Ok(id) =>
      match Link(id.userId, mdToken, decode)
      case Err(e) => Err(e)
      case Ok(l) => Ok((id, l))
  }

  /**
   * `wrapped_auth_required(allowMigrate)(f)` applied to one request: `Invoke(user)` means that
   * `f(user)` is called; `pathUserId` is the `user_id` of the route ("" when it has none).
   */
  method AuthRequired(allowMigrate: bool, h: Headers, pathUserId: string, decode: Decoder) returns (out: Guarded)
    // The phone-migration flow builds an identity from headers only.
    ensures Migrating(allowMigrate, h) ==>
              && out.Invoke?
              && out.user.phoneNumberMigration && out.user.rawToken == None
              && out.user.provider == "" && out.user.role == "" && out.user.metadata == ""
              && out.user.userId == pathUserId
              && out.user.email == HeaderOr(h, MigrateEmailHeader)
              && out.user.language == HeaderOr(h, MigrateLanguageHeader)
              && out.user.deviceUniqueId == HeaderOr(h, MigrateDeviceHeader)
              && out.user.sendEmailMagicLink == (MagicLinkHeader in h)
    // No token: 401 and the handler never runs.
    ensures !Migrating(allowMigrate, h) && BearerToken(h) == "" ==>
              out == Reject(401, ErrorBody(NotPresented, InvalidTokenCode, Some("Unauthorized")))
    // Any decode, parse or link failure: 401 with the failure.
    ensures !Migrating(allowMigrate, h) && BearerToken(h) != "" ==>
              var r := Resolve(BearerToken(h), HeaderOr(h, MetadataHeader), decode);
              r.Err? ==> out == Reject(401, ErrorBody(Failure(r.error), InvalidTokenCode, None))
    // After linking, the path's user id must be the resolved one.
    ensures !Migrating(allowMigrate, h) && BearerToken(h) != "" ==>
              var r := Resolve(BearerToken(h), HeaderOr(h, MetadataHeader), decode);
              r.Ok? ==>
                var id := LinkedId(r.value.0.userId, r.value.1);
                && (pathUserId != "" && pathUserId != id ==>
                      out == Reject(403, ErrorBody(NotAllowed(pathUserId, id), NotAllowedCode, None)))
                && (pathUserId == "" || pathUserId == id ==>
                      && out.Invoke?
                      && out.user.userId == id
                      && out.user.email == r.value.0.email && out.user.role == r.value.0.role
                      && out.user.provider == r.value.0.provider
                      && (out.user.IsIce() <==> decode(Unverified, BearerToken(h)).claims["iss"] == IssuerIce)
                      && out.user.rawToken == Some(BearerToken(h))
                      && out.user.metadata == (if r.value.1.Rewrite? then HeaderOr(h, MetadataHeader) else "")
                      && !out.user.phoneNumberMigration && !out.user.sendEmailMagicLink
                      && out.user.language == "" && out.user.deviceUniqueId == "")
  {
    if Migrating(allowMigrate, h) {
      var user := new Token(None, pathUserId, HeaderOr(h, MigrateEmailHeader), "", "",
                            HeaderOr(h, MigrateDeviceHeader), HeaderOr(h, MigrateLanguageHeader),
                            true, MagicLinkHeader in h);
      return Invoke(user);
    }
    var token := BearerToken(h);
    if token == "" {
      return Reject(401, ErrorBody(NotPresented, InvalidTokenCode, Some("Unauthorized")));
    }
    var parsed := ParseBearer(token, decode);
    if parsed.Err? {
      return Reject(401, ErrorBody(Failure(parsed.error), InvalidTokenCode, None));
    }
    var id := parsed.value;
    var user := new Token(Some(token), id.userId, id.email, id.role, id.provider, "", "", false, false);
    if MetadataHeader in h {
      var err := user.ModifyWithMetadata(h[MetadataHeader], decode);
      if err.Some? {
        return Reject(401, ErrorBody(Failure(err.value), InvalidTokenCode, None));
      }
    }
    if pathUserId != "" && pathUserId != user.userId {
      return Reject(403, ErrorBody(NotAllowed(pathUserId, user.userId), NotAllowedCode, None));
    }
    return Invoke(user);
  }
}
