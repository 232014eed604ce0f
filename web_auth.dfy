/** The sign-in logic of the web client (packages/web/src/App.tsx): the
    allow-list, reading the payload segment of a Google ID token (a JWT,
    RFC 7519, whose segments are base64url per section 5 of RFC 4648), the
    ordered credential checks and the validation of a remembered sign-in.
    React state updates and `localStorage` writes become returned values;
    `atob` and `JSON.parse` are parameters. */
module WebAuth {
  import opened Wrappers
  import opened Text

  datatype AuthState =
    | Checking
    | Unauthenticated(error: Option<string>)
    | Authenticated(email: string)
    | AuthError(message: string)

  /** The token fields the client reads; `exp` is in seconds. */
  datatype JwtPayload = JwtPayload(aud: Option<string>, email: Option<string>, exp: Option<int>, sub: Option<string>)

  const MissingClientId: string := "Missing " + "VITE_GOOGLE_CLIENT_ID " + "in " + "packages/web/.env"
  const NoEmail: string := "Unable to " + "read Google " + "profile email."
  const ClientMismatch: string := "Google client mismatch."
  const SessionExpired: string := "Google session expired."
  const NotAuthorized: string := "This Google " + "account is " + "not " + "authorized."

  predicate Truthy(s: Option<string>) {
    s.Some? && s.value != ""
  }

  // ---------------------------------------------------------------------------
  // Allow-list
  // ---------------------------------------------------------------------------

  function NormalizeEmails(pieces: seq<string>): (r: seq<string>)
    ensures |r| == |pieces|
    ensures forall i :: 0 <= i < |r| ==> r[i] == Lower(Trim(pieces[i]))
  {
    if pieces == [] then [] else [Lower(Trim(pieces[0]))] + NormalizeEmails(pieces[1..])
  }

  /** Lower-casing keeps a text that starts and ends with a non-space
      character so. */
  lemma LowerKeepsEnds(s: string)
    requires s == [] || (!IsSpace(s[0]) && !IsSpace(s[|s| - 1]))
    ensures var l := Lower(s); l == [] || (!IsSpace(l[0]) && !IsSpace(l[|l| - 1]))
  {
    if s != [] {
      LowerCharNotSpace(s[0]);
      LowerCharNotSpace(s[|s| - 1]);
    }
  }

  lemma LowerCharNotSpace(c: char)
    requires !IsSpace(c)
    ensures !IsSpace(LowerChar(c))
  {
  }

  /** An allow-list entry: non-empty, trimmed, comma-free, lower case. */
  predicate CleanEmail(e: string) {
    e != "" && Trim(e) == e && ',' !in e && forall k :: 0 <= k < |e| ==> !IsUpper(e[k])
  }

  lemma NormalizedEmail(p: string)
    requires ',' !in p && Lower(Trim(p)) != ""
    ensures CleanEmail(Lower(Trim(p)))
  {
    LowerKeepsEnds(Trim(p));
    TrimNoSpace(Lower(Trim(p)));
    CommaFreeTrimLower(p);
  }

  /** `parseAllowedEmails`: the comma-separated entries, trimmed,
      lower-cased, empty ones dropped. */
  function ParseAllowedEmails(value: Option<string>): (r: seq<string>)
    ensures value.None? ==> r == []
    ensures forall i :: 0 <= i < |r| ==> CleanEmail(r[i])
    ensures var pieces := Split(value.GetOr(""), ',');
            forall i :: 0 <= i < |pieces| && Lower(Trim(pieces[i])) != "" ==> Lower(Trim(pieces[i])) in r
  {
    var pieces := Split(value.GetOr(""), ',');
    NormalizedEntriesClean(pieces);
    NonEmpty(NormalizeEmails(pieces))
  }

  lemma NormalizedEntriesClean(pieces: seq<string>)
    requires forall i :: 0 <= i < |pieces| ==> ',' !in pieces[i]
    ensures forall e :: e in NormalizeEmails(pieces) && e != "" ==> CleanEmail(e)
  {
    var normalized := NormalizeEmails(pieces);
    forall e | e in normalized && e != "" ensures CleanEmail(e) {
      var i :| 0 <= i < |normalized| && normalized[i] == e;
      NormalizedEmail(pieces[i]);
    }
  }

  lemma NormalizeEmailsAppend(a: seq<string>, b: seq<string>)
    ensures NormalizeEmails(a + b) == NormalizeEmails(a) + NormalizeEmails(b)
  {
  }

  /** The allow-list of `a,b` is that of `a` followed by that of `b`. */
  lemma ParseAllowedEmailsAppend(a: string, b: string)
    ensures ParseAllowedEmails(Some(a + "," + b)) == ParseAllowedEmails(Some(a)) + ParseAllowedEmails(Some(b))
  {
    SplitAppend(a, b, ',');
    NormalizeEmailsAppend(Split(a, ','), Split(b, ','));
    NonEmptyAppend(NormalizeEmails(Split(a, ',')), NormalizeEmails(Split(b, ',')));
  }

  /** A single comma-free entry gives its trimmed, lower-cased text, or
      nothing when that is empty. With ParseAllowedEmailsAppend this fixes
      the list for every setting, in order. */
  lemma ParseAllowedEmailsPiece(p: string)
    requires ',' !in p
    ensures ParseAllowedEmails(Some(p)) == if Lower(Trim(p)) == "" then [] else [Lower(Trim(p))]
  {
    assert Split(p, ',') == [p];
    assert NormalizeEmails([p]) == [Lower(Trim(p))];
  }

  /** Clean addresses come back unchanged from their comma-joined text. */
  lemma ParseAllowedEmailsOfJoin(emails: seq<string>)
    requires forall i :: 0 <= i < |emails| ==> CleanEmail(emails[i])
    ensures ParseAllowedEmails(Some(Join(emails, ","))) == emails
  {
    if emails == [] {
      ParseAllowedEmailsPiece("");
    } else {
      var pieces := Split(Join(emails, ","), ',');
      assert pieces == emails by {
        JoinSplit(emails, ',');
      }
      NormalizeClean(emails);
      NonEmptyKeepsAll(emails);
    }
  }

  lemma NormalizeClean(emails: seq<string>)
    requires forall i :: 0 <= i < |emails| ==> CleanEmail(emails[i])
    ensures NormalizeEmails(emails) == emails
  {
    forall i | 0 <= i < |emails| ensures Lower(Trim(emails[i])) == emails[i] {
      LowerOfLowerCase(emails[i]);
    }
  }

  lemma CommaFreeTrimLower(s: string)
    requires ',' !in s
    ensures ',' !in Lower(Trim(s))
  {
    var i := |s| - |TrimStart(s)|;
    var t := Trim(s);
    TrimSpec(s);
    assert t == s[i..i + |t|];
    assert ',' !in t;
    var l := Lower(t);
    forall k | 0 <= k < |l| ensures l[k] != ',' {
      assert t[k] != ',';
    }
  }

  /** An email passes the allow-list when the list is empty or holds it in
      lower case. */
  predicate Allowed(email: string, allowed: seq<string>) {
    |allowed| == 0 || Lower(email) in allowed
  }

  // ---------------------------------------------------------------------------
  // Reading the token payload
  // ---------------------------------------------------------------------------

  /** The base64url-to-base64 alphabet swap of one character. */
  function ToStandardChar(c: char): char {
    if c == '-' then '+' else if c == '_' then '/' else c
  }

  function ToUrlChar(c: char): char {
    if c == '+' then '-' else if c == '/' then '_' else c
  }

  /** `replace(/-/g, "+").replace(/_/g, "/")`. */
  function ToStandardAlphabet(s: string): (r: string)
    ensures |r| == |s|
    ensures forall i :: 0 <= i < |s| ==> r[i] == ToStandardChar(s[i])
  {
    seq(|s|, i requires 0 <= i < |s| => ToStandardChar(s[i]))
  }

  /** The swap leaves no base64url-only character, and it is undone by the
      opposite swap on any segment free of `+` and `/` (as every base64url
      segment is). */
  lemma AlphabetSwap(s: string)
    ensures '-' !in ToStandardAlphabet(s) && '_' !in ToStandardAlphabet(s)
    ensures '+' !in s && '/' !in s ==>
      seq(|s|, i requires 0 <= i < |s| => ToUrlChar(ToStandardAlphabet(s)[i])) == s
  {
    var r := ToStandardAlphabet(s);
    forall i | 0 <= i < |r| ensures r[i] != '-' && r[i] != '_' {
      assert r[i] == ToStandardChar(s[i]);
    }
  }

  function PadCount(n: nat): nat {
    (4 - n % 4) % 4
  }

  /** `payload.padEnd(length + (4 - length % 4) % 4, "=")`: the shortest
      extension by `=` to a multiple of four characters. */
  function PadBase64(p: string): (r: string)
    ensures |r| % 4 == 0 && |p| <= |r| < |p| + 4
    ensures r[..|p|] == p && forall i :: |p| <= i < |r| ==> r[i] == '='
    ensures |p| % 4 == 0 ==> r == p
  {
    p + seq(PadCount(|p|), _ => '=')
  }

  /** The text handed to `atob`: the second dot-separated segment, swapped
      to the standard alphabet and padded; none without a dot. */
  function PayloadSegment(token: string): (r: Option<string>)
    ensures r.None? <==> '.' !in token
    ensures r.Some? ==> r.value == PadBase64(ToStandardAlphabet(Split(token, '.')[1]))
  {
    var parts := Split(token, '.');
    if |parts| < 2 then None else Some(PadBase64(ToStandardAlphabet(parts[1])))
  }

  /** `decodeJwtPayload`: `null` without a second segment or when decoding
      or parsing throws. */
  function DecodeJwtPayload(token: string, atob: string -> Option<string>, parseJson: string -> Option<JwtPayload>): (r: Option<JwtPayload>)
    ensures '.' !in token ==> r.None?
    ensures '.' in token ==>
              r == match atob(PayloadSegment(token).value) case None => None case Some(d) => parseJson(d)
  {
    match PayloadSegment(token)
    case None => None
    case Some(segment) =>
      match atob(segment)
      case None => None
      case Some(decoded) => parseJson(decoded)
  }

  /** For a token `header.payload.signature`, the segment decoded is the
      payload's, whatever the signature holds. */
  lemma PayloadOfToken(header: string, payload: string, signature: string)
    requires '.' !in header && '.' !in payload
    ensures PayloadSegment(header + "." + payload + "." + signature) == Some(PadBase64(ToStandardAlphabet(payload)))
  {
    var token := header + "." + payload + "." + signature;
    assert token == header + ['.'] + (payload + ['.'] + signature);
    SplitAppend(header, payload + ['.'] + signature, '.');
    SplitAppend(payload, signature, '.');
    assert Split(header, '.') == [header] && Split(payload, '.') == [payload];
  }

  /** A token with only `header.payload` decodes its payload too. */
  lemma PayloadOfTwoPartToken(header: string, payload: string)
    requires '.' !in header && '.' !in payload
    ensures PayloadSegment(header + "." + payload) == Some(PadBase64(ToStandardAlphabet(payload)))
  {
    SplitAppend(header, payload, '.');
    assert Split(header, '.') == [header] && Split(payload, '.') == [payload];
  }

  // ---------------------------------------------------------------------------
  // Credential checks
  // ---------------------------------------------------------------------------

  /** `exp && Date.now() / 1000 > exp`, with the clock in milliseconds. */
  predicate Expired(exp: Option<int>, nowMs: int) {
    exp.Some? && exp.value != 0 && nowMs > exp.value * 1000
  }

  predicate AudienceMatches(p: JwtPayload, clientId: string) {
    !Truthy(p.aud) || p.aud.value == clientId
  }

  datatype CredentialOutcome = CredentialOutcome(auth: AuthState, remembered: Option<JwtPayload>)

  /** `handleCredential`: the checks in their fixed order — email, audience,
      expiry, allow-list — each failing with its own message; a credential
      that passes all four signs in and is remembered as its email, expiry
      and subject. */
  function HandleCredential(payload: Option<JwtPayload>, clientId: string, nowMs: int, allowed: seq<string>): (r: CredentialOutcome)
    ensures r.auth.Authenticated? || r.auth.Unauthenticated?
    ensures r.auth.Authenticated? <==>
      && payload.Some? && Truthy(payload.value.email)
      && AudienceMatches(payload.value, clientId)
      && !Expired(payload.value.exp, nowMs)
      && Allowed(payload.value.email.value, allowed)
    ensures r.auth.Authenticated? ==> r.auth.email == payload.value.email.value
    ensures r.remembered.Some? <==> r.auth.Authenticated?
    ensures r.auth.Unauthenticated? ==> r.auth.error.Some?
  {
    if payload.None? || !Truthy(payload.value.email) then
      CredentialOutcome(Unauthenticated(Some(NoEmail)), None)
    else
      var p := payload.value;
      if !AudienceMatches(p, clientId) then CredentialOutcome(Unauthenticated(Some(ClientMismatch)), None)
      else if Expired(p.exp, nowMs) then CredentialOutcome(Unauthenticated(Some(SessionExpired)), None)
      else if !Allowed(p.email.value, allowed) then CredentialOutcome(Unauthenticated(Some(NotAuthorized)), None)
      else CredentialOutcome(Authenticated(p.email.value), Some(JwtPayload(None, p.email, p.exp, p.sub)))
  }

  /** The reported error is that of the first failing check. */
  lemma CredentialErrorOrder(payload: Option<JwtPayload>, clientId: string, nowMs: int, allowed: seq<string>)
    ensures var a := HandleCredential(payload, clientId, nowMs, allowed).auth;
            && (payload.None? || !Truthy(payload.value.email) ==> a == Unauthenticated(Some(NoEmail)))
            && (payload.Some? && Truthy(payload.value.email) && !AudienceMatches(payload.value, clientId) ==>
                  a == Unauthenticated(Some(ClientMismatch)))
            && ((payload.Some? && Truthy(payload.value.email) && AudienceMatches(payload.value, clientId)
                 && Expired(payload.value.exp, nowMs)) ==> a == Unauthenticated(Some(SessionExpired)))
            && ((payload.Some? && Truthy(payload.value.email) && AudienceMatches(payload.value, clientId)
                 && !Expired(payload.value.exp, nowMs) && !Allowed(payload.value.email.value, allowed)) ==>
                  a == Unauthenticated(Some(NotAuthorized)))
  {
  }

  /** The sign-in effect refuses to start without a client id; with one it
      waits for Google Identity Services (not modelled); an authenticated
      state is left alone. */
  function SignInPrecheck(auth: AuthState, clientId: Option<string>): (r: Option<AuthState>)
    ensures r.Some? <==> !auth.Authenticated? && !Truthy(clientId)
    ensures r.Some? ==> r.value == AuthError(MissingClientId)
  {
    if auth.Authenticated? then None
    else if !Truthy(clientId) then Some(AuthError(MissingClientId))
    else None
  }

  // ---------------------------------------------------------------------------
  // The remembered sign-in
  // ---------------------------------------------------------------------------

  /** What `localStorage` held: nothing (or an empty text), a text that does
      not parse to an object, or a payload. */
  datatype Remembered = NothingStored | StoredUnreadable | StoredPayload(payload: JwtPayload)

  datatype StoredCheck = StoredCheck(auth: AuthState, clearStored: bool)

  /** The effect that validates a remembered sign-in: a missing email, an
      expired `exp` or a disallowed email clears it; otherwise it signs in. */
  function ValidateStored(stored: Remembered, nowMs: int, allowed: seq<string>): (r: StoredCheck)
    ensures r.auth.Authenticated? || r.auth == Unauthenticated(None)
    ensures r.auth.Authenticated? <==>
      && stored.StoredPayload? && Truthy(stored.payload.email)
      && !Expired(stored.payload.exp, nowMs) && Allowed(stored.payload.email.value, allowed)
    ensures r.auth.Authenticated? ==> r.auth.email == stored.payload.email.value
    ensures r.clearStored <==> !stored.NothingStored? && !r.auth.Authenticated?
  {
    match stored
    case NothingStored => StoredCheck(Unauthenticated(None), false)
    case StoredUnreadable => StoredCheck(Unauthenticated(None), true)
    case StoredPayload(p) =>
      if !Truthy(p.email) || Expired(p.exp, nowMs) then StoredCheck(Unauthenticated(None), true)
      else if !Allowed(p.email.value, allowed) then StoredCheck(Unauthenticated(None), true)
      else StoredCheck(Authenticated(p.email.value), false)
  }

  /** A sign-in that was accepted and remembered is accepted again from
      storage, with the same allow-list, at any later time at which its
      `exp` has not passed, and the stored record is kept; once `exp` has
      passed, it is rejected and cleared. */
  lemma RememberedSignInValid(payload: Option<JwtPayload>, clientId: string, nowMs: int, laterMs: int, allowed: seq<string>)
    requires HandleCredential(payload, clientId, nowMs, allowed).auth.Authenticated?
    ensures var c := HandleCredential(payload, clientId, nowMs, allowed);
            && (!Expired(payload.value.exp, laterMs) ==>
                  ValidateStored(StoredPayload(c.remembered.value), laterMs, allowed) == StoredCheck(c.auth, false))
            && (Expired(payload.value.exp, laterMs) ==>
                  ValidateStored(StoredPayload(c.remembered.value), laterMs, allowed) == StoredCheck(Unauthenticated(None), true))
  {
  }

  /** Expiry is permanent: an expired record stays expired later on. */
  lemma ExpiryMonotone(exp: Option<int>, nowMs: int, laterMs: int)
    requires Expired(exp, nowMs) && nowMs <= laterMs
    ensures Expired(exp, laterMs)
  {
  }
}
