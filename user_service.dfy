/**
 * The account side of the user service: the system password derived from a
 * campus identifier, the profile document written at registration, the OTP
 * sessions kept in the `otp_sessions` collection (a hashed code, a 60 second
 * expiry and at most three wrong guesses), and the lookup that checks a
 * mobile number against the profile registered for an identifier.
 * Firestore is a pair of maps owned by `UserStore`; code delivery is a log of
 * the messages handed to the email and SMS senders.
 */
module UserService {
  import opened Wrappers
  import opened Text
  import opened Seqs
  import opened Objects
  import opened Base64

  /** The fixed part of every system password. */
  const PasswordPrefix := "Auth@"
  const PasswordSuffix := "#2026"

  /**
   * `generateSystemPassword`: the identifier, trimmed and stripped of every
   * character outside `[a-zA-Z0-9]`, between `Auth@` and `#2026`.
   */
  function GenerateSystemPassword(identifier: string): (r: string)
    ensures |r| >= |PasswordPrefix| + |PasswordSuffix|
    ensures r[..|PasswordPrefix|] == PasswordPrefix
    ensures r[|r| - |PasswordSuffix|..] == PasswordSuffix
    ensures forall i :: |PasswordPrefix| <= i < |r| - |PasswordSuffix| ==> IsAlnum(r[i])
    ensures r == PasswordPrefix + Filter(identifier, IsAlnum) + PasswordSuffix
  {
    var clean := Filter(Trim(identifier), IsAlnum);
    CleanIgnoresTrim(identifier);
    Framed(PasswordPrefix, clean, PasswordSuffix);
    PasswordPrefix + clean + PasswordSuffix
  }

  /** Where the three parts of `a + m + b` sit. */
  lemma Framed(a: string, m: string, b: string)
    ensures |a + m + b| == |a| + |m| + |b|
    ensures (a + m + b)[..|a|] == a
    ensures (a + m + b)[|a| + |m|..] == b
    ensures (a + m + b)[|a|..|a| + |m|] == m
    ensures forall i :: |a| <= i < |a| + |m| ==> (a + m + b)[i] == m[i - |a|]
  {
  }

  /** Trimming is subsumed by the character filter: whitespace is never alphanumeric. */
  lemma CleanIgnoresTrim(s: string)
    ensures Filter(Trim(s), IsAlnum) == Filter(s, IsAlnum)
  {
    CleanIgnoresTrimStart(s);
    CleanIgnoresTrimEnd(TrimStart(s));
  }

  lemma CleanIgnoresTrimStart(s: string)
    ensures Filter(TrimStart(s), IsAlnum) == Filter(s, IsAlnum)
  {
    var t := TrimStart(s);
    var k := |s| - |t|;
    assert s == s[..k] + t;
    FilterConcat(s[..k], t, IsAlnum);
    SpacesVanish(s[..k]);
  }

  lemma CleanIgnoresTrimEnd(t: string)
    ensures Filter(TrimEnd(t), IsAlnum) == Filter(t, IsAlnum)
  {
    var u := TrimEnd(t);
    assert t == u + t[|u|..];
    FilterConcat(u, t[|u|..], IsAlnum);
    SpacesVanish(t[|u|..]);
  }

  /** White space alone filters to nothing. */
  lemma SpacesVanish(w: string)
    requires forall i :: 0 <= i < |w| ==> IsSpace(w[i])
    ensures Filter(w, IsAlnum) == []
  {
    forall i | 0 <= i < |w|
      ensures !IsAlnum(w[i])
    {
      SpaceIsNotAlnum(w[i]);
    }
    FilterNone(w, IsAlnum);
  }

  lemma SpaceIsNotAlnum(c: char)
    requires IsSpace(c)
    ensures !IsAlnum(c)
  {
  }

  /**
   * The password depends on the alphanumeric characters of the identifier
   * only: registration and `loginWithSystemPassword` derive the same
   * password exactly when the identifiers agree on them, so surrounding
   * whitespace or punctuation typed at login does not matter.
   */
  lemma PasswordsAgree(a: string, b: string)
    ensures GenerateSystemPassword(a) == GenerateSystemPassword(b) <==> Filter(a, IsAlnum) == Filter(b, IsAlnum)
  {
    CleanIgnoresTrim(a);
    CleanIgnoresTrim(b);
    var ca, cb := Filter(a, IsAlnum), Filter(b, IsAlnum);
    Framed(PasswordPrefix, ca, PasswordSuffix);
    Framed(PasswordPrefix, cb, PasswordSuffix);
  }

  /** The salt `hashOTP` appends before encoding. */
  const Salt := "salt_key_2024"

  /** `hashOTP(otp)`: `btoa(otp + salt)`, which throws for a character above U+00FF. */
  function HashOtp(otp: string): (r: Result<string, string>)
    ensures r.Ok? <==> IsLatin1(otp)
    ensures r.Err? ==> r.error == "InvalidCharacterError"
  {
    assert IsLatin1(otp) <==> IsLatin1(otp + Salt) by {
      assert forall i :: 0 <= i < |otp| ==> (otp + Salt)[i] == otp[i];
      assert forall i :: |otp| <= i < |otp + Salt| ==> (otp + Salt)[i] == Salt[i - |otp|];
    }
    Btoa(otp + Salt)
  }

  /** A hash match means the codes are equal. */
  lemma HashOtpInjective(a: string, b: string)
    requires HashOtp(a).Ok? && HashOtp(a) == HashOtp(b)
    ensures a == b
  {
    BtoaInjective(a + Salt, b + Salt);
    assert a == (a + Salt)[..|a|];
    assert b == (b + Salt)[..|b|];
  }

  /** The six digits of a generated code always hash. */
  lemma DigitsHash(code: nat)
    ensures HashOtp(DecimalString(code)).Ok?
  {
  }

  /** A profile field: the values `createUserProfile` writes or copies. */
  datatype Value = Str(s: string) | Bool(b: bool) | Num(n: int) | Null | ServerTimestamp

  /** The defaults of a new profile, in the order they are written. */
  function ProfileDefaults(userId: string): (r: Obj<Value>)
    ensures |r| == 8
  {
    [ ("uid", Str(userId)),
      ("emailVerified", Bool(false)),
      ("mobileVerified", Bool(false)),
      ("documentVerified", Bool(false)),
      ("approvalStatus", Str("pending")),
      ("createdAt", ServerTimestamp),
      ("updatedAt", ServerTimestamp),
      ("lastLogin", Null) ]
  }

  /** `{ uid, emailVerified: false, …, lastLogin: null, ...userData }` */
  function ProfileData(userId: string, userData: Obj<Value>): Obj<Value>
  {
    Spread(ProfileDefaults(userId), userData)
  }

  /**
   * A new profile is unverified and pending approval unless `userData`
   * says otherwise: each of these fields is the caller's value when given,
   * else the default; every other field of `userData` is stored as given.
   */
  lemma ProfileFields(userId: string, userData: Obj<Value>, k: string)
    requires DistinctKeys(userData)
    ensures var p := ProfileData(userId, userData);
      && (Get(userData, k).Some? ==> Get(p, k) == Get(userData, k))
      && (Get(userData, k).None? && k == "uid" ==> Get(p, k) == Some(Str(userId)))
      && (Get(userData, k).None? && (k == "emailVerified" || k == "mobileVerified" || k == "documentVerified") ==> Get(p, k) == Some(Bool(false)))
      && (Get(userData, k).None? && k == "approvalStatus" ==> Get(p, k) == Some(Str("pending")))
      && (Get(userData, k).None? && k == "lastLogin" ==> Get(p, k) == Some(Null))
  {
    SpreadGet(ProfileDefaults(userId), userData, k);
    DefaultsGet(userId);
  }

  /** The defaults `createUserProfile` puts first, read back by key. */
  lemma DefaultsGet(userId: string)
    ensures var d := ProfileDefaults(userId);
      && Get(d, "uid") == Some(Str(userId))
      && Get(d, "emailVerified") == Some(Bool(false))
      && Get(d, "mobileVerified") == Some(Bool(false))
      && Get(d, "documentVerified") == Some(Bool(false))
      && Get(d, "approvalStatus") == Some(Str("pending"))
      && Get(d, "lastLogin") == Some(Null)
  {
    var d := ProfileDefaults(userId);
    assert d[0].0 == "uid";
    var t := d[1..];
    assert Get(d, "emailVerified") == Get(t, "emailVerified");
    assert Get(d, "mobileVerified") == Get(t, "mobileVerified");
    assert Get(d, "documentVerified") == Get(t, "documentVerified");
    assert Get(d, "approvalStatus") == Get(t, "approvalStatus");
    assert Get(d, "lastLogin") == Get(t, "lastLogin");
    FlagDefaultsGet(t);
  }

  /** The defaults after `uid`. */
  lemma FlagDefaultsGet(t: Obj<Value>)
    requires t == ProfileDefaults("")[1..]
    ensures && Get(t, "emailVerified") == Some(Bool(false))
      && Get(t, "mobileVerified") == Some(Bool(false))
      && Get(t, "documentVerified") == Some(Bool(false))
      && Get(t, "approvalStatus") == Some(Str("pending"))
      && Get(t, "lastLogin") == Some(Null)
  {
    // the seven keys start with seven different letters
    forall i, j | 0 <= i < j < |t| ensures t[i].0 != t[j].0 {
      assert t[i].0[0] != t[j].0[0];
    }
    GetFirst(t, 0);
    GetFirst(t, 1);
    GetFirst(t, 2);
    GetFirst(t, 3);
    GetFirst(t, 6);
  }

  /** How `sendOTP` is told where to send: one channel name or several. */
  datatype Channels = OneChannel(channel: string) | ChannelList(channels: seq<string>)

  /** One address for every channel, or an object with one address per channel. */
  datatype Contact = Address(address: string) | PerChannel(addresses: map<string, string>)

  /** `Array.isArray(type) ? type : [type]` */
  function ChannelsOf(t: Channels): (r: seq<string>)
    ensures t.OneChannel? ==> r == [t.channel]
    ensures t.ChannelList? ==> r == t.channels
  {
    match t
    case OneChannel(c) => [c]
    case ChannelList(cs) => cs
  }

  /** `contact[channel]` for an object, else the contact itself; `None` is `undefined`. */
  function TargetOf(contact: Contact, channel: string): (r: Option<string>)
    ensures contact.Address? ==> r == Some(contact.address)
    ensures contact.PerChannel? ==> (r.Some? <==> channel in contact.addresses)
    ensures contact.PerChannel? && r.Some? ==> r.value == contact.addresses[channel]
  {
    match contact
    case Address(a) => Some(a)
    case PerChannel(m) => if channel in m then Some(m[channel]) else None
  }

  /** A code handed to the email sender (with the recipient's name) or the SMS sender. */
  datatype Delivery = EmailCode(to: Option<string>, code: string, name: string) | SmsCode(to: Option<string>, code: string)

  /** What one iteration of the channel loop sends: nothing for a channel other than `email` or `mobile`. */
  function DeliveryFor(channel: string, contact: Contact, code: string, name: string): (r: seq<Delivery>)
    ensures |r| <= 1
    ensures r != [] ==> r[0].code == code && r[0].to == TargetOf(contact, channel)
    ensures channel == "email" <==> r != [] && r[0].EmailCode?
    ensures channel == "mobile" <==> r != [] && r[0].SmsCode?
  {
    if channel == "email" then [EmailCode(TargetOf(contact, channel), code, name)]
    else if channel == "mobile" then [SmsCode(TargetOf(contact, channel), code)]
    else []
  }

  /** The deliveries of the whole channel loop, in channel order. */
  function Deliveries(channels: seq<string>, contact: Contact, code: string, name: string): seq<Delivery>
  {
    if channels == [] then []
    else
      var n := |channels| - 1;
      Deliveries(channels[..n], contact, code, name) + DeliveryFor(channels[n], contact, code, name)
  }

  /** One more channel adds its own deliveries at the end. */
  lemma DeliveriesStep(channels: seq<string>, i: int, contact: Contact, code: string, name: string)
    requires 0 <= i < |channels|
    ensures Deliveries(channels[..i + 1], contact, code, name)
         == Deliveries(channels[..i], contact, code, name) + DeliveryFor(channels[i], contact, code, name)
  {
    assert channels[..i + 1][..i] == channels[..i];
  }

  /** Every channel is sent the one same code. */
  lemma {:induction false} DeliveriesCarryCode(channels: seq<string>, contact: Contact, code: string, name: string)
    ensures forall d :: d in Deliveries(channels, contact, code, name) ==> d.code == code
  {
    if channels != [] {
      DeliveriesCarryCode(channels[..|channels| - 1], contact, code, name);
    }
  }

  /** Exactly one message per `email` or `mobile` entry. */
  lemma {:induction false} DeliveriesCount(channels: seq<string>, contact: Contact, code: string, name: string)
    ensures |Deliveries(channels, contact, code, name)| == |Filter(channels, IsDeliveryChannel)|
  {
    if channels != [] {
      var init, last := channels[..|channels| - 1], channels[|channels| - 1];
      DeliveriesCount(init, contact, code, name);
      assert channels == init + [last];
      FilterConcat(init, [last], IsDeliveryChannel);
      assert |Filter([last], IsDeliveryChannel)| == |DeliveryFor(last, contact, code, name)|;
    }
  }

  predicate IsDeliveryChannel(channel: string)
  {
    channel == "email" || channel == "mobile"
  }

  /** An `otp_sessions` document. Times are milliseconds since the epoch. */
  datatype Session = Session(
    userId: string,
    channels: Channels,
    contact: Contact,
    otpHash: string,
    expiresAt: int,
    verified: bool,
    attempts: int,
    createdAt: int,
    verifiedAt: Option<int>)

  /** How long a code is valid: 60 seconds. */
  const OtpLifetime := 60000

  /** The session `sendOTP` stores for `code` at time `now`; `serverTime` fills `createdAt`. */
  function NewSession(userId: string, t: Channels, contact: Contact, code: nat, now: int, serverTime: int): (s: Session)
    ensures s.verified == false && s.attempts == 0 && s.expiresAt == now + OtpLifetime
    ensures HashOtp(DecimalString(code)) == Ok(s.otpHash)
    ensures s.userId == userId && s.channels == t && s.contact == contact && s.verifiedAt == None
  {
    DigitsHash(code);
    Session(userId, t, contact, HashOtp(DecimalString(code)).value, now + OtpLifetime, false, 0, serverTime, None)
  }

  /** `{ success: true, sessionId, expiresIn: 60 }`: the code itself is never returned. */
  datatype OtpSent = OtpSent(sessionId: string, expiresIn: int)

  /**
   * `verifyOTP(sessionId, otp)` at time `now`: the outcome and the new
   * sessions. The checks run in the order unknown session, expiry, attempts,
   * and only then is the code hashed and compared; `verified` is never read.
   */
  function VerifyStep(sessions: map<string, Session>, sessionId: string, otp: string, now: int, serverTime: int)
    : (out: (Result<(), string>, map<string, Session>))
    ensures out.0.Ok? ==> sessionId in sessions && HashOtp(otp) == Ok(sessions[sessionId].otpHash)
    ensures out.1.Keys == sessions.Keys
    ensures forall id :: id in sessions && id != sessionId ==> out.1[id] == sessions[id]
  {
    if sessionId !in sessions then (Err("Invalid session"), sessions)
    else
      var s := sessions[sessionId];
      if s.expiresAt < now then (Err("OTP expired"), sessions)
      else if s.attempts >= 3 then (Err("Too many attempts"), sessions)
      else match HashOtp(otp)
        case Err(e) => (Err(e), sessions)
        case Ok(h) =>
          if h == s.otpHash then (Ok(()), sessions[sessionId := s.(verified := true, verifiedAt := Some(serverTime))])
          else (Err("Invalid OTP"), sessions[sessionId := s.(attempts := s.attempts + 1)])
  }

  /** The refusals, each leaving every session as it was. */
  lemma VerifyRefusals(sessions: map<string, Session>, sessionId: string, otp: string, now: int, serverTime: int)
    ensures sessionId !in sessions ==> VerifyStep(sessions, sessionId, otp, now, serverTime) == (Err("Invalid session"), sessions)
    ensures sessionId in sessions && sessions[sessionId].expiresAt < now ==>
      VerifyStep(sessions, sessionId, otp, now, serverTime) == (Err("OTP expired"), sessions)
    ensures sessionId in sessions && now <= sessions[sessionId].expiresAt && sessions[sessionId].attempts >= 3 ==>
      VerifyStep(sessions, sessionId, otp, now, serverTime) == (Err("Too many attempts"), sessions)
  {
  }

  /**
   * Once the checks pass: a matching hash marks the session verified and
   * leaves `attempts` alone; a Latin-1 code that does not match costs
   * exactly one attempt and fails with `Invalid OTP`.
   */
  lemma VerifyComparison(sessions: map<string, Session>, sessionId: string, otp: string, now: int, serverTime: int)
    requires sessionId in sessions
    requires now <= sessions[sessionId].expiresAt && sessions[sessionId].attempts < 3
    requires IsLatin1(otp)
    ensures var s := sessions[sessionId];
      var (r, after) := VerifyStep(sessions, sessionId, otp, now, serverTime);
      && (HashOtp(otp) == Ok(s.otpHash) ==> r == Ok(()) && after[sessionId] == s.(verified := true, verifiedAt := Some(serverTime)))
      && (HashOtp(otp) != Ok(s.otpHash) ==> r == Err("Invalid OTP") && after[sessionId] == s.(attempts := s.attempts + 1))
  {
  }

  /**
   * For a session issued for `code` that is unexpired and has attempts
   * left, a guess succeeds exactly when it is that code.
   */
  lemma CorrectCodeIff(sessions: map<string, Session>, sessionId: string, code: nat, guess: string, now: int, serverTime: int)
    requires sessionId in sessions
    requires HashOtp(DecimalString(code)) == Ok(sessions[sessionId].otpHash)
    requires now <= sessions[sessionId].expiresAt && sessions[sessionId].attempts < 3
    ensures VerifyStep(sessions, sessionId, guess, now, serverTime).0.Ok? <==> guess == DecimalString(code)
  {
    if VerifyStep(sessions, sessionId, guess, now, serverTime).0.Ok? {
      HashOtpInjective(guess, DecimalString(code));
    }
  }

  /** No session ever has more than three recorded attempts. */
  ghost predicate AttemptsBounded(sessions: map<string, Session>)
  {
    forall id :: id in sessions ==> 0 <= sessions[id].attempts <= 3
  }

  lemma VerifyKeepsAttemptsBounded(sessions: map<string, Session>, sessionId: string, otp: string, now: int, serverTime: int)
    requires AttemptsBounded(sessions)
    ensures AttemptsBounded(VerifyStep(sessions, sessionId, otp, now, serverTime).1)
  {
  }

  /**
   * Three wrong codes lock a fresh session: every later verify before the
   * expiry fails with `Too many attempts`, even with the right code.
   */
  lemma ThreeStrikes(sessions: map<string, Session>, sessionId: string, userId: string, t: Channels, contact: Contact,
                     code: nat, issuedAt: int, serverTime: int,
                     g1: string, g2: string, g3: string, later: string, now: int)
    requires sessionId in sessions && sessions[sessionId] == NewSession(userId, t, contact, code, issuedAt, serverTime)
    requires now <= issuedAt + OtpLifetime
    requires IsLatin1(g1) && IsLatin1(g2) && IsLatin1(g3)
    requires g1 != DecimalString(code) && g2 != DecimalString(code) && g3 != DecimalString(code)
    ensures var s1 := VerifyStep(sessions, sessionId, g1, now, serverTime).1;
      var s2 := VerifyStep(s1, sessionId, g2, now, serverTime).1;
      var s3 := VerifyStep(s2, sessionId, g3, now, serverTime).1;
      s3[sessionId].attempts == 3 &&
      VerifyStep(s3, sessionId, later, now, serverTime) == (Err("Too many attempts"), s3)
  {
    var h := sessions[sessionId].otpHash;
    if HashOtp(g1) == Ok(h) { HashOtpInjective(g1, DecimalString(code)); }
    var s1 := VerifyStep(sessions, sessionId, g1, now, serverTime).1;
    assert s1[sessionId].attempts == 1 && s1[sessionId].otpHash == h;
    if HashOtp(g2) == Ok(h) { HashOtpInjective(g2, DecimalString(code)); }
    var s2 := VerifyStep(s1, sessionId, g2, now, serverTime).1;
    assert s2[sessionId].attempts == 2 && s2[sessionId].otpHash == h;
    if HashOtp(g3) == Ok(h) { HashOtpInjective(g3, DecimalString(code)); }
  }

  /**
   * `verified` is never consulted: a code that verified once verifies again
   * while the session has not expired.
   */
  lemma ReplaySucceeds(sessions: map<string, Session>, sessionId: string, otp: string, now: int, serverTime: int, later: int, laterServerTime: int)
    requires VerifyStep(sessions, sessionId, otp, now, serverTime).0.Ok?
    requires later <= sessions[sessionId].expiresAt
    ensures var after := VerifyStep(sessions, sessionId, otp, now, serverTime).1;
      after[sessionId].verified && VerifyStep(after, sessionId, otp, later, laterServerTime).0.Ok?
  {
  }

  /** A guess with a character above U+00FF makes the hash throw before any attempt is counted. */
  lemma UnencodableGuessCostsNothing(sessions: map<string, Session>, sessionId: string, otp: string, now: int, serverTime: int)
    requires sessionId in sessions
    requires now <= sessions[sessionId].expiresAt && sessions[sessionId].attempts < 3
    requires !IsLatin1(otp)
    ensures VerifyStep(sessions, sessionId, otp, now, serverTime) == (Err("InvalidCharacterError"), sessions)
  {
  }

  /** The call gets as far as `updateDoc`: a known, live session with attempts left and a code `btoa` accepts. */
  predicate ReachesUpdate(sessions: map<string, Session>, sessionId: string, otp: string, now: int)
  {
    sessionId in sessions && now <= sessions[sessionId].expiresAt && sessions[sessionId].attempts < 3 && IsLatin1(otp)
  }

  /**
   * `verifyOTP` when the session read or the update can fail: a rejected
   * `getDoc` or `updateDoc` is rethrown as it is, and the sessions stay as
   * they were.
   */
  function VerifyOutcome(sessions: map<string, Session>, sessionId: string, otp: string, now: int, serverTime: int,
                         readError: Option<string>, updateError: Option<string>)
    : (out: (Result<(), string>, map<string, Session>))
    ensures readError.None? && updateError.None? ==> out == VerifyStep(sessions, sessionId, otp, now, serverTime)
    ensures readError.Some? ==> out == (Err(readError.value), sessions)
    ensures out.1 == sessions || out == VerifyStep(sessions, sessionId, otp, now, serverTime)
    ensures out.0.Ok? ==> readError.None? && updateError.None? && VerifyStep(sessions, sessionId, otp, now, serverTime).0.Ok?
  {
    if readError.Some? then (Err(readError.value), sessions)
    else if updateError.Some? && ReachesUpdate(sessions, sessionId, otp, now) then (Err(updateError.value), sessions)
    else VerifyStep(sessions, sessionId, otp, now, serverTime)
  }

  /**
   * A rejected update turns a wrong code's `Invalid OTP` into the database
   * error and costs no attempt; a right code is not marked verified.
   */
  lemma FailedUpdateCostsNothing(sessions: map<string, Session>, sessionId: string, otp: string, now: int, serverTime: int, e: string)
    requires ReachesUpdate(sessions, sessionId, otp, now)
    ensures var (r, after) := VerifyOutcome(sessions, sessionId, otp, now, serverTime, None, Some(e));
      r == Err(e) && after[sessionId].attempts == sessions[sessionId].attempts && after[sessionId].verified == sessions[sessionId].verified
  {
  }

  /** A user document as `verifyUserContact` reads it. */
  type Profile = Obj<Value>

  /** The query `where('identifier', '==', identifier), where('role', '==', role)`. */
  function HasIdentity(identifier: string, role: string): Profile -> bool
  {
    (p: Profile) => Get(p, "identifier") == Some(Str(identifier)) && Get(p, "role") == Some(Str(role))
  }

  /** The documents the query returns, from the collection in document-id order. */
  function QueryUsers(users: seq<Profile>, identifier: string, role: string): (r: seq<Profile>)
    ensures forall i :: 0 <= i < |r| ==> HasIdentity(identifier, role)(r[i])
  {
    Filter(users, HasIdentity(identifier, role))
  }

  /** `checkIdentifierExists`: some user has the identifier and role; a failed query answers `false`. */
  function CheckIdentifierExists(users: Result<seq<Profile>, string>, identifier: string, role: string): (r: bool)
    ensures users.Err? ==> !r
  {
    users.Ok? && QueryUsers(users.value, identifier, role) != []
  }

  lemma CheckIdentifierExistsIff(users: seq<Profile>, identifier: string, role: string)
    ensures CheckIdentifierExists(Ok(users), identifier, role) <==> exists i :: 0 <= i < |users| && HasIdentity(identifier, role)(users[i])
  {
    if i :| 0 <= i < |users| && HasIdentity(identifier, role)(users[i]) {
      FilterComplete(users, HasIdentity(identifier, role), i);
    }
    if QueryUsers(users, identifier, role) != [] {
      var i := FilterHead(users, HasIdentity(identifier, role));
    }
  }

  /** The answer of `verifyUserContact`. */
  datatype ContactCheck =
    | ContactFound(userId: Option<Value>, email: Option<Value>, universityEmail: Option<Value>,
                   personalEmail: Option<Value>, name: Option<Value>)
    | ContactRejected(error: string)

  /**
   * `verifyUserContact`: the first user with the identifier and role
   * decides; its `mobile` must be exactly `mobile`. A failed query surfaces
   * as `Verification failed`.
   */
  function VerifyUserContact(users: Result<seq<Profile>, string>, identifier: string, mobile: string, role: string)
    : (r: Result<ContactCheck, string>)
    ensures users.Err? <==> r == Err("Verification failed")
  {
    if users.Err? then Err("Verification failed")
    else
      var found := QueryUsers(users.value, identifier, role);
      if found == [] then Ok(ContactRejected("User not found"))
      else
        var p := found[0];
        if Get(p, "mobile") != Some(Str(mobile)) then Ok(ContactRejected("Mobile number does not match our records"))
        else Ok(ContactFound(Get(p, "uid"), Get(p, "email"), Get(p, "universityEmail"), Get(p, "personalEmail"), Get(p, "name")))
  }

  /**
   * The contact is confirmed exactly when the first matching user, in
   * document order, has that mobile number; a later user with the same
   * identifier and role is never consulted.
   */
  lemma VerifyUserContactSpec(users: seq<Profile>, identifier: string, mobile: string, role: string)
    ensures var r := VerifyUserContact(Ok(users), identifier, mobile, role);
      && (r == Ok(ContactRejected("User not found")) <==> forall i :: 0 <= i < |users| ==> !HasIdentity(identifier, role)(users[i]))
      && (r.Ok? && r.value.ContactFound? <==>
            exists i :: 0 <= i < |users| && HasIdentity(identifier, role)(users[i]) && Get(users[i], "mobile") == Some(Str(mobile))
              && forall j :: 0 <= j < i ==> !HasIdentity(identifier, role)(users[j]))
  {
    var p := HasIdentity(identifier, role);
    FilterEmpty(users, p);
    if Filter(users, p) != [] {
      var i := FilterHead(users, p);
      forall k | 0 <= k < |users| && p(users[k]) && (forall j :: 0 <= j < k ==> !p(users[j]))
        ensures k == i
      {
      }
    }
  }

  /** The `users` and `otp_sessions` collections, and the codes handed to the senders. */
  class UserStore {
    var users: map<string, Profile>
    var sessions: map<string, Session>
    var outbox: seq<Delivery>

    constructor ()
      ensures users == map[] && sessions == map[] && outbox == []
    {
      users := map[];
      sessions := map[];
      outbox := [];
    }

    /**
     * `createUserProfile`: writes the defaults overlaid with `userData`
     * under `userId`; a refused write is reported with the prefix
     * `Failed to create user profile: ` and stores nothing.
     */
    method CreateUserProfile(userId: string, userData: Obj<Value>, writeError: Option<string>) returns (r: Result<(), string>)
      modifies this
      ensures writeError.None? ==> r == Ok(()) && users == old(users)[userId := ProfileData(userId, userData)]
      ensures writeError.Some? ==> r == Err("Failed to create user profile: " + writeError.value) && users == old(users)
      ensures sessions == old(sessions) && outbox == old(outbox)
    {
      if writeError.Some? {
        return Err("Failed to create user profile: " + writeError.value);
      }
      users := users[userId := ProfileData(userId, userData)];
      r := Ok(());
    }

    /**
     * `sendOTP`: draws a six-digit code, stores its session under the new
     * document id `sessionId` (taken from the database), then hands the same
     * code to the sender of every `email` or `mobile` channel. `code` is the
     * drawn code, visible to proofs only. A refused write stores and sends
     * nothing.
     */
    method SendOtp(userId: string, t: Channels, contact: Contact, name: string, sessionId: string,
                   now: int, serverTime: int, writeError: Option<string>)
      returns (r: Result<OtpSent, string>, ghost code: nat)
      modifies this
      ensures writeError.Some? ==>
        r == Err("Failed to send OTP: " + writeError.value) && sessions == old(sessions) && outbox == old(outbox)
      ensures writeError.None? ==>
        && 100000 <= code <= 999999
        && r == Ok(OtpSent(sessionId, 60))
        && sessions == old(sessions)[sessionId := NewSession(userId, t, contact, code, now, serverTime)]
        && outbox == old(outbox) + Deliveries(ChannelsOf(t), contact, DecimalString(code), name)
      ensures users == old(users)
    {
      var drawn: nat :| 100000 <= drawn <= 999999;
      code := drawn;
      if writeError.Some? {
        r := Err("Failed to send OTP: " + writeError.value);
        return;
      }
      var otp := DecimalString(drawn);
      sessions := sessions[sessionId := NewSession(userId, t, contact, drawn, now, serverTime)];
      SendToChannels(ChannelsOf(t), contact, otp, name);
      r := Ok(OtpSent(sessionId, 60));
    }

    /** The channel loop of `sendOTP`: one code to every `email` or `mobile` channel, in order. */
    method SendToChannels(channels: seq<string>, contact: Contact, otp: string, name: string)
      modifies this
      ensures outbox == old(outbox) + Deliveries(channels, contact, otp, name)
      ensures sessions == old(sessions) && users == old(users)
    {
      var i := 0;
      while i < |channels|
        invariant 0 <= i <= |channels|
        invariant outbox == old(outbox) + Deliveries(channels[..i], contact, otp, name)
        invariant sessions == old(sessions) && users == old(users)
      {
        DeliveriesStep(channels, i, contact, otp, name);
        var target := TargetOf(contact, channels[i]);
        if channels[i] == "email" {
          outbox := outbox + [EmailCode(target, otp, name)];
        } else if channels[i] == "mobile" {
          outbox := outbox + [SmsCode(target, otp)];
        }
        i := i + 1;
      }
      assert channels[..i] == channels;
    }

    /**
     * `verifyOTP` at time `now`; `serverTime` fills `verifiedAt`, and
     * `readError` and `updateError` are the rejections of `getDoc` and
     * `updateDoc`, if any.
     */
    method VerifyOtp(sessionId: string, otp: string, now: int, serverTime: int, readError: Option<string>, updateError: Option<string>)
      returns (r: Result<(), string>)
      modifies this
      ensures (r, sessions) == VerifyOutcome(old(sessions), sessionId, otp, now, serverTime, readError, updateError)
      ensures users == old(users) && outbox == old(outbox)
    {
      if readError.Some? {
        return Err(readError.value);
      }
      if sessionId !in sessions {
        return Err("Invalid session");
      }
      var s := sessions[sessionId];
      if s.expiresAt < now {
        return Err("OTP expired");
      }
      if s.attempts >= 3 {
        return Err("Too many attempts");
      }
      var h := HashOtp(otp);
      if h.Err? {
        return Err(h.error);
      }
      if updateError.Some? {
        return Err(updateError.value);
      }
      if h.value == s.otpHash {
        sessions := sessions[sessionId := s.(verified := true, verifiedAt := Some(serverTime))];
        r := Ok(());
      } else {
        sessions := sessions[sessionId := s.(attempts := s.attempts + 1)];
        r := Err("Invalid OTP");
      }
    }
  }

  /**
   * The code `sendOTP` delivers verifies its session, and any other Latin-1
   * guess costs an attempt.
   */
  lemma SentCodeVerifies(sessions: map<string, Session>, sessionId: string, userId: string, t: Channels, contact: Contact,
                         code: nat, issuedAt: int, serverTime: int, guess: string, now: int)
    requires sessionId in sessions && sessions[sessionId] == NewSession(userId, t, contact, code, issuedAt, serverTime)
    requires now <= issuedAt + OtpLifetime && IsLatin1(guess)
    ensures VerifyStep(sessions, sessionId, guess, now, serverTime).0.Ok? <==> guess == DecimalString(code)
    ensures guess != DecimalString(code) ==> VerifyStep(sessions, sessionId, guess, now, serverTime).1[sessionId].attempts == 1
  {
    CorrectCodeIff(sessions, sessionId, code, guess, now, serverTime);
  }
}
