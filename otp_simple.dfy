/**
 * The in-memory OTP service used during development: codes live in a
 * module-level map from session id to session, stay valid for ten minutes,
 * can be used once, and may be guessed any number of times.
 */
module OtpSimple {
  import opened Wrappers
  import opened Text

  /** `generateOTP`: a six-digit decimal code in 100000..999999. */
  method GenerateOtp() returns (otp: string)
    ensures |otp| == 6 && forall i :: 0 <= i < 6 ==> IsDigit(otp[i])
    ensures 100000 <= ParseDecimal(otp) <= 999999
    ensures otp == DecimalString(ParseDecimal(otp))
  {
    var n: nat :| 100000 <= n <= 999999;
    SixDigits(n);
    DecimalRoundTrip(n);
    otp := DecimalString(n);
  }

  /** How long a code is valid: ten minutes. */
  const SimpleLifetime := 600000

  /** A stored session; `channel` is the `type` argument (`email` or `mobile`). */
  datatype SimpleSession = SimpleSession(otp: string, contact: string, channel: string, expiresAt: int, verified: bool)

  /** `{ success: true, sessionId, otp, expiresIn: 600 }`: unlike `sendOTP`, the code is returned. */
  datatype SimpleSent = SimpleSent(sessionId: string, otp: string, expiresIn: int)

  /** `session_${Date.now()}_${Math.random()}`, with the random part given as text. */
  function SessionKey(now: nat, random: string): (id: string)
    ensures |id| > 8 && id[..8] == "session_"
  {
    "session_" + DecimalString(now) + "_" + random
  }

  /**
   * The time is digits only and is followed by `_`, so a key determines
   * both its time and its random part: two sends collide only when both agree.
   */
  lemma SessionKeyInjective(n1: nat, r1: string, n2: nat, r2: string)
    requires SessionKey(n1, r1) == SessionKey(n2, r2)
    ensures n1 == n2 && r1 == r2
  {
    var a, b := DecimalString(n1), DecimalString(n2);
    var id := SessionKey(n1, r1);
    assert id[8..] == a + "_" + r1 == b + "_" + r2;
    LeadingDigitsOf(a, r1);
    LeadingDigitsOf(b, r2);
    assert a == id[8..][..|a|] == b;
    DecimalStringInjective(n1, n2);
    assert r1 == id[9 + |a|..] == r2;
  }

  /** The number of digits `s` starts with. */
  function LeadingDigits(s: string): nat
  {
    if s != [] && IsDigit(s[0]) then 1 + LeadingDigits(s[1..]) else 0
  }

  lemma {:induction false} LeadingDigitsOf(d: string, rest: string)
    requires forall i :: 0 <= i < |d| ==> IsDigit(d[i])
    ensures LeadingDigits(d + "_" + rest) == |d|
  {
    if d != [] {
      assert (d + "_" + rest)[1..] == d[1..] + "_" + rest;
      LeadingDigitsOf(d[1..], rest);
    }
  }

  /** The session stored for `otp` at time `now`. */
  function FreshSession(otp: string, contact: string, channel: string, now: int): (s: SimpleSession)
    ensures s.otp == otp && !s.verified && s.expiresAt == now + SimpleLifetime
    ensures s.contact == contact && s.channel == channel
  {
    SimpleSession(otp, contact, channel, now + SimpleLifetime, false)
  }

  /**
   * `verifyOTPSimple(sessionId, otp)` at time `now`: the outcome and the new
   * store. Unknown session, expiry and earlier use are checked in that order
   * before the code is compared; a wrong code changes nothing.
   */
  function SimpleVerifyStep(store: map<string, SimpleSession>, sessionId: string, otp: string, now: int)
    : (out: (Result<(), string>, map<string, SimpleSession>))
    ensures out.0.Ok? <==> sessionId in store && now <= store[sessionId].expiresAt && !store[sessionId].verified && store[sessionId].otp == otp
    ensures out.0.Err? ==> out.1 == store
    ensures out.0.Ok? ==> out.1 == store[sessionId := store[sessionId].(verified := true)]
  {
    if sessionId !in store then (Err("Invalid session"), store)
    else
      var s := store[sessionId];
      if s.expiresAt < now then (Err("OTP expired"), store)
      else if s.verified then (Err("OTP already used"), store)
      else if s.otp == otp then (Ok(()), store[sessionId := s.(verified := true)])
      else (Err("Invalid OTP"), store)
  }

  /** `otpStore` */
  class OtpStore {
    var sessions: map<string, SimpleSession>

    constructor ()
      ensures sessions == map[]
    {
      sessions := map[];
    }

    /**
     * `sendOTPSimple(contact, type)` at time `now`, with `random` standing
     * for `Math.random()`: stores one fresh session under its key and
     * returns the code with it. Every other session is untouched.
     */
    method SendOtpSimple(contact: string, channel: string, now: nat, random: string) returns (r: SimpleSent)
      modifies this
      ensures r.sessionId == SessionKey(now, random) && r.expiresIn == 600
      ensures |r.otp| == 6 && 100000 <= ParseDecimal(r.otp) <= 999999
      ensures sessions == old(sessions)[r.sessionId := FreshSession(r.otp, contact, channel, now)]
    {
      var otp := GenerateOtp();
      var sessionId := SessionKey(now, random);
      sessions := sessions[sessionId := FreshSession(otp, contact, channel, now)];
      r := SimpleSent(sessionId, otp, 600);
    }

    /** `verifyOTPSimple` at time `now`. */
    method VerifyOtpSimple(sessionId: string, otp: string, now: int) returns (r: Result<(), string>)
      modifies this
      ensures (r, sessions) == SimpleVerifyStep(old(sessions), sessionId, otp, now)
    {
      if sessionId !in sessions {
        return Err("Invalid session");
      }
      var session := sessions[sessionId];
      if session.expiresAt < now {
        return Err("OTP expired");
      }
      if session.verified {
        return Err("OTP already used");
      }
      if session.otp == otp {
        sessions := sessions[sessionId := session.(verified := true)];
        r := Ok(());
      } else {
        r := Err("Invalid OTP");
      }
    }
  }

  /** The refusals, in the order they are checked. */
  lemma SimpleRefusals(store: map<string, SimpleSession>, sessionId: string, otp: string, now: int)
    ensures sessionId !in store ==> SimpleVerifyStep(store, sessionId, otp, now).0 == Err("Invalid session")
    ensures sessionId in store && store[sessionId].expiresAt < now ==> SimpleVerifyStep(store, sessionId, otp, now).0 == Err("OTP expired")
    ensures sessionId in store && now <= store[sessionId].expiresAt && store[sessionId].verified ==>
      SimpleVerifyStep(store, sessionId, otp, now).0 == Err("OTP already used")
    ensures sessionId in store && now <= store[sessionId].expiresAt && !store[sessionId].verified && store[sessionId].otp != otp ==>
      SimpleVerifyStep(store, sessionId, otp, now).0 == Err("Invalid OTP")
  {
  }

  /** A code works once: a second verify of the same session before expiry reports `OTP already used`. */
  lemma SimpleOneShot(store: map<string, SimpleSession>, sessionId: string, otp: string, now: int, again: string, later: int)
    requires SimpleVerifyStep(store, sessionId, otp, now).0.Ok?
    requires later <= store[sessionId].expiresAt
    ensures var after := SimpleVerifyStep(store, sessionId, otp, now).1;
      SimpleVerifyStep(after, sessionId, again, later) == (Err("OTP already used"), after)
  {
  }

  /**
   * There is no attempt limit: any number of wrong guesses leave the store
   * as it was, so the right code still verifies afterwards.
   */
  lemma {:induction false} WrongGuessesHarmless(store: map<string, SimpleSession>, sessionId: string, guesses: seq<string>, now: int)
    requires sessionId in store && now <= store[sessionId].expiresAt && !store[sessionId].verified
    requires forall i :: 0 <= i < |guesses| ==> guesses[i] != store[sessionId].otp
    ensures AfterGuesses(store, sessionId, guesses, now) == store
    ensures SimpleVerifyStep(AfterGuesses(store, sessionId, guesses, now), sessionId, store[sessionId].otp, now).0.Ok?
  {
    if guesses != [] {
      WrongGuessesHarmless(store, sessionId, guesses[1..], now);
    }
  }

  /** The store after verifying each guess in turn. */
  function AfterGuesses(store: map<string, SimpleSession>, sessionId: string, guesses: seq<string>, now: int): map<string, SimpleSession>
  {
    if guesses == [] then store
    else AfterGuesses(SimpleVerifyStep(store, sessionId, guesses[0], now).1, sessionId, guesses[1..], now)
  }

  /** An expired session never verifies, whatever the code. */
  lemma ExpiredNeverVerifies(store: map<string, SimpleSession>, sessionId: string, otp: string, now: int)
    requires sessionId in store && store[sessionId].expiresAt < now
    ensures SimpleVerifyStep(store, sessionId, otp, now) == (Err("OTP expired"), store)
  {
  }

  /** The code returned by a send verifies its session for ten minutes. */
  lemma SendThenVerify(store: map<string, SimpleSession>, sessionId: string, otp: string, contact: string, channel: string, sentAt: int, now: int)
    requires now <= sentAt + SimpleLifetime
    ensures var sent := store[sessionId := FreshSession(otp, contact, channel, sentAt)];
      SimpleVerifyStep(sent, sessionId, otp, now) == (Ok(()), sent[sessionId := FreshSession(otp, contact, channel, sentAt).(verified := true)])
  {
  }
}
