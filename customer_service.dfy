/**
 * Customer phone verification: one-time codes and the sessions they open, kept in the
 * cache under per-phone and per-token keys. Expiry is not modelled, so a key lasts until it
 * is overwritten or deleted; the text message carrying the code is not modelled either.
 */
module CustomerService {
  import opened Wrappers
  import opened Strings
  import opened Model
  import opened Redis

  const OtpLength: nat := 6
  const OtpExpiryMinutes: int := 5
  const SessionExpiryMinutes: int := 30
  const MaxOtpAttempts: int := 5
  const ResendCooldownSecs: int := 60
  const MaxOtpPerHour: int := 5

  const KeyPrefixOtp: string := "otp:"
  const KeyPrefixCooldown: string := "otp_cooldown:"
  const KeyPrefixRateLimit: string := "otp_rate:"
  const KeyPrefixSession: string := "customer_session:"

  function OtpKey(phone: string): string { KeyPrefixOtp + phone }
  function CooldownKey(phone: string): string { KeyPrefixCooldown + phone }
  function RateLimitKey(phone: string): string { KeyPrefixRateLimit + phone }
  function SessionKey(token: string): string { KeyPrefixSession + token }

  const ErrPhoneRequired: string := "phone number is required"
  const ErrRestaurantRequired: string := "restaurant ID is required"
  const ErrTooManyRequests: string := "too many OTP requests. Please try again later"
  const ErrOtpRequired: string := "OTP is required"
  const ErrOtpNotFound: string := "OTP expired or not found. Please request a new OTP"
  const ErrInvalidOtpData: string := "invalid OTP data"
  const ErrTooManyAttempts: string := "too many failed attempts. Please request a new OTP"
  const ErrTokenRequired: string := "session token is required"
  const ErrSessionInvalid: string := "session expired or invalid"
  const ErrInvalidSessionData: string := "invalid session data"

  /** The cooldown message names the seconds left on the cooldown key, which the cache reports. */
  function CooldownError(ttlSeconds: int): string {
    "please wait " + Itoa(ttlSeconds) + " seconds before requesting another OTP"
  }

  function WrongOtpError(remaining: int): string {
    "invalid OTP. " + Itoa(remaining) + " attempts remaining"
  }

  // ---------------------------------------------------------------------------
  // Code generation.
  // ---------------------------------------------------------------------------

  /** The answers of the random source, one per digit: a value in [0, 10), or None for a failure. */
  predicate DigitDraws(draws: seq<Option<nat>>) {
    forall i :: 0 <= i < |draws| && draws[i].Some? ==> draws[i].value < 10
  }

  /** The code the draws spell, or the error of the first failed draw. */
  function OtpFromDraws(draws: seq<Option<nat>>): (r: Result<string>)
    requires DigitDraws(draws)
    ensures r.Ok? <==> forall i :: 0 <= i < |draws| ==> draws[i].Some?
    ensures r.Ok? ==> |r.value| == |draws| && AllDigits(r.value)
    ensures r.Ok? ==> forall i :: 0 <= i < |draws| ==> DigitValue(r.value[i]) == draws[i].value
  {
    if |draws| == 0 then Ok("")
    else
      var init := OtpFromDraws(draws[..|draws| - 1]);
      var last := draws[|draws| - 1];
      assert forall i :: 0 <= i < |draws| - 1 ==> draws[..|draws| - 1][i] == draws[i];
      if init.Err? then init
      else if last.None? then Err("random source failed")
      else Ok(init.value + [DigitChar(last.value)])
  }

  /**
   * generateOTP: a buffer of `length` characters filled one random digit at a time; a
   * failed draw abandons the code.
   */
  method GenerateOtp(length: nat, draws: seq<Option<nat>>) returns (r: Result<string>)
    requires |draws| >= length && DigitDraws(draws)
    ensures r == OtpFromDraws(draws[..length])
    ensures r.Ok? ==> |r.value| == length && AllDigits(r.value)
  {
    var otp := new char[length];
    for i := 0 to length
      invariant OtpFromDraws(draws[..i]).Ok?
      invariant otp[..i] == OtpFromDraws(draws[..i]).value
    {
      assert draws[..i + 1][..i] == draws[..i];
      if draws[i].None? {
        assert OtpFromDraws(draws[..i + 1]).Err?;
        OtpErrExtends(draws, i + 1, length);
        return Err("random source failed");
      }
      otp[i] := DigitChar(draws[i].value);
      assert otp[..i + 1] == otp[..i] + [otp[i]];
    }
    r := Ok(otp[..]);
    assert otp[..] == otp[..length];
  }

  /** Once a draw has failed, every longer run of draws fails the same way. */
  lemma {:induction false} OtpErrExtends(draws: seq<Option<nat>>, i: nat, j: nat)
    requires i <= j <= |draws| && DigitDraws(draws) && OtpFromDraws(draws[..i]).Err?
    ensures OtpFromDraws(draws[..j]) == OtpFromDraws(draws[..i])
    decreases j - i
  {
    if i < j {
      assert draws[..i + 1][..i] == draws[..i];
      OtpErrExtends(draws, i + 1, j);
    }
  }

  // ---------------------------------------------------------------------------
  // Sending a code.
  // ---------------------------------------------------------------------------

  /** `Get(rateKey).Int()` with its error dropped: 0 unless the key holds a number. */
  function RateCount(data: map<string, Entry>, key: string): int {
    if key in data && data[key].Text? then AtoiIgnoringError(data[key].s) else 0
  }

  /** The result of SendOTP and the key space after it. */
  datatype SendOutcome = SendOutcome(result: Result<OtpResponse>, data: map<string, Entry>)

  /**
   * SendOTP: the four rejections (empty phone, bad restaurant id, five codes already
   * counted, cooldown key present) come before any write. On success the code is stored
   * with no attempts, the cooldown key is set, and the counter is set to "1" when it read
   * 0 and incremented otherwise. `cooldownTtl` is what the cache reports as the cooldown
   * key's remaining lifetime.
   */
  function SendOtpSpec(data: map<string, Entry>, req: SendOtpRequest, draws: seq<Option<nat>>, cooldownTtl: int): (o: SendOutcome)
    requires |draws| >= OtpLength && DigitDraws(draws)
    ensures o.result.Err? ==> o.data == data
    ensures o.result.Ok? ==> o.result.value == OtpResponse("OTP sent successfully", OtpExpiryMinutes * 60)
    ensures o.result.Ok? <==>
      req.phoneNumber != "" && req.restaurantId > 0 && RateCount(data, RateLimitKey(req.phoneNumber)) < MaxOtpPerHour
      && CooldownKey(req.phoneNumber) !in data && OtpFromDraws(draws[..OtpLength]).Ok?
    ensures req.phoneNumber == "" ==> o.result == Err(ErrPhoneRequired)
    ensures req.phoneNumber != "" && req.restaurantId <= 0 ==> o.result == Err(ErrRestaurantRequired)
    ensures (req.phoneNumber != "" && req.restaurantId > 0
             && RateCount(data, RateLimitKey(req.phoneNumber)) >= MaxOtpPerHour) ==> o.result == Err(ErrTooManyRequests)
    ensures (req.phoneNumber != "" && req.restaurantId > 0
             && RateCount(data, RateLimitKey(req.phoneNumber)) < MaxOtpPerHour
             && CooldownKey(req.phoneNumber) in data) ==> o.result == Err(CooldownError(cooldownTtl))
    ensures (req.phoneNumber != "" && req.restaurantId > 0
             && RateCount(data, RateLimitKey(req.phoneNumber)) < MaxOtpPerHour
             && CooldownKey(req.phoneNumber) !in data && OtpFromDraws(draws[..OtpLength]).Err?) ==>
              o.result == Err("failed to generate OTP: " + OtpFromDraws(draws[..OtpLength]).msg)
  {
    var phone := req.phoneNumber;
    if phone == "" then SendOutcome(Err(ErrPhoneRequired), data)
    else if req.restaurantId <= 0 then SendOutcome(Err(ErrRestaurantRequired), data)
    else
      var rateCount := RateCount(data, RateLimitKey(phone));
      if rateCount >= MaxOtpPerHour then SendOutcome(Err(ErrTooManyRequests), data)
      else if CooldownKey(phone) in data then SendOutcome(Err(CooldownError(cooldownTtl)), data)
      else match OtpFromDraws(draws[..OtpLength])
        case Err(e) => SendOutcome(Err("failed to generate OTP: " + e), data)
        case Ok(otp) =>
          var d1 := data[OtpKey(phone) := OtpJson(OtpData(otp, 0))][CooldownKey(phone) := Text("1")];
          var d2 := if rateCount == 0 then d1[RateLimitKey(phone) := Text("1")] else IncrStep(d1, RateLimitKey(phone)).data;
          SendOutcome(Ok(OtpResponse("OTP sent successfully", OtpExpiryMinutes * 60)), d2)
  }

  method SendOtp(redis: Client, req: SendOtpRequest, draws: seq<Option<nat>>, cooldownTtl: int) returns (r: Result<OtpResponse>)
    requires |draws| >= OtpLength && DigitDraws(draws)
    modifies redis
    ensures SendOtpSpec(old(redis.data), req, draws, cooldownTtl) == SendOutcome(r, redis.data)
  {
    if req.phoneNumber == "" {
      return Err(ErrPhoneRequired);
    }
    if req.restaurantId <= 0 {
      return Err(ErrRestaurantRequired);
    }
    var rateLimitKey := RateLimitKey(req.phoneNumber);
    var rateCount := RateCount(redis.data, rateLimitKey);
    if rateCount >= MaxOtpPerHour {
      return Err(ErrTooManyRequests);
    }
    var cooldownKey := CooldownKey(req.phoneNumber);
    if redis.Exists(cooldownKey) {
      return Err(CooldownError(cooldownTtl));
    }
    var otp := GenerateOtp(OtpLength, draws);
    if otp.Err? {
      return Err("failed to generate OTP: " + otp.msg);
    }
    redis.Set(OtpKey(req.phoneNumber), OtpJson(OtpData(otp.value, 0)));
    redis.Set(cooldownKey, Text("1"));
    if rateCount == 0 {
      redis.Set(rateLimitKey, Text("1"));
    } else {
      var _ := redis.Incr(rateLimitKey);
    }
    r := Ok(OtpResponse("OTP sent successfully", OtpExpiryMinutes * 60));
  }

  /** A successful send stores the drawn code with no attempts and blocks an immediate resend. */
  lemma SendStoresCode(data: map<string, Entry>, req: SendOtpRequest, draws: seq<Option<nat>>, ttl: int, again: seq<Option<nat>>, ttl2: int)
    requires |draws| >= OtpLength && DigitDraws(draws) && |again| >= OtpLength && DigitDraws(again)
    requires SendOtpSpec(data, req, draws, ttl).result.Ok?
    ensures OtpKey(req.phoneNumber) in SendOtpSpec(data, req, draws, ttl).data
    ensures SendOtpSpec(data, req, draws, ttl).data[OtpKey(req.phoneNumber)] == OtpJson(OtpData(OtpFromDraws(draws[..OtpLength]).value, 0))
    ensures SendOtpSpec(SendOtpSpec(data, req, draws, ttl).data, req, again, ttl2).result.Err?
    ensures RateCount(SendOtpSpec(data, req, draws, ttl).data, RateLimitKey(req.phoneNumber)) < MaxOtpPerHour ==>
            SendOtpSpec(SendOtpSpec(data, req, draws, ttl).data, req, again, ttl2).result == Err(CooldownError(ttl2))
  {
    var phone := req.phoneNumber;
    assert OtpKey(phone) != RateLimitKey(phone) by {
      assert OtpKey(phone)[..4] == "otp:" && RateLimitKey(phone)[..4] == "otp_";
    }
    assert CooldownKey(phone) != RateLimitKey(phone) by {
      assert CooldownKey(phone)[..5] == "otp_c" && RateLimitKey(phone)[..5] == "otp_r";
    }
    var d := SendOtpSpec(data, req, draws, ttl).data;
    assert CooldownKey(phone) in d;
  }

  /** A counter written by this service goes up by exactly one with each successful send. */
  lemma SendCountsRequest(data: map<string, Entry>, req: SendOtpRequest, draws: seq<Option<nat>>, ttl: int, n: nat)
    requires |draws| >= OtpLength && DigitDraws(draws)
    requires n == 0 ==> RateLimitKey(req.phoneNumber) !in data
    requires n > 0 ==> RateLimitKey(req.phoneNumber) in data && data[RateLimitKey(req.phoneNumber)] == Text(Itoa(n))
    requires n <= MaxInt64
    requires SendOtpSpec(data, req, draws, ttl).result.Ok?
    ensures SendOtpSpec(data, req, draws, ttl).data[RateLimitKey(req.phoneNumber)] == Text(Itoa(n + 1))
  {
    var phone := req.phoneNumber;
    var key := RateLimitKey(phone);
    assert OtpKey(phone) != key by {
      assert OtpKey(phone)[..4] == "otp:" && key[..4] == "otp_";
    }
    assert CooldownKey(phone) != key by {
      assert CooldownKey(phone)[..5] == "otp_c" && key[..5] == "otp_r";
    }
    var otp := OtpFromDraws(draws[..OtpLength]).value;
    var d1 := data[OtpKey(phone) := OtpJson(OtpData(otp, 0))][CooldownKey(phone) := Text("1")];
    if n > 0 {
      AtoiItoa(n);
      assert RateCount(data, key) == n;
      assert n < MaxOtpPerHour;
      RedisIntegerItoa(n);
      assert d1[key] == Text(Itoa(n));
      assert IncrStep(d1, key).reply == Ok(n + 1);
      assert SendOtpSpec(data, req, draws, ttl).data == IncrStep(d1, key).data;
    } else {
      assert RateCount(data, key) == 0;
    }
  }

  // ---------------------------------------------------------------------------
  // Verifying a code.
  // ---------------------------------------------------------------------------

  datatype VerifyOutcome = VerifyOutcome(result: Result<VerifyOtpResponse>, data: map<string, Entry>)

  /**
   * VerifyOTP: after the three input checks, a missing or undecodable entry fails; a spent
   * entry (five attempts) is deleted and fails; a wrong code records one more attempt; the
   * right code deletes the entry and opens a session under a fresh token.
   */
  function VerifyOtpSpec(data: map<string, Entry>, req: VerifyOtpRequest, token: string, now: Time): (o: VerifyOutcome)
    ensures o.result.Ok? ==> o.result.value == VerifyOtpResponse(token, now + SessionExpiryMinutes * 60, req.phoneNumber)
    ensures o.result.Ok? ==>
              (OtpKey(req.phoneNumber) in data && data[OtpKey(req.phoneNumber)].OtpJson?
               && data[OtpKey(req.phoneNumber)].otp.otp == req.otp
               && data[OtpKey(req.phoneNumber)].otp.attempts < MaxOtpAttempts)
    ensures o.result.Ok? <==>
              req.phoneNumber != "" && req.otp != "" && req.restaurantId > 0
              && OtpKey(req.phoneNumber) in data && data[OtpKey(req.phoneNumber)].OtpJson?
              && data[OtpKey(req.phoneNumber)].otp.otp == req.otp
              && data[OtpKey(req.phoneNumber)].otp.attempts < MaxOtpAttempts
    ensures o.result.Ok? ==>
              o.data == (data - {OtpKey(req.phoneNumber)})[SessionKey(token) := SessionJson(CustomerSession(req.phoneNumber, req.restaurantId, true))]
    ensures req.phoneNumber == "" ==> o.result == Err(ErrPhoneRequired) && o.data == data
    ensures req.phoneNumber != "" && req.otp == "" ==> o.result == Err(ErrOtpRequired) && o.data == data
    ensures req.phoneNumber != "" && req.otp != "" && req.restaurantId <= 0 ==>
              o.result == Err(ErrRestaurantRequired) && o.data == data
    ensures req.phoneNumber != "" && req.otp != "" && req.restaurantId > 0 && OtpKey(req.phoneNumber) !in data ==>
              o.result == Err(ErrOtpNotFound) && o.data == data
    ensures (req.phoneNumber != "" && req.otp != "" && req.restaurantId > 0 && OtpKey(req.phoneNumber) in data
             && !data[OtpKey(req.phoneNumber)].OtpJson?) ==> o.result == Err(ErrInvalidOtpData) && o.data == data
    ensures (req.phoneNumber != "" && req.otp != "" && req.restaurantId > 0 && OtpKey(req.phoneNumber) in data
             && data[OtpKey(req.phoneNumber)].OtpJson? && data[OtpKey(req.phoneNumber)].otp.attempts >= MaxOtpAttempts) ==>
              o.result == Err(ErrTooManyAttempts) && o.data == data - {OtpKey(req.phoneNumber)}
  {
    var phone := req.phoneNumber;
    var key := OtpKey(phone);
    if phone == "" then VerifyOutcome(Err(ErrPhoneRequired), data)
    else if req.otp == "" then VerifyOutcome(Err(ErrOtpRequired), data)
    else if req.restaurantId <= 0 then VerifyOutcome(Err(ErrRestaurantRequired), data)
    else if key !in data then VerifyOutcome(Err(ErrOtpNotFound), data)
    else if !data[key].OtpJson? then VerifyOutcome(Err(ErrInvalidOtpData), data)
    else
      var entry := data[key].otp;
      if entry.attempts >= MaxOtpAttempts then VerifyOutcome(Err(ErrTooManyAttempts), data - {key})
      else if entry.otp != req.otp then
        var attempts := entry.attempts + 1;
        VerifyOutcome(Err(WrongOtpError(MaxOtpAttempts - attempts)), data[key := OtpJson(entry.(attempts := attempts))])
      else
        var session := CustomerSession(phone, req.restaurantId, true);
        VerifyOutcome(Ok(VerifyOtpResponse(token, now + SessionExpiryMinutes * 60, phone)),
                      (data - {key})[SessionKey(token) := SessionJson(session)])
  }

  method VerifyOtp(redis: Client, req: VerifyOtpRequest, token: string, now: Time) returns (r: Result<VerifyOtpResponse>)
    modifies redis
    ensures VerifyOtpSpec(old(redis.data), req, token, now) == VerifyOutcome(r, redis.data)
  {
    if req.phoneNumber == "" {
      return Err(ErrPhoneRequired);
    }
    if req.otp == "" {
      return Err(ErrOtpRequired);
    }
    if req.restaurantId <= 0 {
      return Err(ErrRestaurantRequired);
    }
    var otpKey := OtpKey(req.phoneNumber);
    var stored := redis.Get(otpKey);
    if stored.None? {
      return Err(ErrOtpNotFound);
    }
    if !stored.value.OtpJson? {
      return Err(ErrInvalidOtpData);
    }
    var otpData := stored.value.otp;
    if otpData.attempts >= MaxOtpAttempts {
      redis.Del(otpKey);
      return Err(ErrTooManyAttempts);
    }
    if otpData.otp != req.otp {
      otpData := otpData.(attempts := otpData.attempts + 1);
      redis.Set(otpKey, OtpJson(otpData));
      return Err(WrongOtpError(MaxOtpAttempts - otpData.attempts));
    }
    redis.Del(otpKey);
    var session := CustomerSession(req.phoneNumber, req.restaurantId, true);
    redis.Set(SessionKey(token), SessionJson(session));
    r := Ok(VerifyOtpResponse(token, now + SessionExpiryMinutes * 60, req.phoneNumber));
  }

  lemma OtpAndSessionKeysDiffer(phone: string, token: string)
    ensures OtpKey(phone) != SessionKey(token)
  {
    assert OtpKey(phone)[..2] == "ot" && SessionKey(token)[..2] == "cu";
  }

  /** The right code opens a session for the phone and restaurant of the request. */
  lemma VerifyOpensSession(data: map<string, Entry>, req: VerifyOtpRequest, token: string, now: Time)
    requires VerifyOtpSpec(data, req, token, now).result.Ok?
    ensures GetSession(VerifyOtpSpec(data, req, token, now).data, token)
            == (if token == "" then Err(ErrTokenRequired) else Ok(CustomerSession(req.phoneNumber, req.restaurantId, true)))
  {
  }

  /** A code works once: the same request right after a success finds no code. */
  lemma VerifySingleUse(data: map<string, Entry>, req: VerifyOtpRequest, token: string, token2: string, now: Time, later: Time)
    requires VerifyOtpSpec(data, req, token, now).result.Ok?
    ensures VerifyOtpSpec(VerifyOtpSpec(data, req, token, now).data, req, token2, later).result == Err(ErrOtpNotFound)
  {
    OtpAndSessionKeysDiffer(req.phoneNumber, token);
  }

  /** A wrong code below the limit adds one attempt and reports how many remain. */
  lemma WrongCodeCounts(data: map<string, Entry>, req: VerifyOtpRequest, token: string, now: Time)
    requires req.phoneNumber != "" && req.otp != "" && req.restaurantId > 0
    requires OtpKey(req.phoneNumber) in data && data[OtpKey(req.phoneNumber)].OtpJson?
    requires data[OtpKey(req.phoneNumber)].otp.attempts < MaxOtpAttempts
    requires data[OtpKey(req.phoneNumber)].otp.otp != req.otp
    ensures VerifyOtpSpec(data, req, token, now).result
            == Err(WrongOtpError(MaxOtpAttempts - data[OtpKey(req.phoneNumber)].otp.attempts - 1))
    ensures VerifyOtpSpec(data, req, token, now).data[OtpKey(req.phoneNumber)]
            == OtpJson(data[OtpKey(req.phoneNumber)].otp.(attempts := data[OtpKey(req.phoneNumber)].otp.attempts + 1))
  {
  }

  /** With five attempts spent, even the right code fails, and the code is deleted. */
  lemma SpentCodeLocksOut(data: map<string, Entry>, req: VerifyOtpRequest, token: string, now: Time)
    requires req.phoneNumber != "" && req.otp != "" && req.restaurantId > 0
    requires OtpKey(req.phoneNumber) in data && data[OtpKey(req.phoneNumber)].OtpJson?
    requires data[OtpKey(req.phoneNumber)].otp.attempts >= MaxOtpAttempts
    ensures VerifyOtpSpec(data, req, token, now).result == Err(ErrTooManyAttempts)
    ensures OtpKey(req.phoneNumber) !in VerifyOtpSpec(data, req, token, now).data
  {
  }

  /** The wrong-code path applied `k` times to the same request. */
  function WrongTries(data: map<string, Entry>, req: VerifyOtpRequest, token: string, now: Time, k: nat): map<string, Entry> {
    if k == 0 then data else VerifyOtpSpec(WrongTries(data, req, token, now, k - 1), req, token, now).data
  }

  /** A fresh code survives four wrong tries; after five wrong tries the right code is refused. */
  lemma {:induction false} FiveWrongTriesLockOut(data: map<string, Entry>, req: VerifyOtpRequest, right: VerifyOtpRequest, token: string, now: Time, k: nat)
    requires req.phoneNumber != "" && req.otp != "" && req.restaurantId > 0
    requires OtpKey(req.phoneNumber) in data && data[OtpKey(req.phoneNumber)].OtpJson?
    requires data[OtpKey(req.phoneNumber)].otp.attempts == 0 && data[OtpKey(req.phoneNumber)].otp.otp != req.otp
    requires data[OtpKey(req.phoneNumber)].otp.otp != ""
    requires k <= 5
    ensures OtpKey(req.phoneNumber) in WrongTries(data, req, token, now, k)
    ensures WrongTries(data, req, token, now, k)[OtpKey(req.phoneNumber)]
            == OtpJson(data[OtpKey(req.phoneNumber)].otp.(attempts := k))
    ensures k == 5 && right == req.(otp := data[OtpKey(req.phoneNumber)].otp.otp) ==>
            VerifyOtpSpec(WrongTries(data, req, token, now, k), right, token, now).result == Err(ErrTooManyAttempts)
  {
    if k > 0 {
      FiveWrongTriesLockOut(data, req, right, token, now, k - 1);
      WrongCodeCounts(WrongTries(data, req, token, now, k - 1), req, token, now);
    }
    if k == 5 && right == req.(otp := data[OtpKey(req.phoneNumber)].otp.otp) {
      SpentCodeLocksOut(WrongTries(data, req, token, now, k), right, token, now);
    }
  }

  // ---------------------------------------------------------------------------
  // Sessions.
  // ---------------------------------------------------------------------------

  /** GetSession: the session stored under the token, if it decodes. */
  function GetSession(data: map<string, Entry>, token: string): (r: Result<CustomerSession>)
    ensures r.Ok? <==> token != "" && SessionKey(token) in data && data[SessionKey(token)].SessionJson?
    ensures r.Ok? ==> r.value == data[SessionKey(token)].session
  {
    if token == "" then Err(ErrTokenRequired)
    else if SessionKey(token) !in data then Err(ErrSessionInvalid)
    else match data[SessionKey(token)]
      case SessionJson(s) => Ok(s)
      case _ => Err(ErrInvalidSessionData)
  }

  /** InvalidateSession: an empty token is an error; otherwise the session key is deleted. */
  method InvalidateSession(redis: Client, token: string) returns (r: Outcome)
    modifies redis
    ensures token == "" ==> r == Fail(ErrTokenRequired) && redis.data == old(redis.data)
    ensures token != "" ==> r == Pass && redis.data == old(redis.data) - {SessionKey(token)}
  {
    if token == "" {
      return Fail(ErrTokenRequired);
    }
    redis.Del(SessionKey(token));
    r := Pass;
  }

  /** After a session is invalidated, looking it up fails. */
  lemma InvalidatedSessionIsGone(data: map<string, Entry>, token: string)
    ensures GetSession(data - {SessionKey(token)}, token).Err?
  {
  }
}
