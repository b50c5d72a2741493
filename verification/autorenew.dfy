/**
 * Traffic Ops certificate auto-renewal batch (RunAutorenewal).
 *
 * The batch walks the (xmlId, version) candidates of the delivery services,
 * loads each candidate's SSL keys, decides whether the certificate is inside
 * the renewal window, renews it through the provider its auth type selects,
 * and files one ExpirationInfo per renewed or failed candidate into one of
 * the four buckets of an ExpirationSummary.
 *
 * Every collaborator the batch calls (the key store, base64 decoding, X.509
 * expiry parsing, the Let's Encrypt and ACME providers, the ACME account
 * lookup and the clock) is a field of `Collaborators`; the calls that reach
 * the outside world are recorded, in order, in a trace of `Call`s.
 */
module AutoRenew {
  import opened Wrappers

  /** A point in time in nanoseconds, 0 being Go's zero time.Time. */
  type Time = int

  const ZeroTime: Time := 0
  const Hour: int := 3_600_000_000_000
  /** Window used when RenewDaysBeforeExpiration is unset (0). */
  const DefaultRenewDays: int := 30
  const StatusOK: int := 200

  /** tc.LetsEncryptAuthType and tc.SelfSignedCertAuthType of lib/go-tc. */
  const LetsEncryptAuthType: string := "Lets Encrypt"
  const SelfSignedCertAuthType: string := "Self Signed"

  /** sql.NullInt64: a version column that may be NULL. */
  datatype NullInt64 = NullInt64(valid: bool, int64: int)

  /** One row of the candidate query (ExistingCerts). */
  datatype Candidate = Candidate(xmlId: string, version: NullInt64)

  /** The fields of the stored SSL key object the batch reads. */
  datatype SslKeys = SslKeys(
    deliveryService: string,
    cdn: string,
    hostname: string,
    authType: string,
    version: int,
    certificate: string)

  /** The three outcomes of the key-store lookup (err != nil, !ok, found). */
  datatype KeyLookup = LookupError(cause: string) | NotFound | Found(keys: SslKeys)

  datatype Error =
    | KeyStoreError(xmlId: string, version: int, cause: string)
    | NoObjectFound(xmlId: string, version: int)
    | ProviderError(cause: string)
    | StatusNot200(statusCode: int)

  /** DsExpirationInfo: the outcome recorded for one candidate. */
  datatype ExpirationInfo = ExpirationInfo(
    xmlId: string,
    version: int,
    expiration: Time,
    authType: string,
    error: Option<Error>)

  datatype Bucket = LetsEncryptBucket | SelfSignedBucket | AcmeBucket | OtherBucket

  /** The four append-only buckets of one batch run. */
  datatype ExpirationSummary = ExpirationSummary(
    letsEncrypt: seq<ExpirationInfo>,
    selfSigned: seq<ExpirationInfo>,
    acme: seq<ExpirationInfo>,
    other: seq<ExpirationInfo>)
  {
    function Count(): nat {
      |letsEncrypt| + |selfSigned| + |acme| + |other|
    }

    function Get(b: Bucket): seq<ExpirationInfo> {
      match b
      case LetsEncryptBucket => letsEncrypt
      case SelfSignedBucket => selfSigned
      case AcmeBucket => acme
      case OtherBucket => other
    }

    /** Appends `info` to bucket `b`; every other bucket is left as it was. */
    function Append(b: Bucket, info: ExpirationInfo): (r: ExpirationSummary)
      ensures r.Get(b) == Get(b) + [info]
      ensures forall b' :: b' != b ==> r.Get(b') == Get(b')
      ensures r.Count() == Count() + 1
    {
      match b
      case LetsEncryptBucket => this.(letsEncrypt := letsEncrypt + [info])
      case SelfSignedBucket => this.(selfSigned := selfSigned + [info])
      case AcmeBucket => this.(acme := acme + [info])
      case OtherBucket => this.(other := other + [info])
    }
  }

  const EmptySummary: ExpirationSummary := ExpirationSummary([], [], [], [])

  /** The DeliveryServiceSSLKeysReq sent to the Let's Encrypt provider. */
  datatype LetsEncryptRequest = LetsEncryptRequest(
    hostName: string,
    deliveryService: string,
    cdn: string,
    version: int)

  /** What renewAcmeCerts returns: a user error, a system error and a status code. */
  datatype AcmeResponse = AcmeResponse(userErr: Option<string>, sysErr: Option<string>, statusCode: int)

  /** Calls that leave the batch, in the order they are made. */
  datatype Call =
    | FetchKeys(xmlId: string, version: int)
    | RequestLetsEncrypt(request: LetsEncryptRequest)
    | RenewAcme(deliveryService: string)
    | SendSummary(summary: ExpirationSummary)

  datatype Collaborators = Collaborators(
    keys: (string, int) -> KeyLookup,
    decode: string -> Result<string, string>,
    parseExpiration: string -> Result<Time, string>,
    letsEncrypt: LetsEncryptRequest -> Option<string>,
    acmeAccountExists: string -> bool,
    renewAcme: string -> AcmeResponse,
    now: nat -> Time)

  /** The configuration flags the batch reads but never writes. */
  datatype RenewalSettings = RenewalSettings(
    convertSelfSigned: bool,
    smtpEnabled: bool,
    summaryEmail: string)

  /** The configuration object; RenewDaysBeforeExpiration is overwritten by the batch. */
  class Config {
    var renewDaysBeforeExpiration: int
    const convertSelfSigned: bool
    const smtpEnabled: bool
    const summaryEmail: string

    constructor (renewDays: int, convertSelfSigned: bool, smtpEnabled: bool, summaryEmail: string)
      ensures renewDaysBeforeExpiration == renewDays
      ensures Settings() == RenewalSettings(convertSelfSigned, smtpEnabled, summaryEmail)
    {
      this.renewDaysBeforeExpiration := renewDays;
      this.convertSelfSigned := convertSelfSigned;
      this.smtpEnabled := smtpEnabled;
      this.summaryEmail := summaryEmail;
    }

    function Settings(): RenewalSettings {
      RenewalSettings(convertSelfSigned, smtpEnabled, summaryEmail)
    }
  }

  // ---------------------------------------------------------------------
  // Specification of one batch run
  // ---------------------------------------------------------------------

  /** What the batch has built so far: the summary, the call trace and the window setting. */
  datatype Progress = Progress(summary: ExpirationSummary, calls: seq<Call>, renewDays: int)

  datatype StepResult = Continue(progress: Progress) | Abort(progress: Progress)

  datatype RunResult = RunResult(progress: Progress, aborted: bool)

  datatype Strategy = RenewWithLetsEncrypt | RecordSelfSigned | RecordOther | RenewWithAcme

  /** The window in days actually applied: 0 stands for the 30-day default. */
  function EffectiveRenewDays(configured: int): int {
    if configured == 0 then DefaultRenewDays else configured
  }

  /** True when the certificate is not yet inside the renewal window. */
  predicate NotYetDue(expiration: Time, now: Time, renewDays: int) {
    expiration > now + Hour * 24 * renewDays
  }

  /** The auth-type dispatch; the ACME account is looked up only for other auth types. */
  function Dispatch(authType: string, convertSelfSigned: bool, acmeAccountExists: string -> bool): Strategy {
    if authType == LetsEncryptAuthType || (authType == SelfSignedCertAuthType && convertSelfSigned) then
      RenewWithLetsEncrypt
    else if authType == SelfSignedCertAuthType then
      RecordSelfSigned
    else if !acmeAccountExists(authType) then
      RecordOther
    else
      RenewWithAcme
  }

  /** The error recorded for a Let's Encrypt renewal: the provider's error, if any. */
  function LetsEncryptError(err: Option<string>): (r: Option<Error>)
    ensures r.None? <==> err.None?
    ensures err.Some? ==> r == Some(ProviderError(err.value))
  {
    match err
    case None => None
    case Some(m) => Some(ProviderError(m))
  }

  /** The error recorded for an ACME renewal: user error, then system error, then a non-200 status. */
  function AcmeError(resp: AcmeResponse): (r: Option<Error>)
    ensures r.None? <==> resp.userErr.None? && resp.sysErr.None? && resp.statusCode == StatusOK
    ensures resp.userErr.Some? ==> r == Some(ProviderError(resp.userErr.value))
    ensures resp.userErr.None? && resp.sysErr.Some? ==> r == Some(ProviderError(resp.sysErr.value))
    ensures resp.userErr.None? && resp.sysErr.None? && resp.statusCode != StatusOK ==> r == Some(StatusNot200(resp.statusCode))
  {
    if resp.userErr.Some? then Some(ProviderError(resp.userErr.value))
    else if resp.sysErr.Some? then Some(ProviderError(resp.sysErr.value))
    else if resp.statusCode != StatusOK then Some(StatusNot200(resp.statusCode))
    else None
  }

  /** Renewal of a certificate inside the window, dispatched on its auth type. */
  function Renew(keys: SslKeys, expiration: Time, p: Progress, s: RenewalSettings, env: Collaborators): Progress {
    var info := ExpirationInfo(keys.deliveryService, keys.version, expiration, keys.authType, None);
    match Dispatch(keys.authType, s.convertSelfSigned, env.acmeAccountExists)
    case RenewWithLetsEncrypt =>
      var req := LetsEncryptRequest(keys.hostname, keys.deliveryService, keys.cdn, keys.version + 1);
      p.(calls := p.calls + [RequestLetsEncrypt(req)],
         summary := p.summary.Append(LetsEncryptBucket, info.(error := LetsEncryptError(env.letsEncrypt(req)))))
    case RecordSelfSigned =>
      p.(summary := p.summary.Append(SelfSignedBucket, info))
    case RecordOther =>
      p.(summary := p.summary.Append(OtherBucket, info))
    case RenewWithAcme =>
      p.(calls := p.calls + [RenewAcme(keys.deliveryService)],
         summary := p.summary.Append(AcmeBucket, info.(error := AcmeError(env.renewAcme(keys.deliveryService)))))
  }

  /** True when the candidate gets past the version check. */
  predicate Inspected(ds: Candidate) {
    ds.version.valid && ds.version.int64 != 0
  }

  /** One iteration of the loop for candidate `ds`, the clock reading `now`. */
  function Step(ds: Candidate, now: Time, p: Progress, s: RenewalSettings, env: Collaborators): StepResult {
    if !Inspected(ds) then Continue(p)
    else
      var v := ds.version.int64;
      var fetched := p.(calls := p.calls + [FetchKeys(ds.xmlId, v)]);
      match env.keys(ds.xmlId, v)
      case LookupError(cause) =>
        Continue(fetched.(summary := fetched.summary.Append(OtherBucket,
          ExpirationInfo(ds.xmlId, v, ZeroTime, "", Some(KeyStoreError(ds.xmlId, v, cause))))))
      case NotFound =>
        Continue(fetched.(summary := fetched.summary.Append(OtherBucket,
          ExpirationInfo(ds.xmlId, v, ZeroTime, "", Some(NoObjectFound(ds.xmlId, v))))))
      case Found(keys) =>
        match env.decode(keys.certificate)
        case Failure(_) => Abort(fetched)
        case Success(crt) =>
          match env.parseExpiration(crt)
          case Failure(_) => Abort(fetched)
          case Success(expiration) =>
            var windowed := fetched.(renewDays := EffectiveRenewDays(p.renewDays));
            if NotYetDue(expiration, now, windowed.renewDays) then Continue(windowed)
            else Continue(Renew(keys, expiration, windowed, s, env))
  }

  /** The loop from candidate `i` on; an Abort step ends the run. */
  function RunFrom(cands: seq<Candidate>, i: nat, p: Progress, s: RenewalSettings, env: Collaborators): RunResult
    requires i <= |cands|
    decreases |cands| - i
  {
    if i == |cands| then RunResult(p, false)
    else
      match Step(cands[i], env.now(i), p, s, env)
      case Continue(q) => RunFrom(cands, i + 1, q, s, env)
      case Abort(q) => RunResult(q, true)
  }

  /** A whole batch: the loop, then the summary email when SMTP and a summary address are set. */
  function Batch(cands: seq<Candidate>, renewDays: int, s: RenewalSettings, env: Collaborators): RunResult {
    var r := RunFrom(cands, 0, Progress(EmptySummary, [], renewDays), s, env);
    if !r.aborted && s.smtpEnabled && s.summaryEmail != "" then
      r.(progress := r.progress.(calls := r.progress.calls + [SendSummary(r.progress.summary)]))
    else
      r
  }

  // ---------------------------------------------------------------------
  // The batch itself
  // ---------------------------------------------------------------------

  method RunAutorenewal(existingCerts: seq<Candidate>, cfg: Config, env: Collaborators) returns (r: RunResult)
    modifies cfg
    ensures r == Batch(existingCerts, old(cfg.renewDaysBeforeExpiration), cfg.Settings(), env)
    ensures cfg.renewDaysBeforeExpiration == r.progress.renewDays
  {
    var s := cfg.Settings();
    var keysFound := EmptySummary;
    var calls: seq<Call> := [];
    ghost var start := Progress(EmptySummary, [], cfg.renewDaysBeforeExpiration);
    for i := 0 to |existingCerts|
      invariant RunFrom(existingCerts, i, Progress(keysFound, calls, cfg.renewDaysBeforeExpiration), s, env)
             == RunFrom(existingCerts, 0, start, s, env)
    {
      var ds := existingCerts[i];
      if !ds.version.valid || ds.version.int64 == 0 {
        continue;
      }
      var v := ds.version.int64;
      calls := calls + [FetchKeys(ds.xmlId, v)];
      var lookup := env.keys(ds.xmlId, v);
      if lookup.LookupError? {
        var failed := ExpirationInfo(ds.xmlId, v, ZeroTime, "", Some(KeyStoreError(ds.xmlId, v, lookup.cause)));
        keysFound := keysFound.(other := keysFound.other + [failed]);
        continue;
      }
      if lookup.NotFound? {
        var missing := ExpirationInfo(ds.xmlId, v, ZeroTime, "", Some(NoObjectFound(ds.xmlId, v)));
        keysFound := keysFound.(other := keysFound.other + [missing]);
        continue;
      }
      var keys := lookup.keys;

      var decoded := env.decode(keys.certificate);
      if decoded.Failure? {
        return RunResult(Progress(keysFound, calls, cfg.renewDaysBeforeExpiration), true);
      }
      var expiration := env.parseExpiration(decoded.value);
      if expiration.Failure? {
        return RunResult(Progress(keysFound, calls, cfg.renewDaysBeforeExpiration), true);
      }

      if cfg.renewDaysBeforeExpiration == 0 {
        cfg.renewDaysBeforeExpiration := DefaultRenewDays;
      }
      if expiration.value > env.now(i) + Hour * 24 * cfg.renewDaysBeforeExpiration {
        continue;
      }

      var newVersion := keys.version + 1;
      var info := ExpirationInfo(keys.deliveryService, keys.version, expiration.value, keys.authType, None);

      if keys.authType == LetsEncryptAuthType || (keys.authType == SelfSignedCertAuthType && s.convertSelfSigned) {
        var req := LetsEncryptRequest(keys.hostname, keys.deliveryService, keys.cdn, newVersion);
        calls := calls + [RequestLetsEncrypt(req)];
        var err := env.letsEncrypt(req);
        if err.Some? {
          info := info.(error := Some(ProviderError(err.value)));
        }
        keysFound := keysFound.(letsEncrypt := keysFound.letsEncrypt + [info]);
      } else if keys.authType == SelfSignedCertAuthType {
        keysFound := keysFound.(selfSigned := keysFound.selfSigned + [info]);
      } else {
        var hasAccount := env.acmeAccountExists(keys.authType);
        if !hasAccount {
          keysFound := keysFound.(other := keysFound.other + [info]);
        } else {
          calls := calls + [RenewAcme(keys.deliveryService)];
          var resp := env.renewAcme(keys.deliveryService);
          if resp.userErr.Some? {
            info := info.(error := Some(ProviderError(resp.userErr.value)));
          } else if resp.sysErr.Some? {
            info := info.(error := Some(ProviderError(resp.sysErr.value)));
          } else if resp.statusCode != StatusOK {
            info := info.(error := Some(StatusNot200(resp.statusCode)));
          }
          keysFound := keysFound.(acme := keysFound.acme + [info]);
        }
      }
    }

    r := RunResult(Progress(keysFound, calls, cfg.renewDaysBeforeExpiration), false);
    if s.smtpEnabled && s.summaryEmail != "" {
      calls := calls + [SendSummary(keysFound)];
      r := r.(progress := r.progress.(calls := calls));
    }
  }

  // ---------------------------------------------------------------------
  // One candidate
  // ---------------------------------------------------------------------

  /** The key store was reached and the certificate decoded and parsed. */
  predicate CertificateReadable(ds: Candidate, env: Collaborators) {
    && Inspected(ds)
    && env.keys(ds.xmlId, ds.version.int64).Found?
    && env.decode(env.keys(ds.xmlId, ds.version.int64).keys.certificate).Success?
    && env.parseExpiration(env.decode(env.keys(ds.xmlId, ds.version.int64).keys.certificate).value).Success?
  }

  function KeysOf(ds: Candidate, env: Collaborators): SslKeys
    requires Inspected(ds) && env.keys(ds.xmlId, ds.version.int64).Found?
  {
    env.keys(ds.xmlId, ds.version.int64).keys
  }

  function ExpirationOf(ds: Candidate, env: Collaborators): Time
    requires CertificateReadable(ds, env)
  {
    env.parseExpiration(env.decode(KeysOf(ds, env).certificate).value).value
  }

  /** A readable certificate inside the renewal window. */
  predicate DueForRenewal(ds: Candidate, now: Time, p: Progress, env: Collaborators) {
    CertificateReadable(ds, env) && !NotYetDue(ExpirationOf(ds, env), now, EffectiveRenewDays(p.renewDays))
  }

  /** The key store is called exactly for candidates whose version is set and non-zero (negative included). */
  lemma KeyStoreCalledIffVersionSet(ds: Candidate, now: Time, p: Progress, s: RenewalSettings, env: Collaborators)
    ensures var q := Step(ds, now, p, s, env).progress;
      && |q.calls| >= |p.calls| && q.calls[..|p.calls|] == p.calls
      && (Inspected(ds) <==> |q.calls| > |p.calls|)
      && (Inspected(ds) ==> q.calls[|p.calls|] == FetchKeys(ds.xmlId, ds.version.int64))
    ensures !Inspected(ds) ==> Step(ds, now, p, s, env) == Continue(p)
  {
  }

  /** A key-store error or a missing key object adds one entry to Other and the batch goes on. */
  lemma KeyStoreFailureRecordedAsOther(ds: Candidate, now: Time, p: Progress, s: RenewalSettings, env: Collaborators)
    requires Inspected(ds) && !env.keys(ds.xmlId, ds.version.int64).Found?
    ensures var v := ds.version.int64;
      var lookup := env.keys(ds.xmlId, v);
      var err := if lookup.LookupError? then KeyStoreError(ds.xmlId, v, lookup.cause) else NoObjectFound(ds.xmlId, v);
      var st := Step(ds, now, p, s, env);
      && st.Continue?
      && st.progress.calls == p.calls + [FetchKeys(ds.xmlId, v)]
      && st.progress.renewDays == p.renewDays
      && st.progress.summary == p.summary.Append(OtherBucket, ExpirationInfo(ds.xmlId, v, ZeroTime, "", Some(err)))
  {
  }

  /** A certificate that cannot be decoded or parsed aborts the batch, recording nothing for it. */
  lemma MalformedCertificateAborts(ds: Candidate, now: Time, p: Progress, s: RenewalSettings, env: Collaborators)
    requires Inspected(ds) && env.keys(ds.xmlId, ds.version.int64).Found?
    requires var decoded := env.decode(KeysOf(ds, env).certificate);
      decoded.Failure? || env.parseExpiration(decoded.value).Failure?
    ensures Step(ds, now, p, s, env) == Abort(p.(calls := p.calls + [FetchKeys(ds.xmlId, ds.version.int64)]))
  {
  }

  /** A readable certificate yields an outcome iff it expires no later than now + window (0 meaning 30 days). */
  lemma RenewedIffWithinWindow(ds: Candidate, now: Time, p: Progress, s: RenewalSettings, env: Collaborators)
    requires CertificateReadable(ds, env)
    ensures var st := Step(ds, now, p, s, env);
      && st.Continue?
      && st.progress.renewDays == EffectiveRenewDays(p.renewDays)
      && (st.progress.summary.Count() == p.summary.Count() + 1 <==>
            ExpirationOf(ds, env) <= now + Hour * 24 * EffectiveRenewDays(p.renewDays))
      && (ExpirationOf(ds, env) > now + Hour * 24 * EffectiveRenewDays(p.renewDays) ==>
            st.progress.summary == p.summary &&
            st.progress.calls == p.calls + [FetchKeys(ds.xmlId, ds.version.int64)])
  {
  }

  /**
   * The four-way dispatch of a certificate due for renewal: exactly one bucket
   * grows, the outcome keeps the stored key's delivery service and pre-renewal
   * version, and only the Let's Encrypt and ACME paths call a provider, the
   * former asking for the stored version + 1.
   */
  lemma DispatchRule(ds: Candidate, now: Time, p: Progress, s: RenewalSettings, env: Collaborators)
    requires DueForRenewal(ds, now, p, env)
    ensures var keys := KeysOf(ds, env);
      var info := ExpirationInfo(keys.deliveryService, keys.version, ExpirationOf(ds, env), keys.authType, None);
      var fetched := p.calls + [FetchKeys(ds.xmlId, ds.version.int64)];
      var req := LetsEncryptRequest(keys.hostname, keys.deliveryService, keys.cdn, keys.version + 1);
      var st := Step(ds, now, p, s, env);
      var q := st.progress;
      && st.Continue?
      && q.summary.Count() == p.summary.Count() + 1
      && (keys.authType == LetsEncryptAuthType || (keys.authType == SelfSignedCertAuthType && s.convertSelfSigned) ==>
            && q.calls == fetched + [RequestLetsEncrypt(req)]
            && q.summary == p.summary.Append(LetsEncryptBucket, info.(error := LetsEncryptError(env.letsEncrypt(req)))))
      && (keys.authType == SelfSignedCertAuthType && !s.convertSelfSigned ==>
            && q.calls == fetched
            && q.summary == p.summary.Append(SelfSignedBucket, info))
      && (keys.authType != LetsEncryptAuthType && keys.authType != SelfSignedCertAuthType && !env.acmeAccountExists(keys.authType) ==>
            && q.calls == fetched
            && q.summary == p.summary.Append(OtherBucket, info))
      && (keys.authType != LetsEncryptAuthType && keys.authType != SelfSignedCertAuthType && env.acmeAccountExists(keys.authType) ==>
            && q.calls == fetched + [RenewAcme(keys.deliveryService)]
            && q.summary == p.summary.Append(AcmeBucket, info.(error := AcmeError(env.renewAcme(keys.deliveryService)))))
  {
  }

  // ---------------------------------------------------------------------
  // The whole batch
  // ---------------------------------------------------------------------

  /** Number of candidates from index `i` on that get past the version check. */
  function InspectedCount(cands: seq<Candidate>, i: nat): nat
    requires i <= |cands|
    decreases |cands| - i
  {
    if i == |cands| then 0 else (if Inspected(cands[i]) then 1 else 0) + InspectedCount(cands, i + 1)
  }

  lemma StepAddsAtMostOneOutcome(ds: Candidate, now: Time, p: Progress, s: RenewalSettings, env: Collaborators)
    ensures Step(ds, now, p, s, env).progress.summary.Count() <= p.summary.Count() + (if Inspected(ds) then 1 else 0)
  {
  }

  /** Each candidate contributes at most one outcome, and skipped ones none. */
  lemma {:induction false} RunFromOutcomesBounded(cands: seq<Candidate>, i: nat, p: Progress, s: RenewalSettings, env: Collaborators)
    requires i <= |cands|
    ensures RunFrom(cands, i, p, s, env).progress.summary.Count() <= p.summary.Count() + InspectedCount(cands, i)
    decreases |cands| - i
  {
    if i < |cands| {
      StepAddsAtMostOneOutcome(cands[i], env.now(i), p, s, env);
      match Step(cands[i], env.now(i), p, s, env)
      case Continue(q) => RunFromOutcomesBounded(cands, i + 1, q, s, env);
      case Abort(_) =>
    }
  }

  /** A batch records at most as many outcomes as there are candidates with a set, non-zero version. */
  lemma BatchOutcomesBounded(cands: seq<Candidate>, renewDays: int, s: RenewalSettings, env: Collaborators)
    ensures Batch(cands, renewDays, s, env).progress.summary.Count() <= InspectedCount(cands, 0)
  {
    RunFromOutcomesBounded(cands, 0, Progress(EmptySummary, [], renewDays), s, env);
  }

  /** Candidates whose version is NULL or 0 leave no outcome and no call behind. */
  lemma {:induction false} SkippedCandidatesLeaveNoTrace(cands: seq<Candidate>, i: nat, p: Progress, s: RenewalSettings, env: Collaborators)
    requires i <= |cands|
    requires forall k :: i <= k < |cands| ==> !Inspected(cands[k])
    ensures RunFrom(cands, i, p, s, env) == RunResult(p, false)
    decreases |cands| - i
  {
    if i < |cands| {
      SkippedCandidatesLeaveNoTrace(cands, i + 1, p, s, env);
    }
  }

  /** A batch of NULL or zero versions produces an empty summary and calls nothing but the email sender. */
  lemma AllSkippedBatch(cands: seq<Candidate>, renewDays: int, s: RenewalSettings, env: Collaborators)
    requires forall k :: 0 <= k < |cands| ==> !Inspected(cands[k])
    ensures var r := Batch(cands, renewDays, s, env);
      && !r.aborted
      && r.progress.summary == EmptySummary
      && r.progress.calls == (if s.smtpEnabled && s.summaryEmail != "" then [SendSummary(EmptySummary)] else [])
  {
    SkippedCandidatesLeaveNoTrace(cands, 0, Progress(EmptySummary, [], renewDays), s, env);
  }

  /** Two progress states that differ at most in how the window is written (0 or 30). */
  predicate SameUpToWindow(p: Progress, q: Progress) {
    p.summary == q.summary && p.calls == q.calls && EffectiveRenewDays(p.renewDays) == EffectiveRenewDays(q.renewDays)
  }

  lemma StepWindowAgnostic(ds: Candidate, now: Time, p: Progress, q: Progress, s: RenewalSettings, env: Collaborators)
    requires SameUpToWindow(p, q)
    ensures Step(ds, now, p, s, env).Continue? == Step(ds, now, q, s, env).Continue?
    ensures SameUpToWindow(Step(ds, now, p, s, env).progress, Step(ds, now, q, s, env).progress)
  {
  }

  lemma {:induction false} RunFromWindowAgnostic(cands: seq<Candidate>, i: nat, p: Progress, q: Progress, s: RenewalSettings, env: Collaborators)
    requires i <= |cands|
    requires SameUpToWindow(p, q)
    ensures RunFrom(cands, i, p, s, env).aborted == RunFrom(cands, i, q, s, env).aborted
    ensures SameUpToWindow(RunFrom(cands, i, p, s, env).progress, RunFrom(cands, i, q, s, env).progress)
    decreases |cands| - i
  {
    if i < |cands| {
      StepWindowAgnostic(cands[i], env.now(i), p, q, s, env);
      var sp := Step(cands[i], env.now(i), p, s, env);
      var sq := Step(cands[i], env.now(i), q, s, env);
      if sp.Continue? {
        RunFromWindowAgnostic(cands, i + 1, sp.progress, sq.progress, s, env);
      }
    }
  }

  /** A configured window of 0 behaves exactly like a window of 30 days. */
  lemma ZeroWindowMeansThirtyDays(cands: seq<Candidate>, s: RenewalSettings, env: Collaborators)
    ensures var a := Batch(cands, 0, s, env);
      var b := Batch(cands, DefaultRenewDays, s, env);
      a.aborted == b.aborted && a.progress.summary == b.progress.summary && a.progress.calls == b.progress.calls
  {
    RunFromWindowAgnostic(cands, 0, Progress(EmptySummary, [], 0), Progress(EmptySummary, [], DefaultRenewDays), s, env);
  }

  /** Once the loop aborts, later candidates are never looked at. */
  lemma {:induction false} AbortIgnoresLaterCandidates(cands: seq<Candidate>, rest: seq<Candidate>, i: nat, p: Progress, s: RenewalSettings, env: Collaborators)
    requires i <= |cands|
    requires RunFrom(cands, i, p, s, env).aborted
    ensures RunFrom(cands + rest, i, p, s, env) == RunFrom(cands, i, p, s, env)
    decreases |cands| - i
  {
    assert i < |cands|;
    assert (cands + rest)[i] == cands[i];
    match Step(cands[i], env.now(i), p, s, env)
    case Continue(q) => AbortIgnoresLaterCandidates(cands, rest, i + 1, q, s, env);
    case Abort(_) =>
  }

  /** An aborted batch is unaffected by any candidates after the one that aborted it. */
  lemma AbortedBatchIgnoresLaterCandidates(cands: seq<Candidate>, rest: seq<Candidate>, renewDays: int, s: RenewalSettings, env: Collaborators)
    requires Batch(cands, renewDays, s, env).aborted
    ensures Batch(cands + rest, renewDays, s, env) == Batch(cands, renewDays, s, env)
  {
    AbortIgnoresLaterCandidates(cands, rest, 0, Progress(EmptySummary, [], renewDays), s, env);
  }

  predicate NoSummaryCall(calls: seq<Call>) {
    forall k :: 0 <= k < |calls| ==> !calls[k].SendSummary?
  }

  lemma StepMakesNoSummaryCall(ds: Candidate, now: Time, p: Progress, s: RenewalSettings, env: Collaborators)
    requires NoSummaryCall(p.calls)
    ensures NoSummaryCall(Step(ds, now, p, s, env).progress.calls)
  {
  }

  lemma {:induction false} RunFromMakesNoSummaryCall(cands: seq<Candidate>, i: nat, p: Progress, s: RenewalSettings, env: Collaborators)
    requires i <= |cands|
    requires NoSummaryCall(p.calls)
    ensures NoSummaryCall(RunFrom(cands, i, p, s, env).progress.calls)
    decreases |cands| - i
  {
    if i < |cands| {
      StepMakesNoSummaryCall(cands[i], env.now(i), p, s, env);
      match Step(cands[i], env.now(i), p, s, env)
      case Continue(q) => RunFromMakesNoSummaryCall(cands, i + 1, q, s, env);
      case Abort(_) =>
    }
  }

  /**
   * The summary email is sent at most once, as the very last call, carrying the
   * final summary, and exactly when the loop completed, SMTP is enabled and a
   * summary address is configured.
   */
  lemma SummaryEmailAtMostOnceAtEnd(cands: seq<Candidate>, renewDays: int, s: RenewalSettings, env: Collaborators)
    ensures var r := Batch(cands, renewDays, s, env);
      var calls := r.progress.calls;
      && (forall k :: 0 <= k < |calls| - 1 ==> !calls[k].SendSummary?)
      && ((|calls| > 0 && calls[|calls| - 1].SendSummary?) <==> !r.aborted && s.smtpEnabled && s.summaryEmail != "")
      && (!r.aborted && s.smtpEnabled && s.summaryEmail != "" ==> calls[|calls| - 1] == SendSummary(r.progress.summary))
  {
    RunFromMakesNoSummaryCall(cands, 0, Progress(EmptySummary, [], renewDays), s, env);
  }

  /**
   * Three candidates at a 30-day window: A (Let's Encrypt, due in 5 days) is
   * renewed asking for version 2, B (self-signed, due in 60 days) is skipped
   * without an outcome, C (an auth type with no ACME account, due in 2 days)
   * lands in Other without a provider call.
   */
  lemma ThreeCandidateScenario(t: Time)
    ensures var day := Hour * 24;
      var a := SslKeys("A", "cdn1", "a.example.net", LetsEncryptAuthType, 1, "crt-a");
      var b := SslKeys("B", "cdn1", "b.example.net", SelfSignedCertAuthType, 2, "crt-b");
      var c := SslKeys("C", "cdn1", "c.example.net", "unknown-acme", 3, "crt-c");
      var env := Collaborators(
        (x: string, v: int) => if x == "A" then Found(a) else if x == "B" then Found(b) else Found(c),
        (crt: string) => Success(crt),
        (crt: string) => if crt == "crt-a" then Success(t + 5 * day) else if crt == "crt-b" then Success(t + 60 * day) else Success(t + 2 * day),
        (req: LetsEncryptRequest) => None,
        (authType: string) => false,
        (ds: string) => AcmeResponse(None, None, StatusOK),
        (i: nat) => t);
      var cands := [Candidate("A", NullInt64(true, 1)), Candidate("B", NullInt64(true, 2)), Candidate("C", NullInt64(true, 3))];
      var r := Batch(cands, 30, RenewalSettings(false, false, ""), env);
      && !r.aborted
      && r.progress.summary == ExpirationSummary(
           [ExpirationInfo("A", 1, t + 5 * day, LetsEncryptAuthType, None)],
           [],
           [],
           [ExpirationInfo("C", 3, t + 2 * day, "unknown-acme", None)])
      && r.progress.calls == [
           FetchKeys("A", 1),
           RequestLetsEncrypt(LetsEncryptRequest("a.example.net", "A", "cdn1", 2)),
           FetchKeys("B", 2),
           FetchKeys("C", 3)]
  {
  }
}
