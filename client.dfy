/** ExchangeRateV6Client (exchange_rate_client/_client.py): a per-instance
    cache of the supported currency codes with a one-hour lifetime, the
    classification of failing responses into typed errors, and the pair
    conversion request built on both.

    The transport and the clock are inputs. A request gets a `Reply`: either a
    time-out or a status with a JSON object body. Each code check gets a
    `Probe`: the clock reading it compares against the cache's age, the reply
    its `codes` request would get, and the clock reading taken after that
    request to stamp the cache. Every operation also returns the URLs it
    requested, in order, so that "no request is made" can be stated. */
module Client {
  import opened Wrappers
  import opened Json
  import Commons
  import opened Exceptions
  import opened Urls

  /** Seconds after which the supported-code cache is stale. */
  const CacheTimeout: real := 3600.0

  const UnsupportedCodeMessage: string := "One or both of the supplied codes are not supported"
  const InvalidKeyMessage: string := "The api key is not valid"
  const InactiveAccountMessage: string := "The account's email wasn't confirmed"
  const QuotaReachedMessage: string := "Reached the number of requests allowed in the plan"
  const UnknownErrorMessage: string := "Unknown error ocurred"
  const TimeoutMessage: string := "The request to the Exchange Rate API timed out"
  const NegativeAmountMessage: string := "Amount must be a greater than or equal to 0"

  // -----------------------------------------------------------------------
  // Error classification
  // -----------------------------------------------------------------------

  /** The `error-type` string the API sends for each named error. */
  function ErrorTypeName(kind: ApiErrorKind): string
  {
    match kind
    case UnsupportedCode => "unsupported-code"
    case InvalidKey => "invalid-key"
    case InactiveAccount => "inactive-account"
    case QuotaReached => "quota-reached"
  }

  /** The message the client attaches to each named error. */
  function KindMessage(kind: ApiErrorKind): string
  {
    match kind
    case UnsupportedCode => UnsupportedCodeMessage
    case InvalidKey => InvalidKeyMessage
    case InactiveAccount => InactiveAccountMessage
    case QuotaReached => QuotaReachedMessage
  }

  /** The error raised for an `error-type` value: a named error exactly when
      the value is that error's string, otherwise the generic error carrying
      the raw value. */
  function ErrorFromErrorType(errorType: Value): (f: Failure)
    ensures f.ApiError? || f == UnexpectedErrorType(errorType)
    ensures f.ApiError? ==> errorType == Str(ErrorTypeName(f.kind)) && f.message == KindMessage(f.kind)
    ensures forall kind: ApiErrorKind :: errorType == Str(ErrorTypeName(kind)) ==> f == ApiError(kind, KindMessage(kind))
  {
    if errorType == Str("unsupported-code") then ApiError(UnsupportedCode, UnsupportedCodeMessage)
    else if errorType == Str("invalid-key") then ApiError(InvalidKey, InvalidKeyMessage)
    else if errorType == Str("inactive-account") then ApiError(InactiveAccount, InactiveAccountMessage)
    else if errorType == Str("quota-reached") then ApiError(QuotaReached, QuotaReachedMessage)
    else UnexpectedErrorType(errorType)
  }

  /** The failure a response stands for, or `None` when it is a success.
      Only status 200 succeeds; a failing body without a truthy `error-type`
      is an unknown error. */
  function ResponseFailure(status: int, body: Object): (f: Option<Failure>)
    ensures f.None? <==> status == 200
    ensures f.Some? && !Truthy(Get(body, "error-type")) ==> f.value == Error(UnknownErrorMessage)
    ensures f.Some? && Truthy(Get(body, "error-type")) ==> f.value == ErrorFromErrorType(body["error-type"])
    ensures f.Some? && f.value.ApiError? ==>
      "error-type" in body && body["error-type"] == Str(ErrorTypeName(f.value.kind))
  {
    if status == 200 then None
    else
      var errorType := Get(body, "error-type");
      if Truthy(errorType) then Some(ErrorFromErrorType(errorType))
      else Some(Error(UnknownErrorMessage))
  }

  /** The classifications the client's tests expect. */
  lemma ResponseFailureExamples()
    ensures ResponseFailure(403, map["error-type" := Str("invalid-key")]) == Some(ApiError(InvalidKey, InvalidKeyMessage))
    ensures ResponseFailure(403, map["error-type" := Str("quota-reached")]) == Some(ApiError(QuotaReached, QuotaReachedMessage))
    ensures ResponseFailure(400, map["error-type" := Str("unknown")]) == Some(UnexpectedErrorType(Str("unknown")))
    ensures ResponseFailure(0, map[]) == Some(Error(UnknownErrorMessage))
    ensures ResponseFailure(403, map["error-type" := Str("")]) == Some(Error(UnknownErrorMessage))
    ensures ResponseFailure(200, map["error-type" := Str("invalid-key")]) == None
  {
  }

  // -----------------------------------------------------------------------
  // Transport, clock and runs
  // -----------------------------------------------------------------------

  /** What one GET request produced. */
  datatype Reply = TimedOut | Response(status: int, body: Object)

  /** The outside world as one code check sees it: the clock reading for the
      staleness test, the reply to a `codes` request, and the clock reading
      taken after that reply. */
  datatype Probe = Probe(now: real, codesReply: Reply, stampedAt: real)

  /** The supported-code cache: the code set (absent before the first
      successful refresh) and the time of that refresh. */
  datatype CacheState = CacheState(codes: Option<set<string>>, timestamp: real)

  /** The result of an operation, the cache it leaves and the URLs it requested. */
  datatype Run<T> = Run(result: Result<T, Failure>, state: CacheState, sent: seq<string>)

  /** A pair-conversion amount: its value and its text form in the URL. */
  datatype Amount = Amount(value: real, text: string)

  function AmountText(amount: Option<Amount>): Option<string>
  {
    if amount.Some? then Some(amount.value.text) else None
  }

  predicate IsStale(s: CacheState, now: real)
  {
    s.codes.None? || now - s.timestamp > CacheTimeout
  }

  // -----------------------------------------------------------------------
  // The `codes` response
  // -----------------------------------------------------------------------

  /** The code an entry of `supported_codes` contributes when unpacked as
      `code, _`: `Some` of a string code, `None` of a scalar no string code
      equals; an entry that does not unpack into two items, or whose first
      item is unhashable, fails. */
  function CodeOfEntry(entry: Value): Result<Option<string>, Failure>
  {
    match entry
    case Arr(items) =>
      if |items| != 2 then Failure(MalformedCodeList)
      else (
        match items[0]
        case Str(code) => Success(Some(code))
        case Arr(_) => Failure(MalformedCodeList)
        case Obj(_) => Failure(MalformedCodeList)
        case _ => Success(None))
    case Str(s) => if |s| == 2 then Success(Some(s[..1])) else Failure(MalformedCodeList)
    case _ => Failure(MalformedCodeList)
  }

  /** The set of codes of a list of entries. */
  function CodesOfEntries(entries: seq<Value>): (r: Result<set<string>, Failure>)
    ensures r.Success? <==> forall i | 0 <= i < |entries| :: CodeOfEntry(entries[i]).Success?
    ensures r.Success? ==> forall code ::
      code in r.value <==> exists i | 0 <= i < |entries| :: CodeOfEntry(entries[i]) == Success(Some(code))
  {
    if entries == [] then Success({})
    else
      var first := CodeOfEntry(entries[0]);
      var rest := CodesOfEntries(entries[1..]);
      assert forall i | 1 <= i < |entries| :: entries[1..][i - 1] == entries[i];
      if first.Failure? then Failure(first.error)
      else if rest.Failure? then rest
      else Success((if first.value.Some? then {first.value.value} else {}) + rest.value)
  }

  /** The supported codes of a `codes` body: the first item of every entry of
      `supported_codes`, an empty set when that key is absent. */
  function SupportedCodes(body: Object): (r: Result<set<string>, Failure>)
    ensures "supported_codes" !in body ==> r == Success({})
    ensures "supported_codes" in body && body["supported_codes"].Arr? ==>
      r == CodesOfEntries(body["supported_codes"].items)
  {
    if "supported_codes" !in body then Success({})
    else
      match body["supported_codes"]
      case Arr(entries) => CodesOfEntries(entries)
      // Iterating a string yields one-character strings, which never unpack into two.
      case Str(s) => if s == "" then Success({}) else Failure(MalformedCodeList)
      // Iterating an object yields its keys; a two-character key unpacks into its characters.
      case Obj(m) =>
        if forall k | k in m :: |k| == 2 then Success(set k | k in m :: k[..1]) else Failure(MalformedCodeList)
      case _ => Failure(MalformedCodeList)
  }

  /** The body the API sends for `codes`: `[code, name]` pairs. */
  function CodesListing(pairs: seq<(string, string)>): Object
  {
    map["supported_codes" := Arr(seq(|pairs|, i requires 0 <= i < |pairs| => Arr([Str(pairs[i].0), Str(pairs[i].1)])))]
  }

  /** The cache a well-formed listing yields is exactly the set of its codes. */
  lemma SupportedCodesOfListing(pairs: seq<(string, string)>)
    ensures SupportedCodes(CodesListing(pairs)) == Success(set i | 0 <= i < |pairs| :: pairs[i].0)
  {
    var entries := CodesListing(pairs)["supported_codes"].items;
    assert forall i | 0 <= i < |entries| :: CodeOfEntry(entries[i]) == Success(Some(pairs[i].0));
    var r := CodesOfEntries(entries);
    var expected := set i | 0 <= i < |pairs| :: pairs[i].0;
    forall code ensures code in r.value <==> code in expected {
      if code in expected {
        var i :| 0 <= i < |pairs| && pairs[i].0 == code;
        assert CodeOfEntry(entries[i]) == Success(Some(code));
      }
    }
    assert r.Success? && r.value == expected;
  }

  // -----------------------------------------------------------------------
  // The cache, as functions of the old state and the outside world
  // -----------------------------------------------------------------------

  /** One `codes` request and its effect on the cache. */
  function RefreshRun(apiKey: string, s: CacheState, reply: Reply, stampedAt: real): (r: Run<()>)
    ensures r.sent == [CodesUrl(apiKey)]
    ensures r.result.Success? <==>
      reply.Response? && reply.status == 200 && SupportedCodes(reply.body).Success?
    ensures r.result.Success? ==> r.state == CacheState(Some(SupportedCodes(reply.body).value), stampedAt)
    ensures r.result.Failure? ==> r.state == s
    ensures reply.TimedOut? ==> r.result == Failure(Error(TimeoutMessage))
    ensures reply.Response? && reply.status != 200 ==>
      r.result == Failure(ResponseFailure(reply.status, reply.body).value)
  {
    var sent := [CodesUrl(apiKey)];
    match reply
    case TimedOut => Run(Failure(Error(TimeoutMessage)), s, sent)
    case Response(status, body) =>
      var failure := ResponseFailure(status, body);
      if failure.Some? then Run(Failure(failure.value), s, sent)
      else
        var codes := SupportedCodes(body);
        if codes.Failure? then Run(Failure(codes.error), s, sent)
        else Run(Success(()), CacheState(Some(codes.value), stampedAt), sent)
  }

  /** One code check: refresh if the cache is stale, then look the code up. */
  function CodeCheckRun(apiKey: string, s: CacheState, code: string, p: Probe): (r: Run<bool>)
    ensures r.sent == if IsStale(s, p.now) then [CodesUrl(apiKey)] else []
    ensures !IsStale(s, p.now) ==> r.state == s && r.result == Success(code in s.codes.value)
    ensures r.result.Success? ==> r.state.codes.Some? && r.result.value == (code in r.state.codes.value)
    ensures r.result.Failure? ==> r.state == s
  {
    if IsStale(s, p.now) then
      var refresh := RefreshRun(apiKey, s, p.codesReply, p.stampedAt);
      if refresh.result.Failure? then Run(Failure(refresh.result.error), s, refresh.sent)
      else Run(Success(code in refresh.state.codes.value), refresh.state, refresh.sent)
    else Run(Success(code in s.codes.value), s, [])
  }

  /** A successful refresh leaves exactly the fetched codes, stamped with the
      clock reading taken after the request. */
  lemma CodeCheckAfterRefresh(apiKey: string, s: CacheState, code: string, p: Probe)
    requires IsStale(s, p.now)
    requires CodeCheckRun(apiKey, s, code, p).result.Success?
    ensures p.codesReply.Response? && p.codesReply.status == 200
    ensures CodeCheckRun(apiKey, s, code, p).state ==
      CacheState(Some(SupportedCodes(p.codesReply.body).value), p.stampedAt)
    ensures CodeCheckRun(apiKey, s, code, p).result.value == (code in SupportedCodes(p.codesReply.body).value)
  {
  }

  /** A failed refresh is raised as it is: no lookup in the old set, and the
      cache and its timestamp are left as they were. */
  lemma FailedRefreshHasNoFallback(apiKey: string, s: CacheState, code: string, p: Probe)
    requires IsStale(s, p.now)
    requires RefreshRun(apiKey, s, p.codesReply, p.stampedAt).result.Failure?
    ensures CodeCheckRun(apiKey, s, code, p) ==
      Run(Failure(RefreshRun(apiKey, s, p.codesReply, p.stampedAt).result.error), s, [CodesUrl(apiKey)])
  {
  }

  /** After a check that refreshed, a later check requests the codes again
      exactly when more than the timeout has passed since the refresh. */
  lemma SecondCheckRefreshesOnlyWhenStale(apiKey: string, s: CacheState, c1: string, p1: Probe, c2: string, p2: Probe)
    requires IsStale(s, p1.now)
    requires CodeCheckRun(apiKey, s, c1, p1).result.Success?
    ensures var second := CodeCheckRun(apiKey, CodeCheckRun(apiKey, s, c1, p1).state, c2, p2);
      (second.sent == []) == (p2.now - p1.stampedAt <= CacheTimeout)
  {
  }

  /** A pair request was made only after both codes were found and the amount
      passed its sign check. */
  predicate PairValidated(apiKey: string, s: CacheState, base: string, target: string, amount: Option<Amount>,
                          baseProbe: Probe, targetProbe: Probe)
  {
    var baseCheck := CodeCheckRun(apiKey, s, base, baseProbe);
    var targetCheck := CodeCheckRun(apiKey, baseCheck.state, target, targetProbe);
    && baseCheck.result == Success(true)
    && targetCheck.result == Success(true)
    && !(amount.Some? && amount.value.value < 0.0)
  }

  /** `pair_conversion`: check the base code, then the target code, then the
      amount, and only then request the pair. */
  function PairRun(apiKey: string, s: CacheState, base: string, target: string, amount: Option<Amount>,
                   baseProbe: Probe, targetProbe: Probe, reply: Reply): (r: Run<Commons.PairConversion>)
    ensures PairValidated(apiKey, s, base, target, amount, baseProbe, targetProbe) ==>
      |r.sent| > 0 && r.sent[|r.sent| - 1] == PairUrl(apiKey, base, target, AmountText(amount))
    ensures forall i | 0 <= i < |r.sent| ::
      r.sent[i] == CodesUrl(apiKey)
      || (i == |r.sent| - 1 && PairValidated(apiKey, s, base, target, amount, baseProbe, targetProbe))
    ensures r.result.Success? ==>
      && PairValidated(apiKey, s, base, target, amount, baseProbe, targetProbe)
      && reply.Response? && reply.status == 200
      && Commons.DecodePairConversion(reply.body) == Success(r.result.value)
    ensures var baseCheck := CodeCheckRun(apiKey, s, base, baseProbe);
      r.state == if baseCheck.result == Success(true)
        then CodeCheckRun(apiKey, baseCheck.state, target, targetProbe).state
        else baseCheck.state
  {
    var baseCheck := CodeCheckRun(apiKey, s, base, baseProbe);
    if baseCheck.result.Failure? then Run(Failure(baseCheck.result.error), baseCheck.state, baseCheck.sent)
    else if !baseCheck.result.value then
      Run(Failure(ApiError(UnsupportedCode, "Base code " + base + " is not supported")), baseCheck.state, baseCheck.sent)
    else
      var targetCheck := CodeCheckRun(apiKey, baseCheck.state, target, targetProbe);
      var checked := baseCheck.sent + targetCheck.sent;
      if targetCheck.result.Failure? then Run(Failure(targetCheck.result.error), targetCheck.state, checked)
      else if !targetCheck.result.value then
        Run(Failure(ApiError(UnsupportedCode, "Target code " + target + " is not supported")), targetCheck.state, checked)
      else if amount.Some? && amount.value.value < 0.0 then
        Run(Failure(ValueError(NegativeAmountMessage)), targetCheck.state, checked)
      else
        var sent := checked + [PairUrl(apiKey, base, target, AmountText(amount))];
        match reply
        case TimedOut => Run(Failure(Error(TimeoutMessage)), targetCheck.state, sent)
        case Response(status, body) =>
          var failure := ResponseFailure(status, body);
          if failure.Some? then Run(Failure(failure.value), targetCheck.state, sent)
          else
            match Commons.DecodePairConversion(body)
            case Failure(errors) => Run(Failure(ValidationError(errors)), targetCheck.state, sent)
            case Success(record) => Run(Success(record), targetCheck.state, sent)
  }

  /** An unsupported base code fails at once: the target is not checked and
      nothing but the base check's own `codes` request is made. */
  lemma PairConversionChecksBaseFirst(apiKey: string, s: CacheState, base: string, target: string, amount: Option<Amount>,
                                      baseProbe: Probe, targetProbe: Probe, reply: Reply)
    requires CodeCheckRun(apiKey, s, base, baseProbe).result == Success(false)
    ensures var r := PairRun(apiKey, s, base, target, amount, baseProbe, targetProbe, reply);
      && r.result == Failure(ApiError(UnsupportedCode, "Base code " + base + " is not supported"))
      && r.sent == CodeCheckRun(apiKey, s, base, baseProbe).sent
  {
  }

  /** A code check that fails (a refresh that timed out, got an error reply
      or an unreadable list) is `pair_conversion`'s own failure, unchanged,
      and no request follows it. */
  lemma PairConversionPropagatesCheckFailure(apiKey: string, s: CacheState, base: string, target: string,
                                             amount: Option<Amount>, baseProbe: Probe, targetProbe: Probe, reply: Reply)
    ensures var r := PairRun(apiKey, s, base, target, amount, baseProbe, targetProbe, reply);
      var baseCheck := CodeCheckRun(apiKey, s, base, baseProbe);
      var targetCheck := CodeCheckRun(apiKey, baseCheck.state, target, targetProbe);
      && (baseCheck.result.Failure? ==>
            r.result == Failure(baseCheck.result.error) && r.sent == baseCheck.sent)
      && (baseCheck.result == Success(true) && targetCheck.result.Failure? ==>
            r.result == Failure(targetCheck.result.error) && r.sent == baseCheck.sent + targetCheck.sent)
  {
  }

  /** With the base code supported, an unsupported target code fails next:
      only the two checks' `codes` requests are made. */
  lemma PairConversionChecksTarget(apiKey: string, s: CacheState, base: string, target: string, amount: Option<Amount>,
                                   baseProbe: Probe, targetProbe: Probe, reply: Reply)
    requires CodeCheckRun(apiKey, s, base, baseProbe).result == Success(true)
    requires CodeCheckRun(apiKey, CodeCheckRun(apiKey, s, base, baseProbe).state, target, targetProbe).result == Success(false)
    ensures var r := PairRun(apiKey, s, base, target, amount, baseProbe, targetProbe, reply);
      var baseCheck := CodeCheckRun(apiKey, s, base, baseProbe);
      && r.result == Failure(ApiError(UnsupportedCode, "Target code " + target + " is not supported"))
      && r.sent == baseCheck.sent + CodeCheckRun(apiKey, baseCheck.state, target, targetProbe).sent
  {
  }

  /** Once validation passes, a status-200 reply whose body decodes is the
      result; one whose body does not decode is a validation error listing
      what failed. */
  lemma PairConversionDecodesReply(apiKey: string, s: CacheState, base: string, target: string, amount: Option<Amount>,
                                   baseProbe: Probe, targetProbe: Probe, status: int, body: Object)
    requires PairValidated(apiKey, s, base, target, amount, baseProbe, targetProbe)
    requires status == 200
    ensures var r := PairRun(apiKey, s, base, target, amount, baseProbe, targetProbe, Response(status, body));
      var decoded := Commons.DecodePairConversion(body);
      && (decoded.Success? ==> r.result == Success(decoded.value))
      && (decoded.Failure? ==> r.result == Failure(ValidationError(decoded.error)) && decoded.error != [])
  {
  }

  /** Once validation passes, a reply with any status but 200 is reported as
      the error its body classifies to. */
  lemma PairConversionReportsFailingReply(apiKey: string, s: CacheState, base: string, target: string, amount: Option<Amount>,
                                          baseProbe: Probe, targetProbe: Probe, status: int, body: Object)
    requires PairValidated(apiKey, s, base, target, amount, baseProbe, targetProbe)
    requires status != 200
    ensures ResponseFailure(status, body).Some?
    ensures PairRun(apiKey, s, base, target, amount, baseProbe, targetProbe, Response(status, body)).result
      == Failure(ResponseFailure(status, body).value)
  {
  }

  /** A negative amount with two supported codes fails with a ValueError
      before any pair request. */
  lemma PairConversionRejectsNegativeAmount(apiKey: string, s: CacheState, base: string, target: string, amount: Amount,
                                            baseProbe: Probe, targetProbe: Probe, reply: Reply)
    requires CodeCheckRun(apiKey, s, base, baseProbe).result == Success(true)
    requires CodeCheckRun(apiKey, CodeCheckRun(apiKey, s, base, baseProbe).state, target, targetProbe).result == Success(true)
    requires amount.value < 0.0
    ensures var r := PairRun(apiKey, s, base, target, Some(amount), baseProbe, targetProbe, reply);
      && r.result == Failure(ValueError(NegativeAmountMessage))
      && PairUrl(apiKey, base, target, Some(amount.text)) !in r.sent
  {
    var r := PairRun(apiKey, s, base, target, Some(amount), baseProbe, targetProbe, reply);
    PairUrlIsNotCodesUrl(apiKey, base, target, Some(amount.text));
    assert forall i | 0 <= i < |r.sent| :: r.sent[i] == CodesUrl(apiKey);
  }

  /** Exactly one pair request is made once validation passes, and a
      time-out is reported as such, never retried. */
  lemma PairConversionSingleRequest(apiKey: string, s: CacheState, base: string, target: string, amount: Option<Amount>,
                                    baseProbe: Probe, targetProbe: Probe, reply: Reply)
    requires PairValidated(apiKey, s, base, target, amount, baseProbe, targetProbe)
    ensures var r := PairRun(apiKey, s, base, target, amount, baseProbe, targetProbe, reply);
      multiset(r.sent)[PairUrl(apiKey, base, target, AmountText(amount))] == 1
    ensures reply.TimedOut? ==>
      PairRun(apiKey, s, base, target, amount, baseProbe, targetProbe, reply).result == Failure(Error(TimeoutMessage))
  {
    var r := PairRun(apiKey, s, base, target, amount, baseProbe, targetProbe, reply);
    PairUrlIsNotCodesUrl(apiKey, base, target, AmountText(amount));
    OnlyLastIs(r.sent, PairUrl(apiKey, base, target, AmountText(amount)), CodesUrl(apiKey));
  }

  /** A request list made of repeated `other` URLs and then one `last` URL
      holds `last` exactly once. */
  lemma OnlyLastIs(sent: seq<string>, last: string, other: string)
    requires |sent| > 0 && sent[|sent| - 1] == last && last != other
    requires forall i | 0 <= i < |sent| - 1 :: sent[i] == other
    ensures multiset(sent)[last] == 1
  {
    var before := sent[..|sent| - 1];
    assert sent == before + [last];
    assert last !in before;
  }

  // -----------------------------------------------------------------------
  // The client object
  // -----------------------------------------------------------------------

  class ExchangeRateV6Client {
    const apiKey: string
    var supportedCodesCache: Option<set<string>>
    var cacheTimestamp: real

    function State(): CacheState
      reads this
    {
      CacheState(supportedCodesCache, cacheTimestamp)
    }

    constructor (apiKey: string)
      ensures this.apiKey == apiKey
      ensures State() == CacheState(None, 0.0)
    {
      this.apiKey := apiKey;
      supportedCodesCache := None;
      cacheTimestamp := 0.0;
    }

    /** Request the supported codes; on success replace the code set and the
        timestamp together, on failure change nothing. */
    method UpdateSupportedCodesCache(reply: Reply, stampedAt: real) returns (result: Result<(), Failure>, sent: seq<string>)
      modifies this
      ensures Run(result, State(), sent) == RefreshRun(apiKey, old(State()), reply, stampedAt)
    {
      var url := ApiKeyUrl(apiKey) + "/codes";
      PathCons(apiKey, ["codes"]);
      PathCons("codes", []);
      assert url == CodesUrl(apiKey);
      sent := [url];
      match reply
      case TimedOut =>
        result := Failure(Error(TimeoutMessage));
      case Response(status, data) =>
        var failure := ResponseFailure(status, data);
        if failure.Some? {
          result := Failure(failure.value);
          return;
        }
        var codes := SupportedCodes(data);
        if codes.Failure? {
          result := Failure(codes.error);
          return;
        }
        supportedCodesCache := Some(codes.value);
        cacheTimestamp := stampedAt;
        result := Success(());
    }

    /** Refresh the cache when it is absent or stale, then look `code` up. */
    method IsSupportedCode(code: string, probe: Probe) returns (result: Result<bool, Failure>, sent: seq<string>)
      modifies this
      ensures Run(result, State(), sent) == CodeCheckRun(apiKey, old(State()), code, probe)
    {
      sent := [];
      if supportedCodesCache.None? || probe.now - cacheTimestamp > CacheTimeout {
        var refreshed;
        refreshed, sent := UpdateSupportedCodesCache(probe.codesReply, probe.stampedAt);
        if refreshed.Failure? {
          result := Failure(refreshed.error);
          return;
        }
      }
      result := Success(code in supportedCodesCache.value);
    }

    /** Convert between two supported currencies, optionally for an amount. */
    method PairConversion(baseCode: string, targetCode: string, amount: Option<Amount>,
                          baseProbe: Probe, targetProbe: Probe, reply: Reply)
      returns (result: Result<Commons.PairConversion, Failure>, sent: seq<string>)
      modifies this
      ensures Run(result, State(), sent) ==
        PairRun(apiKey, old(State()), baseCode, targetCode, amount, baseProbe, targetProbe, reply)
    {
      var baseSupported;
      baseSupported, sent := IsSupportedCode(baseCode, baseProbe);
      if baseSupported.Failure? {
        result := Failure(baseSupported.error);
        return;
      }
      if !baseSupported.value {
        result := Failure(ApiError(UnsupportedCode, "Base code " + baseCode + " is not supported"));
        return;
      }
      var targetSupported, targetSent := IsSupportedCode(targetCode, targetProbe);
      sent := sent + targetSent;
      if targetSupported.Failure? {
        result := Failure(targetSupported.error);
        return;
      }
      if !targetSupported.value {
        result := Failure(ApiError(UnsupportedCode, "Target code " + targetCode + " is not supported"));
        return;
      }
      if amount.Some? && amount.value.value < 0.0 {
        result := Failure(ValueError(NegativeAmountMessage));
        return;
      }

      var url := ApiKeyUrl(apiKey) + "/pair/" + baseCode + "/" + targetCode;
      if amount.Some? {
        url := url + "/" + amount.value.text;
      }
      PairUrlIsBuilt(apiKey, baseCode, targetCode, AmountText(amount));
      sent := sent + [url];

      match reply
      case TimedOut =>
        result := Failure(Error(TimeoutMessage));
      case Response(status, data) =>
        var failure := ResponseFailure(status, data);
        if failure.Some? {
          result := Failure(failure.value);
          return;
        }
        var decoded := Commons.DecodePairConversion(data);
        if decoded.Failure? {
          result := Failure(ValidationError(decoded.error));
        } else {
          result := Success(decoded.value);
        }
    }
  }

  /** The path of the pair segments, written out. */
  lemma PairPath(apiKey: string, base: string, target: string, amountText: Option<string>)
    ensures Path(PairSegments(apiKey, base, target, amountText)) ==
      "/" + apiKey + "/pair/" + base + "/" + target + (if amountText.Some? then "/" + amountText.value else "")
  {
    var tail := AmountSegment(amountText);
    PathCons(target, tail);
    if amountText.Some? {
      PathCons(amountText.value, []);
    }
    var targetPath := Path([target] + tail);
    PathCons(base, [target] + tail);
    var basePath := Path([base] + ([target] + tail));
    assert basePath == "/" + base + targetPath;
    PathCons("pair", [base] + ([target] + tail));
    PathCons(apiKey, ["pair"] + ([base] + ([target] + tail)));
    assert PairSegments(apiKey, base, target, amountText) == [apiKey] + (["pair"] + ([base] + ([target] + tail)));
  }

  /** The f-string of the pair request, with the amount appended when given,
      is the pair URL. */
  lemma PairUrlIsBuilt(apiKey: string, base: string, target: string, amountText: Option<string>)
    ensures var url := ApiKeyUrl(apiKey) + "/pair/" + base + "/" + target;
      PairUrl(apiKey, base, target, amountText) == if amountText.Some? then url + "/" + amountText.value else url
  {
    PairPath(apiKey, base, target, amountText);
  }
}
