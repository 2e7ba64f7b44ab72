/**
 * The M-Pesa gateway client (src/services/mpesa.service.js): an object
 * holding a cached OAuth access token and its expiry, the STK password and
 * timestamp, the STK push and STK query payloads and results, and the
 * flattening of a callback body.  Network replies and the clock are
 * parameters.
 */
module MpesaService {
  import opened Wrappers
  import opened Text
  import opened JsValues
  import Base64

  /**
   * The client's configuration as the constructor reads it from the
   * environment; None is an unset variable, which JavaScript reads as
   * `undefined`.
   */
  datatype Config = Config(
    baseUrl: string,
    businessShortCode: Option<string>,
    passkey: Option<string>,
    consumerKey: Option<string>,
    consumerSecret: Option<string>,
    callbackUrl: string)

  const DefaultBaseUrl := "https://sandbox.safaricom.co.ke"
  const DefaultCallbackUrl := "https://your-domain.com/api/payments/mpesa/callback"

  /** `process.env[key]`: the variable's text, or undefined when it is unset. */
  function EnvVar(env: map<string, string>, key: string): (r: Option<string>)
    ensures r.Some? <==> key in env
    ensures r.Some? ==> r.value == env[key]
  {
    if key in env then Some(env[key]) else None
  }

  /** `process.env[key] || default`: an unset or empty variable falls back to the default. */
  function EnvOr(env: map<string, string>, key: string, default: string): (r: string)
    ensures r == default || (key in env && r == env[key])
    ensures key in env && env[key] != "" ==> r == env[key]
    ensures r == "" ==> default == ""
  {
    match EnvVar(env, key)
    case Some(v) => if v != "" then v else default
    case None => default
  }

  /** The constructor's reads: only the base URL and the callback URL have a default. */
  function ConfigOf(env: map<string, string>): (c: Config)
    ensures c.baseUrl != "" && c.callbackUrl != ""
    ensures "MPESA_BASE_URL" in env && env["MPESA_BASE_URL"] != "" ==> c.baseUrl == env["MPESA_BASE_URL"]
    ensures c.baseUrl != DefaultBaseUrl ==> "MPESA_BASE_URL" in env && c.baseUrl == env["MPESA_BASE_URL"]
    ensures "MPESA_CALLBACK_URL" in env && env["MPESA_CALLBACK_URL"] != "" ==>
              c.callbackUrl == env["MPESA_CALLBACK_URL"]
    ensures c.callbackUrl != DefaultCallbackUrl ==>
              "MPESA_CALLBACK_URL" in env && c.callbackUrl == env["MPESA_CALLBACK_URL"]
    ensures c.businessShortCode.Some? <==> "MPESA_BUSINESS_SHORT_CODE" in env
    ensures c.businessShortCode.Some? ==> c.businessShortCode.value == env["MPESA_BUSINESS_SHORT_CODE"]
    ensures c.passkey.Some? <==> "MPESA_PASSKEY" in env
    ensures c.passkey.Some? ==> c.passkey.value == env["MPESA_PASSKEY"]
    ensures c.consumerKey.Some? <==> "MPESA_CONSUMER_KEY" in env
    ensures c.consumerKey.Some? ==> c.consumerKey.value == env["MPESA_CONSUMER_KEY"]
    ensures c.consumerSecret.Some? <==> "MPESA_CONSUMER_SECRET" in env
    ensures c.consumerSecret.Some? ==> c.consumerSecret.value == env["MPESA_CONSUMER_SECRET"]
  {
    Config(EnvOr(env, "MPESA_BASE_URL", DefaultBaseUrl),
           EnvVar(env, "MPESA_BUSINESS_SHORT_CODE"),
           EnvVar(env, "MPESA_PASSKEY"),
           EnvVar(env, "MPESA_CONSUMER_KEY"),
           EnvVar(env, "MPESA_CONSUMER_SECRET"),
           EnvOr(env, "MPESA_CALLBACK_URL", DefaultCallbackUrl))
  }

  /**
   * Without any variable set the URLs take their defaults and every
   * credential is undefined; a variable set to "" is replaced by the default
   * for a URL but kept as "" for a credential.
   */
  lemma OnlyUrlsFallBack(env: map<string, string>)
    ensures ConfigOf(map[]) == Config(DefaultBaseUrl, None, None, None, None, DefaultCallbackUrl)
    ensures "MPESA_BASE_URL" in env && env["MPESA_BASE_URL"] == "" ==> ConfigOf(env).baseUrl == DefaultBaseUrl
    ensures "MPESA_CALLBACK_URL" in env && env["MPESA_CALLBACK_URL"] == "" ==>
              ConfigOf(env).callbackUrl == DefaultCallbackUrl
    ensures "MPESA_PASSKEY" in env ==> ConfigOf(env).passkey == Some(env["MPESA_PASSKEY"])
    ensures "MPESA_BUSINESS_SHORT_CODE" in env ==>
              ConfigOf(env).businessShortCode == Some(env["MPESA_BUSINESS_SHORT_CODE"])
  {
  }

  /** A template literal's `${v}`: an undefined value is written as "undefined". */
  function Interpolated(v: Option<string>): (r: string)
    ensures v.Some? ==> r == v.value
    ensures v.None? ==> r == "undefined"
  {
    v.GetOr("undefined")
  }

  // ---------------------------------------------------------------- timestamp and password

  /** A clock reading inside the range where `toISOString` writes a four-digit year. */
  datatype DateTime = DateTime(year: int, month: int, day: int, hour: int, minute: int,
                               second: int, millisecond: int)

  predicate ValidDateTime(t: DateTime) {
    0 <= t.year <= 9999 && 1 <= t.month <= 12 && 1 <= t.day <= 31 && 0 <= t.hour <= 23
    && 0 <= t.minute <= 59 && 0 <= t.second <= 59 && 0 <= t.millisecond <= 999
  }

  /** `Date.prototype.toISOString`: YYYY-MM-DDTHH:mm:ss.sssZ. */
  function IsoString(t: DateTime): string
    requires ValidDateTime(t)
  {
    PadNat(t.year, 4) + "-" + PadNat(t.month, 2) + "-" + PadNat(t.day, 2) + "T"
    + PadNat(t.hour, 2) + ":" + PadNat(t.minute, 2) + ":" + PadNat(t.second, 2) + "."
    + PadNat(t.millisecond, 3) + "Z"
  }

  /** The STK timestamp: the ISO string with every non-digit removed and the last three digits dropped. */
  function Timestamp(iso: string): (ts: string)
    ensures AllDigits(ts)
  {
    var d := DigitsOnly(iso);
    if |d| >= 3 then d[..|d| - 3] else ""
  }

  /** Stripping the non-digits of `acc`, one separator and a run of digits. */
  lemma DigitsOnlyStep(acc: string, sep: string, field: string)
    requires |sep| == 1 && !IsDigit(sep[0]) && AllDigits(field)
    ensures DigitsOnly(acc + sep + field) == DigitsOnly(acc) + field
  {
    DigitsOnlyAppend(acc + sep, field);
    DigitsOnlyAppend(acc, sep);
    DigitsOnlyOfDigits(field);
  }

  /** The timestamp of a clock reading is its 14 digits YYYYMMDDHHmmss. */
  lemma TimestampOfIsoString(t: DateTime)
    requires ValidDateTime(t)
    ensures Timestamp(IsoString(t))
         == PadNat(t.year, 4) + PadNat(t.month, 2) + PadNat(t.day, 2)
          + PadNat(t.hour, 2) + PadNat(t.minute, 2) + PadNat(t.second, 2)
    ensures |Timestamp(IsoString(t))| == 14
  {
    var y, mo, d, h, mi, s, ms :=
      PadNat(t.year, 4), PadNat(t.month, 2), PadNat(t.day, 2), PadNat(t.hour, 2),
      PadNat(t.minute, 2), PadNat(t.second, 2), PadNat(t.millisecond, 3);
    PadNatWidth(t.year, 4);
    PadNatWidth(t.month, 2);
    PadNatWidth(t.day, 2);
    PadNatWidth(t.hour, 2);
    PadNatWidth(t.minute, 2);
    PadNatWidth(t.second, 2);
    PadNatWidth(t.millisecond, 3);
    DigitsOnlyOfDigits(y);
    var p1 := y + "-" + mo;
    DigitsOnlyStep(y, "-", mo);
    var p2 := p1 + "-" + d;
    DigitsOnlyStep(p1, "-", d);
    var p3 := p2 + "T" + h;
    DigitsOnlyStep(p2, "T", h);
    var p4 := p3 + ":" + mi;
    DigitsOnlyStep(p3, ":", mi);
    var p5 := p4 + ":" + s;
    DigitsOnlyStep(p4, ":", s);
    var p6 := p5 + "." + ms;
    DigitsOnlyStep(p5, ".", ms);
    DigitsOnlyAppend(p6, "Z");
    assert IsoString(t) == p6 + "Z";
    var keep := y + mo + d + h + mi + s;
    assert DigitsOnly(IsoString(t)) == keep + ms;
    assert (keep + ms)[..|keep + ms| - 3] == keep;
  }

  datatype Credentials = Credentials(password: string, timestamp: string)

  /**
   * `generatePassword`: the password is the base 64 encoding (section 4 of
   * RFC 4648) of the UTF-8 bytes of shortcode, passkey and timestamp.
   */
  function GeneratePassword(cfg: Config, iso: string): (c: Credentials)
    ensures c.timestamp == Timestamp(iso)
    ensures Base64.Decode(c.password)
         == Some(Base64.Utf8(Interpolated(cfg.businessShortCode) + Interpolated(cfg.passkey) + c.timestamp))
  {
    var ts := Timestamp(iso);
    var plain := Base64.Utf8(Interpolated(cfg.businessShortCode) + Interpolated(cfg.passkey) + ts);
    Base64.DecodeEncode(plain);
    Credentials(Base64.Encode(plain), ts)
  }

  // ---------------------------------------------------------------- payloads

  /** An undefined (None) shortcode is a property JSON leaves out of the body. */
  datatype StkPushPayload = StkPushPayload(
    BusinessShortCode: Option<string>,
    Password: string,
    Timestamp: string,
    TransactionType: string,
    Amount: int,
    PartyA: string,
    PartyB: Option<string>,
    PhoneNumber: string,
    CallBackURL: string,
    AccountReference: string,
    TransactionDesc: string)

  /** The body of the STK push request. */
  function PushPayload(cfg: Config, cred: Credentials, phone: string, amount: real,
                       reference: string): (p: StkPushPayload)
    ensures amount - 0.5 < p.Amount as real <= amount + 0.5
    ensures p.PartyA == phone && p.PhoneNumber == phone
    ensures p.PartyB == p.BusinessShortCode == cfg.businessShortCode
    ensures p.Password == cred.password && p.Timestamp == cred.timestamp
    ensures p.TransactionType == "CustomerPayBillOnline" && p.CallBackURL == cfg.callbackUrl
    ensures p.AccountReference == reference
  {
    StkPushPayload(cfg.businessShortCode, cred.password, cred.timestamp, "CustomerPayBillOnline",
                   JsRound(amount), phone, cfg.businessShortCode, phone, cfg.callbackUrl,
                   reference, "Cafe Payment")
  }

  datatype StkQueryPayload = StkQueryPayload(
    BusinessShortCode: Option<string>, Password: string, Timestamp: string, CheckoutRequestID: string)

  // ---------------------------------------------------------------- replies and results

  /** What the axios call produced: a reply body, or an error of any kind. */
  datatype HttpReply<T> = Responded(data: T) | RequestFailed

  datatype TokenReply = TokenReply(accessToken: string, expiresIn: int)

  datatype StkPushReply = StkPushReply(
    CheckoutRequestID: string, MerchantRequestID: string, ResponseCode: JsVal,
    ResponseDescription: JsVal, CustomerMessage: JsVal)

  datatype StkQueryReply = StkQueryReply(
    ResultCode: JsVal, ResultDesc: JsVal, CheckoutRequestID: JsVal, MerchantRequestID: JsVal)

  /** The flat object `initiateSTKPush` resolves with. */
  datatype PushResult = PushResult(
    success: bool, checkoutRequestId: string, merchantRequestId: string,
    responseCode: JsVal, responseDescription: JsVal, customerMessage: JsVal)

  /** `initiateSTKPush` either throws one generic error or resolves with a PushResult. */
  datatype PushOutcome = PushThrew(message: string) | PushReturned(result: PushResult)

  datatype QueryResult = QueryResult(
    success: bool, resultCode: JsVal, resultDesc: JsVal,
    checkoutRequestId: JsVal, merchantRequestId: JsVal)

  datatype QueryOutcome = QueryThrew(message: string) | QueryReturned(result: QueryResult)

  const PushFailedMessage := "Failed to initiate STK push"
  const QueryFailedMessage := "Failed to check payment status"

  function PushOutcomeOf(reply: HttpReply<StkPushReply>): (r: PushOutcome)
    ensures reply.RequestFailed? <==> r == PushThrew(PushFailedMessage)
    ensures r.PushReturned? ==> r.result.success
    ensures r.PushReturned? ==>
              r.result.checkoutRequestId == reply.data.CheckoutRequestID
              && r.result.merchantRequestId == reply.data.MerchantRequestID
  {
    match reply
    case RequestFailed => PushThrew(PushFailedMessage)
    case Responded(d) =>
      PushReturned(PushResult(true, d.CheckoutRequestID, d.MerchantRequestID, d.ResponseCode,
                              d.ResponseDescription, d.CustomerMessage))
  }

  function QueryOutcomeOf(reply: HttpReply<StkQueryReply>): (r: QueryOutcome)
    ensures reply.RequestFailed? <==> r == QueryThrew(QueryFailedMessage)
    ensures r.QueryReturned? ==>
              r.result.success && r.result.resultCode == reply.data.ResultCode
              && r.result.resultDesc == reply.data.ResultDesc
  {
    match reply
    case RequestFailed => QueryThrew(QueryFailedMessage)
    case Responded(d) =>
      QueryReturned(QueryResult(true, d.ResultCode, d.ResultDesc, d.CheckoutRequestID,
                                d.MerchantRequestID))
  }

  // ---------------------------------------------------------------- token cache

  datatype TokenCache = TokenCache(accessToken: Option<string>, tokenExpiry: Option<int>)

  /** The cached token is used exactly when it is non-empty and `now` is before its expiry. */
  predicate CacheHit(c: TokenCache, now: int) {
    c.accessToken.Some? && c.accessToken.value != "" && c.tokenExpiry.Some?
    && now < c.tokenExpiry.value
  }

  /** One `getAccessToken` call: the token it yields (None: it threw), the new cache, and whether it fetched. */
  datatype TokenStep = TokenStep(token: Option<string>, cache: TokenCache, fetched: bool)

  function NextToken(c: TokenCache, now: int, reply: HttpReply<TokenReply>): (r: TokenStep)
    ensures CacheHit(c, now) ==> r == TokenStep(c.accessToken, c, false)
    ensures !CacheHit(c, now) ==> r.fetched
    ensures r.token.None? <==> !CacheHit(c, now) && reply.RequestFailed?
    ensures r.token.None? ==> r.cache == c
    ensures !CacheHit(c, now) && reply.Responded? ==>
              r.token == Some(reply.data.accessToken)
              && r.cache == TokenCache(Some(reply.data.accessToken),
                                       Some(now + reply.data.expiresIn * 1000))
  {
    if CacheHit(c, now) then TokenStep(c.accessToken, c, false)
    else match reply
      case RequestFailed => TokenStep(None, c, true)
      case Responded(d) =>
        TokenStep(Some(d.accessToken), TokenCache(Some(d.accessToken), Some(now + d.expiresIn * 1000)), true)
  }

  /** A fetched non-empty token is served from the cache, whatever the network would say, until it expires. */
  lemma TokenReusedUntilExpiry(c: TokenCache, t0: int, t1: int, token: string, expiresIn: int,
                               later: HttpReply<TokenReply>)
    requires !CacheHit(c, t0) && token != ""
    requires t1 < t0 + expiresIn * 1000
    ensures var first := NextToken(c, t0, Responded(TokenReply(token, expiresIn)));
            var second := NextToken(first.cache, t1, later);
            second.token == Some(token) && !second.fetched && second.cache == first.cache
  {
  }

  /** At or after the expiry a new token is fetched. */
  lemma ExpiredTokenRefetched(c: TokenCache, now: int, reply: HttpReply<TokenReply>)
    requires c.tokenExpiry.Some? && now >= c.tokenExpiry.value
    ensures NextToken(c, now, reply).fetched
  {
  }

  // ---------------------------------------------------------------- callback body

  datatype MetaItem = MetaItem(name: string, value: JsVal)

  /** `CallbackMetadata`; `item` is None when `Item` is absent. */
  datatype Metadata = Metadata(item: Option<seq<MetaItem>>)

  datatype StkCallback = StkCallback(
    checkoutRequestID: string, resultCode: JsVal, resultDesc: JsVal,
    callbackMetadata: Option<Metadata>)

  datatype CallbackBody = CallbackBody(stkCallback: Option<StkCallback>)

  /** A webhook body `{Body: {stkCallback: ...}}`; None stands for a missing level. */
  datatype CallbackData = CallbackData(body: Option<CallbackBody>)

  /** The destructuring of `Body.stkCallback`, which throws (None) when a level is missing. */
  function StkCallbackOf(data: CallbackData): (r: Option<StkCallback>)
    ensures r.Some? <==> data.body.Some? && data.body.value.stkCallback.Some?
  {
    match data.body
    case None => None
    case Some(b) => b.stkCallback
  }

  /** The name/value list, empty when `CallbackMetadata` or `Item` is missing. */
  function MetadataItems(cb: StkCallback): seq<MetaItem> {
    match cb.callbackMetadata
    case None => []
    case Some(m) => m.item.GetOr([])
  }

  /** The object the `forEach` over the items fills in: each item writes its Value under its Name. */
  function Flatten(items: seq<MetaItem>): (m: map<string, JsVal>)
    ensures forall k :: k in m ==> exists i :: 0 <= i < |items| && items[i].name == k && items[i].value == m[k]
  {
    if |items| == 0 then map[]
    else Flatten(items[..|items| - 1])[items[|items| - 1].name := items[|items| - 1].value]
  }

  /** Reading an absent property gives `undefined`. */
  function Field(m: map<string, JsVal>, key: string): JsVal {
    if key in m then m[key] else Undefined
  }

  /** A name is a key of the flattened object exactly when some item carries it. */
  lemma {:induction false} FlattenKeys(items: seq<MetaItem>, key: string)
    ensures key in Flatten(items) <==> exists i :: 0 <= i < |items| && items[i].name == key
  {
    if |items| > 0 {
      var init := items[..|items| - 1];
      FlattenKeys(init, key);
      if key in Flatten(init) {
        var i :| 0 <= i < |init| && init[i].name == key;
        assert items[i].name == key;
      }
      if exists i :: 0 <= i < |items| && items[i].name == key {
        var i :| 0 <= i < |items| && items[i].name == key;
        if i < |items| - 1 {
          assert init[i].name == key;
        }
      }
    }
  }

  /** Under a name the flattened object holds the value of the LAST item with that name. */
  lemma {:induction false} FlattenLastWins(items: seq<MetaItem>, i: nat)
    requires i < |items|
    requires forall j :: i < j < |items| ==> items[j].name != items[i].name
    ensures items[i].name in Flatten(items) && Flatten(items)[items[i].name] == items[i].value
  {
    if i < |items| - 1 {
      var init := items[..|items| - 1];
      FlattenLastWins(init, i);
    }
  }

  /** Item `i` is the last one carrying `name`. */
  predicate LastNamed(items: seq<MetaItem>, name: string, i: int) {
    0 <= i < |items| && items[i].name == name && forall j :: i < j < |items| ==> items[j].name != name
  }

  /** Some item carries `name`. */
  predicate Named(items: seq<MetaItem>, name: string) {
    exists i :: 0 <= i < |items| && items[i].name == name
  }

  /**
   * `v` is what reading `name` off the flattened items should give: the value of the last item
   * with that name, or `undefined` when no item has it.
   */
  predicate ReadsAs(items: seq<MetaItem>, name: string, v: JsVal) {
    (forall i :: 0 <= i < |items| && LastNamed(items, name, i) ==> v == items[i].value)
    && (!Named(items, name) ==> v == Undefined)
  }

  /** Reading a name off the flattened object gives the last item's value, or `undefined`. */
  lemma FieldReadsAs(items: seq<MetaItem>, name: string)
    ensures ReadsAs(items, name, Field(Flatten(items), name))
  {
    FlattenKeys(items, name);
    forall i | LastNamed(items, name, i)
      ensures Field(Flatten(items), name) == items[i].value
    {
      FlattenLastWins(items, i);
    }
  }

  /** The object `processCallback` returns. */
  datatype ProcessedCallback = ProcessedCallback(
    checkoutRequestId: string, resultCode: JsVal, resultDesc: JsVal,
    transactionId: JsVal, transactionDate: JsVal, amount: JsVal, phoneNumber: JsVal)

  /** `processCallback` as a value: None is the thrown 'Invalid callback data'. */
  function Processed(data: CallbackData): (r: Option<ProcessedCallback>)
    ensures r.None? <==> StkCallbackOf(data).None?
    ensures r.Some? ==> r.value.checkoutRequestId == StkCallbackOf(data).value.checkoutRequestID
    // each transaction field is the value of the last metadata item with its name, or undefined
    ensures r.Some? ==>
              var items := MetadataItems(StkCallbackOf(data).value);
              ReadsAs(items, "MpesaReceiptNumber", r.value.transactionId)
              && ReadsAs(items, "TransactionDate", r.value.transactionDate)
              && ReadsAs(items, "Amount", r.value.amount)
              && ReadsAs(items, "PhoneNumber", r.value.phoneNumber)
  {
    match StkCallbackOf(data)
    case None => None
    case Some(cb) =>
      var m := Flatten(MetadataItems(cb));
      FieldReadsAs(MetadataItems(cb), "MpesaReceiptNumber");
      FieldReadsAs(MetadataItems(cb), "TransactionDate");
      FieldReadsAs(MetadataItems(cb), "Amount");
      FieldReadsAs(MetadataItems(cb), "PhoneNumber");
      Some(ProcessedCallback(cb.checkoutRequestID, cb.resultCode, cb.resultDesc,
                             Field(m, "MpesaReceiptNumber"), Field(m, "TransactionDate"),
                             Field(m, "Amount"), Field(m, "PhoneNumber")))
  }

  /** A callback that destructures is processed by reading the four names off its flattened metadata. */
  lemma ProcessedReadsFlattened(data: CallbackData, cb: StkCallback)
    requires StkCallbackOf(data) == Some(cb)
    ensures var m := Flatten(MetadataItems(cb));
            Processed(data) == Some(ProcessedCallback(cb.checkoutRequestID, cb.resultCode, cb.resultDesc,
                                                      Field(m, "MpesaReceiptNumber"), Field(m, "TransactionDate"),
                                                      Field(m, "Amount"), Field(m, "PhoneNumber")))
  {
  }

  /** The id, code and description pass through unchanged; without metadata all transaction fields are undefined. */
  lemma ProcessedFields(data: CallbackData)
    ensures Processed(data).None? <==> StkCallbackOf(data).None?
    ensures Processed(data).Some? ==>
              var cb := StkCallbackOf(data).value;
              var p := Processed(data).value;
              p.checkoutRequestId == cb.checkoutRequestID && p.resultCode == cb.resultCode
              && p.resultDesc == cb.resultDesc
              && (MetadataItems(cb) == [] ==>
                    p.transactionId == p.transactionDate == p.amount == p.phoneNumber == Undefined)
  {
  }

  // ---------------------------------------------------------------- the client object

  class MpesaClient {
    const config: Config
    var accessToken: Option<string>
    var tokenExpiry: Option<int>

    function Cache(): TokenCache
      reads this
    {
      TokenCache(accessToken, tokenExpiry)
    }

    /** `new MpesaService()`: the configuration read from the environment, no token cached yet. */
    constructor (env: map<string, string>)
      ensures config == ConfigOf(env) && Cache() == TokenCache(None, None)
    {
      config := ConfigOf(env);
      accessToken := None;
      tokenExpiry := None;
    }

    /** `getAccessToken`; a None result is the thrown 'Failed to get M-Pesa access token'. */
    method GetAccessToken(now: int, reply: HttpReply<TokenReply>) returns (token: Option<string>)
      modifies this
      ensures token == NextToken(old(Cache()), now, reply).token
      ensures Cache() == NextToken(old(Cache()), now, reply).cache
    {
      if accessToken.Some? && accessToken.value != "" && tokenExpiry.Some? && now < tokenExpiry.value {
        return accessToken;
      }
      match reply {
        case RequestFailed =>
          token := None;
        case Responded(d) =>
          accessToken := Some(d.accessToken);
          tokenExpiry := Some(now + d.expiresIn * 1000);
          token := accessToken;
      }
    }

    /**
     * `initiateSTKPush`: fetch a token, build and send the payload; every
     * failure, including the token's, becomes the one generic error.
     * `sent` is the payload put on the wire.
     */
    method InitiateStkPush(phone: string, amount: real, reference: string, now: int, iso: string,
                           tokenReply: HttpReply<TokenReply>, reply: HttpReply<StkPushReply>)
      returns (outcome: PushOutcome, sent: Option<StkPushPayload>)
      modifies this
      ensures Cache() == NextToken(old(Cache()), now, tokenReply).cache
      ensures NextToken(old(Cache()), now, tokenReply).token.None? ==>
                outcome == PushThrew(PushFailedMessage) && sent.None?
      ensures NextToken(old(Cache()), now, tokenReply).token.Some? ==>
                outcome == PushOutcomeOf(reply)
                && sent == Some(PushPayload(config, GeneratePassword(config, iso), phone, amount, reference))
    {
      var token := GetAccessToken(now, tokenReply);
      if token.None? {
        return PushThrew(PushFailedMessage), None;
      }
      var cred := GeneratePassword(config, iso);
      sent := Some(PushPayload(config, cred, phone, amount, reference));
      outcome := PushOutcomeOf(reply);
    }

    /** `checkPaymentStatus`: the STK query, with the same error discipline. */
    method CheckPaymentStatus(checkoutRequestId: string, now: int, iso: string,
                              tokenReply: HttpReply<TokenReply>, reply: HttpReply<StkQueryReply>)
      returns (outcome: QueryOutcome, sent: Option<StkQueryPayload>)
      modifies this
      ensures Cache() == NextToken(old(Cache()), now, tokenReply).cache
      ensures NextToken(old(Cache()), now, tokenReply).token.None? ==>
                outcome == QueryThrew(QueryFailedMessage) && sent.None?
      ensures NextToken(old(Cache()), now, tokenReply).token.Some? ==>
                outcome == QueryOutcomeOf(reply)
                && sent.Some? && sent.value.CheckoutRequestID == checkoutRequestId
                && sent.value.BusinessShortCode == config.businessShortCode
                && sent.value.Timestamp == Timestamp(iso)
    {
      var token := GetAccessToken(now, tokenReply);
      if token.None? {
        return QueryThrew(QueryFailedMessage), None;
      }
      var cred := GeneratePassword(config, iso);
      sent := Some(StkQueryPayload(config.businessShortCode, cred.password, cred.timestamp, checkoutRequestId));
      outcome := QueryOutcomeOf(reply);
    }

    /** The `forEach` of `processCallback`: each item, in order, writes its value under its name. */
    static method CopyMetadata(items: seq<MetaItem>) returns (metadata: map<string, JsVal>)
      ensures metadata == Flatten(items)
    {
      metadata := map[];
      var i := 0;
      while i < |items|
        invariant 0 <= i <= |items|
        invariant metadata == Flatten(items[..i])
      {
        assert items[..i + 1][..i] == items[..i];
        metadata := metadata[items[i].name := items[i].value];
        i := i + 1;
      }
      assert items[..|items|] == items;
    }

    /** `processCallback`: destructure the body and copy the metadata items into an object. */
    method ProcessCallback(data: CallbackData) returns (r: Option<ProcessedCallback>)
      ensures r == Processed(data)
    {
      if data.body.None? || data.body.value.stkCallback.None? {
        return None;
      }
      var cb := data.body.value.stkCallback.value;
      var metadata := CopyMetadata(MetadataItems(cb));
      r := Some(ProcessedCallback(cb.checkoutRequestID, cb.resultCode, cb.resultDesc,
                                  Field(metadata, "MpesaReceiptNumber"), Field(metadata, "TransactionDate"),
                                  Field(metadata, "Amount"), Field(metadata, "PhoneNumber")));
      ProcessedReadsFlattened(data, cb);
    }
  }
}
