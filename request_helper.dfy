/** Request construction and response classification for Kraken's REST API. The HTTP
    call itself, the clock and the HMAC signer are outside the model: a reply is given as
    an input, the clock reading is a parameter and a signature is kept symbolic. */
module RequestHelper {
  import opened Wrappers
  import opened Json
  import opened ErrorHelper
  import Constants

  /** `_decidePublicOrPrivateMethod`: 'public' exactly for the listed public endpoints. */
  function DecidePublicOrPrivateMethod(action: string): (r: string)
    ensures r == "public" <==> action in Constants.PUBLIC_METHODS
    ensures r != "public" ==> r == "private"
  {
    if action in Constants.PUBLIC_METHODS then "public" else "private"
  }

  /** The client fields a request reads. */
  datatype Args = Args(
    host: string,
    key: Option<string>,
    secret: Option<string>,
    otp: Option<string>,
    timeout: nat)

  /** HMAC-SHA512 (keyed by the base64-decoded secret) over the path and SHA-256 of the
      nonce and the URL-encoded form, base64-encoded; kept symbolic. */
  datatype Signature = Signature(path: string, form: Fields, secret: string)

  datatype HeaderValue = Plain(text: string) | Signed(signature: Signature)

  type Headers = seq<(string, HeaderValue)>

  const USER_AGENT: string := "Kraken Node.js API Client|(github.com/CoinifySoftware/kraken-exc.git)"

  const BASE_HEADERS: Headers :=
    [("Content-Type", Plain("application/json")), ("User-Agent", Plain(USER_AGENT))]

  const CREDENTIALS_MISSING: string := "Must provide key and secret to make this API request."

  datatype PostOptions = PostOptions(
    url: string,
    httpMethod: string,
    headers: Headers,
    timeout: nat,
    form: Fields)

  datatype GetOptions = GetOptions(url: string, httpMethod: string, timeout: nat)

  function HeaderNames(headers: Headers): seq<string> {
    if |headers| == 0 then [] else [headers[0].0] + HeaderNames(headers[1..])
  }

  /** `/0/<public|private>/<action>`. */
  function ActionPath(action: string): string {
    "/" + Constants.API_VERSION + "/" + DecidePublicOrPrivateMethod(action) + "/" + action
  }

  /** The form a private request sends: the caller's fields with the nonce set and, when a
      one-time password is configured, the password set. */
  function PrivateForm(params: Fields, nonce: int, otp: Option<string>): (form: Fields)
    ensures Get(form, "nonce") == Some(JNum(nonce as real))
    ensures TruthyString(otp) ==> Get(form, "otp") == Some(JStr(otp.value))
    ensures !TruthyString(otp) ==> Get(form, "otp") == Get(params, "otp")
    ensures forall k :: k != "nonce" && k != "otp" ==> Get(form, k) == Get(params, k)
  {
    var withNonce := Set(params, "nonce", JNum(nonce as real));
    if TruthyString(otp) then Set(withNonce, "otp", JStr(otp.value)) else withNonce
  }

  /** `post(args, action, params)` up to the point where the request is sent: the
      credential check, then the options, with the nonce (the clock reading in
      milliseconds times 1000), the one-time password and the key and signature headers
      added for private endpoints. */
  method Post(args: Args, action: string, params: Option<Fields>, clockMillis: int)
    returns (r: Result<PostOptions, Failure>)
    ensures var isPrivate := DecidePublicOrPrivateMethod(action) == "private";
            r.Err? <==> isPrivate && !(TruthyString(args.key) && TruthyString(args.secret))
    ensures r.Err? ==> r.error == Message(CREDENTIALS_MISSING)
    ensures r.Ok? ==> r.value.url == args.host + ActionPath(action)
    ensures r.Ok? ==> r.value.httpMethod == "POST" && r.value.timeout == args.timeout
    ensures r.Ok? && DecidePublicOrPrivateMethod(action) == "public" ==>
              r.value.form == params.GetOr([]) && r.value.headers == BASE_HEADERS
    ensures r.Ok? && DecidePublicOrPrivateMethod(action) == "private" ==>
              r.value.form == PrivateForm(params.GetOr([]), clockMillis * 1000, args.otp) &&
              r.value.headers == BASE_HEADERS + [
                ("API-key", Plain(args.key.value)),
                ("API-Sign", Signed(Signature(ActionPath(action), r.value.form, args.secret.value)))]
  {
    var endpoint := DecidePublicOrPrivateMethod(action);
    var path := ActionPath(action);
    if endpoint == "private" && (!TruthyString(args.key) || !TruthyString(args.secret)) {
      return Err(Message(CREDENTIALS_MISSING));
    }
    var headers := BASE_HEADERS;
    var form := params.GetOr([]);
    if endpoint == "private" {
      form := Set(form, "nonce", JNum((clockMillis * 1000) as real));
      if TruthyString(args.otp) {
        form := Set(form, "otp", JStr(args.otp.value));
      }
      assert form == PrivateForm(params.GetOr([]), clockMillis * 1000, args.otp);
      headers := headers + [("API-key", Plain(args.key.value))];
      headers := headers + [("API-Sign", Signed(Signature(path, form, args.secret.value)))];
      assert headers == BASE_HEADERS + [("API-key", Plain(args.key.value)),
                                        ("API-Sign", Signed(Signature(path, form, args.secret.value)))];
    } else {
      assert endpoint == "public";
    }
    return Ok(PostOptions(args.host + path, "POST", headers, args.timeout, form));
  }

  /** `get(args, action)` as written: its path has no leading slash, so the URL is the
      host immediately followed by the version digit. */
  function GetOptionsAsWritten(args: Args, action: string): (o: GetOptions)
    ensures o.url == args.host + Constants.API_VERSION + "/" + DecidePublicOrPrivateMethod(action) + "/" + action
    ensures o.httpMethod == "GET" && o.timeout == args.timeout
  {
    var path := Constants.API_VERSION + "/" + DecidePublicOrPrivateMethod(action) + "/" + action;
    GetOptions(args.host + path, "GET", args.timeout)
  }

  lemma GetUrlLacksSlash()
    ensures GetOptionsAsWritten(Args(Constants.HOST, None, None, None, Constants.REQUEST_TIMEOUT), "Time").url
         == "https://api.kraken.com0/public/Time"
  {
  }

  /** For every host and action, the URL `get` builds lacks exactly the slash after the
      host that the corrected URL has, so the two never agree. */
  lemma {:induction false} GetUrlLacksSlashEverywhere(args: Args, action: string)
    ensures var written := GetOptionsAsWritten(args, action).url;
            var corrected := GetRequestOptions(args, action).url;
            |args.host| <= |written| &&
            corrected == args.host + "/" + written[|args.host|..] &&
            written != corrected
  {
    var rest := Constants.API_VERSION + "/" + DecidePublicOrPrivateMethod(action) + "/" + action;
    assert ActionPath(action) == "/" + rest;
    SlashAfterHost(args.host, rest);
  }

  lemma SlashAfterHost(host: string, rest: string)
    requires |rest| > 0 && rest[0] == '0'
    ensures host + ("/" + rest) == host + "/" + (host + rest)[|host|..]
    ensures host + rest != host + ("/" + rest)
  {
    assert (host + rest)[|host|..] == rest;
    assert (host + rest)[|host|] == '0' && (host + ("/" + rest))[|host|] == '/';
  }

  /** `get(args, action)` with the path every other request uses. */
  function GetRequestOptions(args: Args, action: string): (o: GetOptions)
    ensures o.url == args.host + ActionPath(action)
    ensures o.httpMethod == "GET" && o.timeout == args.timeout
  {
    GetOptions(args.host + ActionPath(action), "GET", args.timeout)
  }

  /** The parsed body: Kraken always sends an `error` array and, on success, a `result`. */
  datatype Envelope = Envelope(error: Option<seq<string>>, result: Option<Json>)

  /** The outcome of `JSON.parse(body)`, given as an input. */
  datatype ParseOutcome = ParseFailed(exception: string) | Parsed(data: Envelope)

  /** What the HTTP library hands to the response callback. */
  datatype Reply = Reply(transportError: Option<Cause>, body: Option<string>, parsed: ParseOutcome)

  const MSG_TRANSPORT: string := "An error occurred while performing the request."
  const MSG_EMPTY_BODY: string := "Response body is empty/undefined."
  const MSG_UNPARSABLE: string := "Could not understand response from exchange server."
  const MSG_EXCHANGE: string := "The exchange service responded with an error."
  const MSG_EMPTY_RESULT: string := "Response from kraken is empty."
  const MSG_BAD_METHOD: string := "The request must be either POST or GET."

  /** `responseCallback` inside `_sendRequest`: each check in a fixed order. */
  function ResponseCallback(reply: Reply): (r: Result<Json, Failure>)
    ensures r.Ok? <==>
              !TruthyCause(reply.transportError) && TruthyString(reply.body) &&
              reply.parsed.Parsed? && reply.parsed.data.error == Some([]) &&
              reply.parsed.data.result.Some? && !IsEmpty(reply.parsed.data.result.value)
    ensures r.Ok? ==> r.value == reply.parsed.data.result.value
    ensures TruthyCause(reply.transportError) ==>
              r == Err(Raised(Create(MSG_TRANSPORT, EXCHANGE_SERVER_ERROR, reply.transportError)))
    ensures !TruthyCause(reply.transportError) && !TruthyString(reply.body) ==>
              r == Err(Raised(Error(MSG_EMPTY_BODY, EXCHANGE_SERVER_ERROR, None, None, None)))
    ensures r.Err? && r.error.Raised? && r.error.error.code == MODULE_ERROR <==>
              !TruthyCause(reply.transportError) && TruthyString(reply.body) && reply.parsed.ParseFailed?
    ensures r.Err? && r.error.Raised? && r.error.error.errorMessages.Some? ==>
              reply.parsed.Parsed? && reply.parsed.data.error == r.error.error.errorMessages &&
              r.error.error.cause == Some(ExchangeMessages(r.error.error.errorMessages.value))
  {
    if TruthyCause(reply.transportError) then
      Err(Raised(Create(MSG_TRANSPORT, EXCHANGE_SERVER_ERROR, reply.transportError)))
    else if !TruthyString(reply.body) then
      Err(Raised(Create(MSG_EMPTY_BODY, EXCHANGE_SERVER_ERROR, reply.transportError)))
    else
      match reply.parsed
      case ParseFailed(e) =>
        Err(Raised(Create(MSG_UNPARSABLE, MODULE_ERROR, Some(Native(e)))))
      case Parsed(data) =>
        if data.error.None? then
          Err(Thrown("data.error is undefined"))
        else if |data.error.value| != 0 then
          var error := Create(MSG_EXCHANGE, EXCHANGE_SERVER_ERROR, Some(ExchangeMessages(data.error.value)));
          Err(Raised(error.(errorMessages := data.error)))
        else if data.result.None? || IsEmpty(data.result.value) then
          Err(Raised(Create(MSG_EMPTY_RESULT, EXCHANGE_SERVER_ERROR, None)))
        else
          Ok(data.result.value)
  }

  /** A non-empty exchange error array is reported whatever the result holds, with its
      messages kept verbatim. */
  lemma ExchangeErrorKeepsMessages(reply: Reply)
    requires !TruthyCause(reply.transportError) && TruthyString(reply.body)
    requires reply.parsed.Parsed? && reply.parsed.data.error.Some? && |reply.parsed.data.error.value| > 0
    ensures var r := ResponseCallback(reply);
            r.Err? && r.error.Raised? &&
            r.error.error.code == EXCHANGE_SERVER_ERROR &&
            r.error.error.message == MSG_EXCHANGE &&
            r.error.error.errorMessages == reply.parsed.data.error
  {
  }

  /** An empty or absent result is an exchange error without a cause. */
  lemma EmptyResultIsError(reply: Reply)
    requires !TruthyCause(reply.transportError) && TruthyString(reply.body)
    requires reply.parsed.Parsed? && reply.parsed.data.error == Some([])
    requires reply.parsed.data.result.None? || IsEmpty(reply.parsed.data.result.value)
    ensures ResponseCallback(reply) == Err(Raised(Error(MSG_EMPTY_RESULT, EXCHANGE_SERVER_ERROR, None, None, None)))
  {
  }

  /** `_sendRequest`: only GET and POST reach the network; any other method is refused
      before a request is made. */
  function SendRequest(httpMethod: string, reply: Reply): (r: Result<Json, Failure>)
    ensures httpMethod == "GET" || httpMethod == "POST" ==> r == ResponseCallback(reply)
    ensures httpMethod != "GET" && httpMethod != "POST" ==>
              r == Err(Raised(Error(MSG_BAD_METHOD, MODULE_ERROR, None, None, None)))
  {
    if httpMethod == "GET" || httpMethod == "POST" then ResponseCallback(reply)
    else Err(Raised(Create(MSG_BAD_METHOD, MODULE_ERROR, None)))
  }
}
