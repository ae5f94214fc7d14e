/**
 * SlashAuthClient: builds signed request bodies for the `authz`, `magiclink`
 * and `requestToken` flows, posts them through a transport, and trusts a
 * response only after `processResponse` has checked its shape and verified
 * the server's signature over its payload.
 *
 * The client is an immutable record. The transport, the URL's `token` query
 * parameter and `JSON.stringify` are supplied by an environment; the
 * signer/verifier `sv` is a record of functions, injected or built from the
 * crypto primitives. Each flow returns its outcome together with the requests
 * it posted, in order.
 */
module SlashAuth {
  import opened Wrappers
  import opened JsValues
  import opened HexEncoding

  // ---------------------------------------------------------------- keys

  /** A key as the caller supplies it: a Buffer, or a string. */
  datatype Key = Bytes(bytes: seq<byte>) | Text(text: string)

  datatype KeyPair = KeyPair(publicKey: Key, secretKey: Key)

  /**
   * `key.toString('hex')`: a Buffer is hex-encoded, and on a string `toString`
   * ignores its argument and gives the string back.
   */
  function KeyHex(k: Key): (r: string)
    ensures k.Bytes? ==> Unhex(r) == Some(k.bytes)
    ensures k.Text? ==> r == k.text
  {
    match k
    case Bytes(bs) => UnhexHex(bs); Hex(bs)
    case Text(s) => s
  }

  /** Truthiness of an optional key: a Buffer is an object, a string is falsy when empty. */
  predicate Supplied(k: Option<Key>) {
    match k
    case None => false
    case Some(Bytes(_)) => true
    case Some(Text(s)) => s != ""
  }

  // ------------------------------------------------- signer and verifier

  /**
   * Detached signing and verification as the crypto module provides them.
   * Either may throw; `verify` otherwise answers whether the signature holds.
   */
  datatype Crypto = Crypto(
    sign: (Value, Key) -> Result<string, Error>,
    verify: (Value, string, Key) -> Result<bool, Error>)

  /**
   * The signer/verifier `sv`: `sign(data, secretKey)` returns a signature,
   * `verify(signature, data, publicKey)` returns normally or throws.
   */
  datatype Signer = Signer(
    sign: (Value, Key) -> Result<Value, Error>,
    verify: (Value, string, Key) -> Outcome<Error>)

  /** The built-in `sv.verify`: a false verification becomes the error 'Invalid signature'. */
  function DefaultVerify(crypto: Crypto, signature: Value, data: string, publicKey: Key): (o: Outcome<Error>)
    ensures o.Pass? <==> crypto.verify(signature, data, publicKey) == Success(true)
    ensures crypto.verify(signature, data, publicKey) == Success(false) ==> o == Fail(Error("Invalid signature"))
    ensures crypto.verify(signature, data, publicKey).Failure? ==> o == Fail(crypto.verify(signature, data, publicKey).error)
  {
    match crypto.verify(signature, data, publicKey)
    case Success(true) => Pass
    case Success(false) => Fail(Error("Invalid signature"))
    case Failure(e) => Fail(e)
  }

  /** The built-in `sv`: signs with the crypto module and verifies through `DefaultVerify`. */
  function DefaultSigner(crypto: Crypto): Signer {
    Signer(
      (data, secretKey) =>
        match crypto.sign(data, secretKey)
        case Success(signature) => Success(Str(signature))
        case Failure(e) => Failure(e),
      (signature, data, publicKey) => DefaultVerify(crypto, signature, data, publicKey))
  }

  // ------------------------------------------------------------- client

  /** The constructor's options; a missing option is `None`. */
  datatype Options = Options(keypair: Option<KeyPair>, serverPublicKey: Option<Key>, sv: Option<Signer>)

  datatype Client = Client(keypair: KeyPair, serverPublicKey: Key, sv: Signer)

  /** What construction guarantees of every client: a truthy server key. */
  predicate Configured(c: Client) {
    Supplied(Some(c.serverPublicKey))
  }

  /**
   * `new SlashAuthClient(opts)`: the keypair is checked before the server key;
   * otherwise the options are kept as given, `sv` defaulting to the built-in one.
   */
  function NewClient(opts: Options, crypto: Crypto): (r: Result<Client, Error>)
    ensures r.Success? <==> opts.keypair.Some? && Supplied(opts.serverPublicKey)
    ensures opts.keypair.None? ==> r == Failure(Error("No keypair"))
    ensures opts.keypair.Some? && !Supplied(opts.serverPublicKey) ==> r == Failure(Error("No serverPublicKey"))
    ensures r.Success? ==> Configured(r.value)
    ensures r.Success? ==> Some(r.value.keypair) == opts.keypair && Some(r.value.serverPublicKey) == opts.serverPublicKey
    ensures r.Success? ==> r.value.sv == if opts.sv.Some? then opts.sv.value else DefaultSigner(crypto)
  {
    if opts.keypair.None? then Failure(Error("No keypair"))
    else if !Supplied(opts.serverPublicKey) then Failure(Error("No serverPublicKey"))
    else Success(Client(opts.keypair.value, opts.serverPublicKey.value,
                        if opts.sv.Some? then opts.sv.value else DefaultSigner(crypto)))
  }

  // ----------------------------------------------------------- requests

  /**
   * The `params` of a request body. `token` is `Undefined` when the body has
   * no token: `JSON.stringify` leaves out a property whose value is undefined.
   */
  datatype Params = Params(publicKey: string, token: Value, signature: Value)

  datatype Request = Request(methodName: string, params: Params)

  /** One POST: the url it went to and the body it carried. */
  datatype Call = Call(url: string, request: Request)

  /** What a flow did: its result or error, and the requests it posted, in order. */
  datatype Run = Run(result: Result<Value, Error>, sent: seq<Call>)

  /**
   * The collaborators a flow uses: `fetch` posts a body and parses the JSON
   * reply; `queryToken` is `new URL(url).searchParams.get('token')`, which
   * fails on a malformed url and is `None` when there is no token;
   * `stringify` is `JSON.stringify`.
   */
  datatype Env = Env(
    fetch: (string, Request) -> Result<Value, Error>,
    queryToken: string -> Result<Option<string>, Error>,
    stringify: Value -> string)

  /** The value `searchParams.get` returns: the token, or `null`. */
  function TokenValue(t: Option<string>): Value {
    if t.Some? then Str(t.value) else Null
  }

  /** What a request signs: its own hex public key for requestToken, its token otherwise. */
  function PrimaryDatum(req: Request): Value {
    if req.methodName == "requestToken" then Str(req.params.publicKey) else req.params.token
  }

  /** The request carries the client's hex public key and `sv.sign` of its primary datum under the client's secret key. */
  predicate SignedByClient(c: Client, req: Request) {
    && req.params.publicKey == KeyHex(c.keypair.publicKey)
    && c.sv.sign(PrimaryDatum(req), c.keypair.secretKey) == Success(req.params.signature)
  }

  /**
   * The body requestToken posts: method 'requestToken', the client's hex public
   * key, no token, and the signature of that hex key; or the error `sv.sign` throws.
   */
  function RequestTokenBody(c: Client): (r: Result<Request, Error>)
    ensures r.Success? <==> c.sv.sign(Str(KeyHex(c.keypair.publicKey)), c.keypair.secretKey).Success?
    ensures r.Failure? ==> r.error == c.sv.sign(Str(KeyHex(c.keypair.publicKey)), c.keypair.secretKey).error
    ensures r.Success? ==>
              && r.value.methodName == "requestToken" && r.value.params.token == Undefined
              && SignedByClient(c, r.value)
  {
    var publicKey := KeyHex(c.keypair.publicKey);
    match c.sv.sign(Str(publicKey), c.keypair.secretKey)
    case Failure(e) => Failure(e)
    case Success(signature) => Success(Request("requestToken", Params(publicKey, Undefined, signature)))
  }

  /**
   * The body authz or magiclink posts: the given method, the client's hex public
   * key, the token, and the signature of that token; or the error `sv.sign` throws.
   */
  function TokenBody(c: Client, methodName: string, token: Value): (r: Result<Request, Error>)
    requires methodName != "requestToken"
    ensures r.Success? <==> c.sv.sign(token, c.keypair.secretKey).Success?
    ensures r.Failure? ==> r.error == c.sv.sign(token, c.keypair.secretKey).error
    ensures r.Success? ==>
              && r.value.methodName == methodName && r.value.params.token == token
              && SignedByClient(c, r.value)
  {
    match c.sv.sign(token, c.keypair.secretKey)
    case Failure(e) => Failure(e)
    case Success(signature) => Success(Request(methodName, Params(KeyHex(c.keypair.publicKey), token, signature)))
  }

  // ----------------------------------------------------------- responses

  function ErrorOf(body: Value): Value { Get(body, "error") }
  function PayloadOf(body: Value): Value { Get(body, "result") }
  function SignatureOf(body: Value): Value { Get(PayloadOf(body), "signature") }
  function ResultOf(body: Value): Value { Get(PayloadOf(body), "result") }

  /**
   * The envelope vouches for v: it carries no error, its `result.signature` is
   * truthy, v is its truthy `result.result`, and the client's verifier accepts
   * that signature over `stringify(v)` under the server's public key.
   */
  predicate Vouched(c: Client, stringify: Value -> string, body: Value, v: Value) {
    && !Truthy(ErrorOf(body))
    && Truthy(SignatureOf(body))
    && Truthy(v)
    && v == ResultOf(body)
    && c.sv.verify(SignatureOf(body), stringify(v), c.serverPublicKey).Pass?
  }

  /**
   * `processResponse(body)`: the only place where server data becomes trusted.
   * The checks come in a fixed order: a server error, then the signature, then
   * the result, then the verifier; reading `result` of a missing payload throws.
   */
  function ProcessResponse(c: Client, stringify: Value -> string, body: Value): (r: Result<Value, Error>)
    ensures r.Success? <==> Vouched(c, stringify, body, ResultOf(body))
    ensures r.Success? ==> r.value == ResultOf(body)
    ensures Truthy(ErrorOf(body)) ==> r == Failure(NewError(Get(ErrorOf(body), "message")))
    ensures !Truthy(ErrorOf(body)) && Nullish(PayloadOf(body)) ==> r == Failure(TypeError)
    ensures !Truthy(ErrorOf(body)) && !Nullish(PayloadOf(body)) && !Truthy(SignatureOf(body)) ==>
              r == Failure(Error("No signature in response"))
    ensures !Truthy(ErrorOf(body)) && Truthy(SignatureOf(body)) && !Truthy(ResultOf(body)) ==>
              r == Failure(Error("No result in response"))
    ensures !Truthy(ErrorOf(body)) && Truthy(SignatureOf(body)) && Truthy(ResultOf(body)) ==>
              var o := c.sv.verify(SignatureOf(body), stringify(ResultOf(body)), c.serverPublicKey);
              o.Fail? ==> r == Failure(o.error)
  {
    var error :- Member(body, "error");
    // body is neither undefined nor null from here on, and neither is a truthy error
    if Truthy(error) then Failure(NewError(Get(error, "message")))
    else
      var payload := Get(body, "result");
      var signature :- Member(payload, "signature");
      // payload is neither undefined nor null from here on
      if !Truthy(signature) then Failure(Error("No signature in response"))
      else
        var result := Get(payload, "result");
        if !Truthy(result) then Failure(Error("No result in response"))
        else match c.sv.verify(signature, stringify(result), c.serverPublicKey)
          case Fail(e) => Failure(e)
          case Pass => Success(result)
  }

  /** The reply to call parsed and was vouched for as v by the server. */
  predicate Trusted(c: Client, env: Env, call: Call, v: Value) {
    && env.fetch(call.url, call.request).Success?
    && Vouched(c, env.stringify, env.fetch(call.url, call.request).value, v)
  }

  /** Posts one request and validates the reply. */
  function Exchange(c: Client, env: Env, url: string, req: Request): (r: Result<Value, Error>)
    ensures r.Success? <==>
              env.fetch(url, req).Success? && Trusted(c, env, Call(url, req), ResultOf(env.fetch(url, req).value))
    ensures r.Success? ==> Trusted(c, env, Call(url, req), r.value)
    ensures env.fetch(url, req).Failure? ==> r == Failure(env.fetch(url, req).error)
    ensures env.fetch(url, req).Success? ==> r == ProcessResponse(c, env.stringify, env.fetch(url, req).value)
  {
    match env.fetch(url, req)
    case Failure(e) => Failure(e)
    case Success(body) => ProcessResponse(c, env.stringify, body)
  }

  // --------------------------------------------------------------- flows

  /** `authz(url)`: sign the token found in the url's query and post it. */
  function Authz(c: Client, env: Env, url: string): (run: Run)
    ensures url == "" ==> run == Run(Failure(Error("No url")), [])
    ensures url != "" && env.queryToken(url).Failure? ==> run == Run(Failure(env.queryToken(url).error), [])
    ensures url != "" && env.queryToken(url).Success? ==>
              var body := TokenBody(c, "authz", TokenValue(env.queryToken(url).value));
              && (body.Failure? ==> run == Run(Failure(body.error), []))
              && (body.Success? ==> run.sent == [Call(url, body.value)])
    ensures |run.sent| <= 1
    ensures forall call <- run.sent ::
              && call.url == url && call.request.methodName == "authz"
              && SignedByClient(c, call.request)
              && env.queryToken(url).Success?
              && call.request.params.token == TokenValue(env.queryToken(url).value)
              && run.result == Exchange(c, env, url, call.request)
    ensures run.sent == [] ==> run.result.Failure?
    ensures run.result.Success? ==> Trusted(c, env, run.sent[0], run.result.value)
  {
    if url == "" then Run(Failure(Error("No url")), [])
    else match env.queryToken(url)
      case Failure(e) => Run(Failure(e), [])
      case Success(t) =>
        match TokenBody(c, "authz", TokenValue(t))
        case Failure(e) => Run(Failure(e), [])
        case Success(req) => Run(Exchange(c, env, url, req), [Call(url, req)])
  }

  /** `requestToken(url)`: sign the client's own hex public key and post it. */
  function RequestToken(c: Client, env: Env, url: string): (run: Run)
    ensures url == "" ==> run == Run(Failure(Error("No url")), [])
    ensures url != "" && RequestTokenBody(c).Failure? ==> run == Run(Failure(RequestTokenBody(c).error), [])
    ensures url != "" && RequestTokenBody(c).Success? ==> run.sent == [Call(url, RequestTokenBody(c).value)]
    ensures |run.sent| <= 1
    ensures forall call <- run.sent ::
              && call.url == url && call.request.methodName == "requestToken"
              && SignedByClient(c, call.request)
              && call.request.params.token == Undefined
              && run.result == Exchange(c, env, url, call.request)
    ensures run.sent == [] ==> run.result.Failure?
    ensures run.result.Success? ==> Trusted(c, env, run.sent[0], run.result.value)
  {
    if url == "" then Run(Failure(Error("No url")), [])
    else match RequestTokenBody(c)
      case Failure(e) => Run(Failure(e), [])
      case Success(req) => Run(Exchange(c, env, url, req), [Call(url, req)])
  }

  /**
   * `magiclink(url)`: run requestToken, then sign the `token` of its result
   * and post that. A failed requestToken ends the flow with its error.
   */
  function Magiclink(c: Client, env: Env, url: string): (run: Run)
    ensures url == "" ==> run == Run(Failure(Error("No url")), [])
    ensures RequestToken(c, env, url).result.Failure? ==> run == RequestToken(c, env, url)
    ensures RequestToken(c, env, url).result.Success? ==>
              var first := RequestToken(c, env, url);
              var body := TokenBody(c, "magiclink", Get(first.result.value, "token"));
              && |first.sent| == 1
              && Trusted(c, env, first.sent[0], first.result.value)
              && (body.Failure? ==> run == Run(Failure(body.error), first.sent))
              && (body.Success? ==> run.sent == first.sent + [Call(url, body.value)])
    ensures |run.sent| <= 2
    ensures |run.sent| == 2 ==>
              var first := RequestToken(c, env, url);
              && first.result.Success?
              && run.sent[..1] == first.sent
              && run.sent[1].url == url && run.sent[1].request.methodName == "magiclink"
              && SignedByClient(c, run.sent[1].request)
              && run.sent[1].request.params.token == Get(first.result.value, "token")
              && run.result == Exchange(c, env, url, run.sent[1].request)
    ensures run.result.Success? ==> |run.sent| == 2 && Trusted(c, env, run.sent[1], run.result.value)
  {
    if url == "" then Run(Failure(Error("No url")), [])
    else
      var first := RequestToken(c, env, url);
      match first.result
      case Failure(_) => first
      case Success(answer) =>
        // `const { token } = answer`: answer is truthy, so reading its token cannot throw
        match TokenBody(c, "magiclink", Get(answer, "token"))
        case Failure(e) => Run(Failure(e), first.sent)
        case Success(req) => Run(Exchange(c, env, url, req), first.sent + [Call(url, req)])
  }
}
