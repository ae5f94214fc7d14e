/**
 * Properties that relate several members of the client model: what the
 * built-in verifier makes of `processResponse`, what a server can check of a
 * request, and the exchanges of a requestToken call with an honest server.
 */
module SlashAuthProperties {
  import opened Wrappers
  import opened JsValues
  import opened HexEncoding
  import opened SlashAuth

  /** The envelope passes every check of `processResponse` that comes before the verifier. */
  predicate WellFormed(body: Value) {
    !Truthy(ErrorOf(body)) && Truthy(SignatureOf(body)) && Truthy(ResultOf(body))
  }

  /**
   * With the built-in `sv`, a response is trusted exactly when it is well formed
   * and the crypto module's verification of its signature over the serialised
   * result answers true; when it answers false the error is 'Invalid signature'.
   */
  lemma DefaultVerifierGatesTrust(c: Client, crypto: Crypto, stringify: Value -> string, body: Value)
    requires c.sv == DefaultSigner(crypto)
    ensures ProcessResponse(c, stringify, body).Success? <==>
              WellFormed(body) && crypto.verify(SignatureOf(body), stringify(ResultOf(body)), c.serverPublicKey) == Success(true)
    ensures WellFormed(body) && crypto.verify(SignatureOf(body), stringify(ResultOf(body)), c.serverPublicKey) == Success(false) ==>
              ProcessResponse(c, stringify, body) == Failure(Error("Invalid signature"))
  {
  }

  /** Clients with different Buffer public keys send different requestToken bodies, and sign different data. */
  lemma RequestTokenDistinguishesKeys(c1: Client, c2: Client, env1: Env, env2: Env, url1: string, url2: string)
    requires c1.keypair.publicKey.Bytes? && c2.keypair.publicKey.Bytes?
    requires c1.keypair.publicKey != c2.keypair.publicKey
    ensures forall call1 <- RequestToken(c1, env1, url1).sent, call2 <- RequestToken(c2, env2, url2).sent ::
              call1.request.params.publicKey != call2.request.params.publicKey
              && PrimaryDatum(call1.request) != PrimaryDatum(call2.request)
  {
  }

  /** The crypto module verifies every signature it makes over a string, for the given key pair. */
  ghost predicate SignaturesVerify(crypto: Crypto, kp: KeyPair) {
    forall m: string ::
      crypto.sign(Str(m), kp.secretKey).Success? ==>
        crypto.verify(Str(crypto.sign(Str(m), kp.secretKey).value), m, kp.publicKey) == Success(true)
  }

  /**
   * With the built-in `sv` and sound signatures, a server that verifies a
   * requestToken body's signature over its `publicKey` under the client's
   * public key accepts it; likewise an authz body whose token is a string.
   */
  lemma ServerAcceptsClientRequests(c: Client, crypto: Crypto, env: Env, url: string)
    requires c.sv == DefaultSigner(crypto)
    requires SignaturesVerify(crypto, c.keypair)
    ensures forall call <- RequestToken(c, env, url).sent ::
              crypto.verify(call.request.params.signature, call.request.params.publicKey, c.keypair.publicKey) == Success(true)
    ensures forall call <- Authz(c, env, url).sent ::
              call.request.params.token.Str? ==>
                crypto.verify(call.request.params.signature, call.request.params.token.s, c.keypair.publicKey) == Success(true)
  {
  }

  /**
   * A server that answers the request with `{result: {signature, result: v}}`,
   * where its signature over `stringify(v)` verifies, makes requestToken
   * resolve to v after exactly that one request.
   */
  lemma RequestTokenWithHonestServer(c: Client, env: Env, url: string, signature: Value, v: Value)
    requires url != ""
    requires RequestTokenBody(c).Success?
    requires env.fetch(url, RequestTokenBody(c).value) ==
               Success(Obj(map["result" := Obj(map["signature" := signature, "result" := v])]))
    requires Truthy(signature) && Truthy(v)
    requires c.sv.verify(signature, env.stringify(v), c.serverPublicKey).Pass?
    ensures RequestToken(c, env, url) == Run(Success(v), [Call(url, RequestTokenBody(c).value)])
  {
  }

  /** A server that answers `{error: {message}}` makes requestToken fail with that message. */
  lemma RequestTokenWithServerError(c: Client, env: Env, url: string, message: string)
    requires url != ""
    requires RequestTokenBody(c).Success?
    requires env.fetch(url, RequestTokenBody(c).value) == Success(Obj(map["error" := Obj(map["message" := Str(message)])]))
    ensures RequestToken(c, env, url) == Run(Failure(Error(message)), [Call(url, RequestTokenBody(c).value)])
  {
  }
}
