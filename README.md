# slashauth-client, modelled in Dafny

This project models `SlashAuthClient`, the client half of a signature-based
authentication exchange. The client holds a key pair and the server's
public key. It builds a signed request body for three flows:

- `authz` signs the `token` found in the url's query.
- `requestToken` signs the client's own hex-encoded public key.
- `magiclink` runs `requestToken`, then signs the `token` it got back.

Each flow posts its body and hands the reply to `processResponse`. That function
rejects a server error, a missing signature or a missing result, in that order.
It then has the signer/verifier `sv` check the server's signature over
`JSON.stringify(result)` with the server's public key. Only then is the result
returned. This is the one place where server data becomes trusted.

Files:

- `wrappers.dfy` (`Wrappers`): `Option`, `Result` (usable with `:-`) and `Outcome`.
- `js_values.dfy` (`JsValues`): the JavaScript values the client handles, as a
  datatype. It defines truthiness (`!v`), property reads (`v.key`, which throws a
  TypeError on `undefined` and `null`), and the message `new Error(v)` keeps.
- `hex.dfy` (`HexEncoding`): `Buffer.toString('hex')`, plus a reference decoder.
  The two are proved mutually inverse, so the encoding is injective.
- `client.dfy` (`SlashAuth`): keys, the injectable signer/verifier, the
  constructor, `processResponse` and the three flows.
- `properties.dfy` (`SlashAuthProperties`): lemmas that connect several members.

How the model is shaped:

- The client never changes after construction, so it is a datatype `Client`.
- A flow is a function that returns a `Run`: its result or error, plus the
  requests it posted, in order. "Fails before any request" is stated as
  `run.sent == []`.
- The collaborators are fields of a datatype `Env`:
  - `fetch` posts a body and parses the JSON reply; it stands for `node-fetch` and `res.json()`.
  - `queryToken` stands for `new URL(url).searchParams.get('token')`.
  - `stringify` stands for `JSON.stringify`.
- `sv` is a datatype `Signer` holding two functions. The built-in signer is made
  by `DefaultSigner` from the crypto module's `sign` and `verify`, which are
  parameters here (`Crypto`).
- A key is a Buffer or a string (`Key = Bytes | Text`). `toString('hex')` of a
  string returns the string unchanged, so `KeyHex` keeps it as is.
- Truthiness is modelled as JavaScript defines it. An empty-string server key
  is refused by the constructor. A response whose `result.result` is `0`, `""`,
  `false` or `null` is refused as 'No result in response'.

Where the doc comments of `src/client.js` and its code differ, the model follows the code:

- The doc comment of `authz` (`src/client.js:55`) speaks of signing a
  server-generated nonce. No nonce is generated or checked anywhere.
  `authz` and `magiclink` sign the bare token, and `requestToken` signs the
  bare hex public key. `processResponse` compares nothing in the result
  with anything the request sent.
- The doc comments list 'Invalid token' among the errors each flow throws
  (`src/client.js:59`, `:90`, `:121`, `:151`). No line of the file throws it.
  The model's errors are exactly the ones the code raises:
  - 'No keypair' and 'No serverPublicKey' from the constructor;
  - 'No url' from each flow;
  - the server's own `error.message`;
  - 'No signature in response' and 'No result in response';
  - 'Invalid signature' from the built-in verifier;
  - whatever an injected `sv`, the transport or the url parser throws;
  - TypeErrors from property reads and from string conversion.

## Model

| member | source | states |
|---|---|---|
| `JsValues.ErrorMessage` | src/client.js:157 | The message of `new Error(v)` is computed exactly when `String(v)` does not throw. A string message is kept as it is, `undefined` gives the empty message, `null` gives "null", and a plain object gives "[object Object]". An object with an own `toString` property, anywhere inside an array message too, makes the conversion throw a TypeError |
| `HexEncoding.Hex` | src/client.js:135 | A public key Buffer's hex encoding has two characters per byte, all lower-case hex digits |
| `HexEncoding.UnhexHex` | src/client.js:135 | Decoding the hex encoding gives back the key bytes |
| `HexEncoding.HexUnhex` | src/client.js:135 | Every string the decoder accepts is the encoding of what it decodes to, so the decoder is an exact inverse |
| `HexEncoding.HexInjective` | src/client.js:135 | Different byte strings have different hex encodings |
| `SlashAuth.KeyHex` | src/client.js:74 | `publicKey.toString('hex')`: a Buffer key's text decodes back to the key; a string key is sent unchanged |
| `JsValues.NewError` | src/client.js:157 | `new Error(message)` gives an Error carrying the converted message, or the TypeError of the conversion when the message cannot be converted |
| `SlashAuth.DefaultVerify` | src/client.js:25-29 | The built-in `sv.verify` passes exactly when the crypto check answers true. A false answer becomes the error 'Invalid signature'; an error from the crypto check propagates |
| `SlashAuth.NewClient` | src/client.js:45-52 | Construction succeeds exactly when a keypair and a truthy server key are given. A missing keypair fails with 'No keypair', checked before the server key ('No serverPublicKey'). Otherwise the keypair and server key are stored unchanged, and `sv` is the given one or the built-in one |
| `SlashAuth.ProcessResponse` | src/client.js:156-168 | Success exactly when the envelope vouches for its `result.result`: no error, a truthy signature, a truthy result, and a verifier that accepts the signature over the serialised result under the server key. The value returned is `result.result` unchanged. A truthy server error fails with what `new Error(error.message)` gives (exactly the message when it is a string), whatever else the envelope holds. With no error, a missing payload is a TypeError. A falsy signature fails with 'No signature in response', whatever the result is. A falsy result fails with 'No result in response'. Otherwise the verifier's error propagates |
| `SlashAuth.Exchange` | src/client.js:129-143 | A posted request gives a value exactly when the parsed reply vouches for it. A transport error propagates unchanged, and a parsed reply gets exactly `processResponse`'s verdict |
| `SlashAuth.RequestTokenBody` | src/client.js:132-137 | The requestToken body exists exactly when `sv.sign` of the client's hex public key succeeds; otherwise the result is that error. The body has method 'requestToken', no token, and the client's hex public key with `sv.sign` of that very string under the client's secret key |
| `SlashAuth.TokenBody` | src/client.js:71-77 | The authz or magiclink body exists exactly when `sv.sign` of the token succeeds; otherwise the result is that error. The body has the given method, the token unchanged, and the client's hex public key with `sv.sign` of the token under the client's secret key |
| `SlashAuth.Authz` | src/client.js:64-83 | An empty url fails with 'No url' and posts nothing. Otherwise an error parsing the url, or from `sv.sign`, propagates and nothing is posted. When both succeed, exactly one request is posted: the authz body for the url's query token (or null), sent to the url. The result is that exchange's outcome. A returned value was vouched for by the server's reply |
| `SlashAuth.RequestToken` | src/client.js:126-144 | An empty url fails with 'No url' and posts nothing. Otherwise an `sv.sign` error propagates and nothing is posted. When signing succeeds, exactly one request is posted: the requestToken body, sent to the url. The result is that exchange's outcome. A returned value was vouched for by the server's reply |
| `SlashAuth.Magiclink` | src/client.js:95-114 | An empty url fails with 'No url' and posts nothing. A failed requestToken ends the flow with its own result and requests, and no magiclink request is posted. After a successful requestToken, whose single reply vouched for its result, the flow continues. If signing that result's `token` fails, the flow fails with the signing error after requestToken's request only. Otherwise it posts exactly one more request, to the url: the magiclink body carrying that token unchanged. The result is that exchange's outcome, and a returned value was vouched for by the reply to it |
| `SlashAuthProperties.DefaultVerifierGatesTrust` | src/client.js:161-167 | With the built-in `sv`, a response is trusted exactly when it passes the structural checks and the crypto module verifies its signature over the serialised result. If that check answers false, the response is rejected with 'Invalid signature' |
| `SlashAuthProperties.RequestTokenDistinguishesKeys` | src/client.js:135-136 | Clients with different Buffer public keys send different `publicKey` fields and sign different data |
| `SlashAuthProperties.ServerAcceptsClientRequests` | src/client.js:71-77 | Assume the built-in `sv`, and a crypto module whose signatures over strings verify under the matching public key. Then a server that checks a requestToken signature over the body's `publicKey`, or an authz signature over its string token, accepts it |
| `SlashAuthProperties.RequestTokenWithHonestServer` | src/client.js:126-144 | Suppose the server answers the requestToken body with `{result: {signature, result: v}}` and its signature over `stringify(v)` verifies. Then requestToken resolves to v after posting exactly that one body |
| `SlashAuthProperties.RequestTokenWithServerError` | src/client.js:157 | A server answering `{error: {message}}` makes requestToken fail with exactly that message, after posting one request |

## Left out

- HTTP transport (`node-fetch`, the POST headers, `res.json()`): an abstract `Env.fetch` that may fail. It is a pure function of url and body, so a server that answers the same body differently over time is not modelled.
- URL parsing (`new URL`, `searchParams.get`): an abstract `Env.queryToken`. It fails on a malformed url and otherwise yields the token or nothing.
- `JSON.stringify`: an abstract `Env.stringify`. Its exact text, and the order of properties in a request body, are not modelled.
- Asynchronous scheduling: each flow is one sequential run.
- The crypto module (Ed25519 detached signatures through `sodium-universal`, and token and keypair generation) is not part of this model. Its `sign` and `verify` are parameters. The sign/verify round trip is a hypothesis of `ServerAcceptsClientRequests`, not a proved fact.
- `index.js` is not part of this model.
- JSON numbers are integers here; fractional numbers and NaN are not modelled.
- JsValues.ErrorMessage: an integer message is printed with all its digits. `String` prints a number of magnitude 1e21 or more in exponent form, and `JSON.parse` rounds integers beyond 2^53 to a double first. Neither is modelled, because the model's numbers are exact integers.
- A keypair object without `publicKey` or `secretKey`, an `opts` of `null`, and an `sv` without `sign` or `verify` all make the code throw a TypeError. The model's types always carry these fields.
- The text of a TypeError is not modelled; it is one generic error.
- Property reads consider own properties of the parsed JSON only. Inherited properties are not modelled: none of the keys the client reads is inherited. The one inherited lookup that matters, `toString` and `valueOf` during string conversion, is modelled in `JsValues.ErrorMessage`.
