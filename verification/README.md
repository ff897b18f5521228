# OpenFGA client model

A Dafny model of the OpenFGA authorization client of the `loco-playground`
repository (`shared/openfga`). The client is an immutable record holding a
configuration (a base URL and an optional API token), an optional store id
and an optional authorization-model id. Every operation does three things:

1. it checks that the bindings it needs are present, and fails with a local
   error (`MissingStoreId`, `MissingModelId`) before anything is sent;
2. it builds one HTTP request from a path, a method and an optional JSON body;
3. it reads the reply as an untagged union, trying the service's error shape
   `{code, message}` first and the operation's success shape second.

The bootstrap constructor `create_openfga_client_full` lists a store's models
and binds the first one listed.

## How the model is built

- `json.dfy` (`Json`): JSON values; objects are maps, so keys are unique and
  unordered.
- `errors.dfy` (`Errors`): the service error record with its display text
  and wire form, and the client's error enum with messages, diagnostic codes
  and the conversion from the service error. It also defines the `Result`
  type every operation returns.
- `wire.dfy` (`Wire`): request and response bodies with encoders and decoders
  that follow the derived serde implementations. It also holds `make_tuple`
  and `make_tuples`.
- `transport.dfy` (`Transport`): the configuration, authorization headers,
  request preparation (`Prepare`), reply reading (`Complete`) and their
  composition (`MakeRequest`).
- `client.dfy` (`Client`): the client record and every operation, each a
  pure function of the client, its arguments and a `Network`.
- `properties.dfy` (`ClientProperties`): properties relating several
  operations, or an operation and the server's answer. It ends with a
  create/publish/write/check/list walk-through modelled on the crate's
  integration test, with the test's base URL, store name and tuple.

I/O is replaced by a `Network` value with two oracles. `parsesUrl` says
whether the URL library accepts a URL string. `respond` maps a request to a
reply: a transport failure, or a status with a body that either is not JSON
or is a JSON document. The HTTP status is carried but never consulted, as in
the code (`StatusIgnored`).

Behaviour of the code that is easy to get wrong, and that the model keeps:

- `update_relationship_tuple` checks the model id before the store id, so a
  client with neither gets `MissingModelId`.
- `check` reports `MissingStoreId` for a missing model id too.
- The error shape is tried before the success shape. The order matters for
  the empty write answer, which reads from every JSON object
  (`ErrorShapeShadowsEmptyWriteAnswer`).
- There are no dedicated variants for an invalid URL, a network failure or a
  malformed response: a URL the parser rejects is `UrlParseError`, and both
  send failures and undecodable bodies are `ReqwestError`.
- An empty listing at bootstrap yields `NoModelForClient`. That variant is
  not declared in the error enum (the crate as written does not compile
  there). The model adds it as a distinct local error with no message and no
  diagnostic code.
- A client bound to a model but not to a store can be constructed
  (`create_openfga_client` accepts any combination). Every operation that
  needs a store reports `MissingStoreId` for it (`ModelWithoutStore`).
- `SerdeError` is declared but no operation produces it. Failures to read a
  response body come from the HTTP library and are `ReqwestError`.

## Model

| member | source | states |
|---|---|---|
| `Errors.DisplayOpenFgaError` | shared/openfga/src/error.rs:17-21 | a service error displays as `OpenFGAError: ` followed by its message; the code is not shown |
| `Errors.DisplayDeterminesMessage` | shared/openfga/src/error.rs:17-21 | two service errors display the same text exactly when their messages are equal |
| `Errors.EncodeOpenFgaError` | shared/openfga/src/error.rs:5-15 | a service error is sent as an object with exactly the keys `code` and `message`, both strings |
| `Errors.DecodeOpenFgaError` | shared/openfga/src/error.rs:5-15 | a JSON value reads as a service error exactly when it is an object whose `code` and `message` are strings; both are carried verbatim and other keys are ignored |
| `Errors.OpenFgaErrorRoundTrip` | shared/openfga/src/error.rs:5-15 | reading back an encoded service error gives the same code and message |
| `Errors.Message` | shared/openfga/src/error.rs:25-50 | `MissingStoreId` displays `missing store id`, `MissingModelId` displays `missing model id`, and the service-error variant displays `openfga error ` (trailing space) whatever it holds; the transparent library variants and `NoModelForClient` have no fixed text |
| `Errors.DiagnosticCode` | shared/openfga/src/error.rs:25-50 | each declared variant has its own diagnostic code, so a code identifies its variant; the service-error variant's code is `openfga_error::missing_model_id`, the serde variant's is `paut::serde_error` |
| `Errors.FromOpenFgaError` | shared/openfga/src/error.rs:47-49 | converting a service error into the enum wraps it unchanged in `OpenFGAErrorRespone` |
| `Wire.DecodeEach` | shared/openfga/src/openfga.rs:234-237 | a JSON array reads as a list exactly when every item reads; the list has the array's length and the i-th element is read from the i-th item |
| `Wire.EncodeTuple` | shared/openfga/src/openfga.rs:227-232 | a tuple is sent as an object with exactly the keys `user`, `relation` and `object`, and reads back as the same triple |
| `Wire.DecodeTuple` | shared/openfga/src/openfga.rs:227-232 | a JSON value reads as a tuple exactly when `user`, `relation` and `object` are all strings, and the tuple carries those strings |
| `Wire.EncodeTupleKeys` | shared/openfga/src/openfga.rs:234-237 | a batch is sent as `{tuple_keys: [...]}` with one item per tuple, and reads back as the same batch |
| `Wire.DecodeTupleKeys` | shared/openfga/src/openfga.rs:234-237 | a JSON value reads as a batch exactly when it is an object whose `tuple_keys` is an array of values that all read as tuples; the i-th tuple is read from the i-th item |
| `Wire.TuplesRoundTrip` | shared/openfga/src/openfga.rs:234-237 | encoding a list of tuples and reading it back gives the same tuples in the same order |
| `Wire.Lowercase` | shared/openfga/src/openfga.rs:240 | lower-casing keeps the length and maps each character to its ASCII lower-case form |
| `Wire.ActionTag` | shared/openfga/src/openfga.rs:239-244 | an action's tag is its variant name lower-cased (`writes`, `deletes`) and never collides with `authorization_model_id` |
| `Wire.EncodeWriteSchema` | shared/openfga/src/openfga.rs:245-251 | the write/delete body has exactly two keys, `authorization_model_id` and the action's tag holding the batch, and reads back as the same schema |
| `Wire.DecodeWriteSchema` | shared/openfga/src/openfga.rs:245-251 | a body reads exactly when `authorization_model_id` is a string and exactly one of `writes` and `deletes` is present and reads as a batch, other keys ignored; the key present names the action, and the model id and batch are carried from it |
| `Wire.EncodeCreateDataStore` | shared/openfga/src/openfga.rs:213-216 | the store-creation body is exactly `{name}` |
| `Wire.EncodeCheckRequest` | shared/openfga/src/openfga.rs:290-295 | the check body has exactly the keys `authorization_model_id` and `tuple_key`, and the tuple reads back unchanged |
| `Wire.DecodeCreateDataStoreResponse` | shared/openfga/src/openfga.rs:218-225 | a store answer reads exactly when `id`, `name`, `created_at` and `updated_at` are strings, and carries the id and name verbatim |
| `Wire.EncodeCreateDataStoreResponse` | shared/openfga/src/openfga.rs:218-225 | an encoded store answer reads back as itself |
| `Wire.DecodeWriteResponse` | shared/openfga/src/openfga.rs:253-256 | the empty write answer reads from every JSON object and from nothing else |
| `Wire.DecodeWriteAuthorizationModelResponse` | shared/openfga/src/openfga.rs:258-262 | a publish answer reads exactly when `authorization_model_id` is a string, and carries it verbatim |
| `Wire.DecodeAuthorizationModel` | shared/openfga/src/openfga.rs:264-268 | a model reads exactly when `id` is a string and `type_definitions` an array; both are carried verbatim and uninterpreted |
| `Wire.EncodeAuthorizationModel` | shared/openfga/src/openfga.rs:264-268 | an encoded model reads back as itself |
| `Wire.DecodeGetAuthorizationModelsResponse` | shared/openfga/src/openfga.rs:270-288 | a JSON value reads as a listing exactly when `authorization_models` is an array of values that all read as models and `continuation_token` is a string, other keys ignored; the i-th model is read from the i-th item, and the token is carried verbatim |
| `Wire.EncodeGetAuthorizationModelsResponse` | shared/openfga/src/openfga.rs:270-288 | an encoded listing reads back as the same models in the same order with the same token |
| `Wire.DecodeCheckResponse` | shared/openfga/src/openfga.rs:297-301 | a check answer reads exactly when `allowed` is a boolean, and carries it unchanged |
| `Wire.MakeTuple` | shared/openfga/src/openfga.rs:303-309 | the three strings become user, relation and object in that order, and are sent verbatim under those keys |
| `Wire.MakeTuples` | shared/openfga/src/openfga.rs:311-321 | the batch has one tuple per triple, in the same order, each made from its triple as `MakeTuple` does |
| `Transport.AuthHeaders` | shared/openfga/src/openfga.rs:67-73 | an `Authorization` header is present exactly when a token is configured and carries the token verbatim; no other header is set |
| `Transport.Prepare` | shared/openfga/src/openfga.rs:42-53 | the URL is the base URL followed by the path, with no separator added or removed; a URL the parser rejects gives `UrlParseError`; the method and body are passed through, a body present exactly when one is supplied |
| `Transport.Complete` | shared/openfga/src/openfga.rs:56-64 | a reply succeeds exactly when it is a JSON document that is not error-shaped and reads as the success type; an error-shaped document gives the service error verbatim; send failures and unreadable bodies give library errors; no local error arises here |
| `Transport.MakeRequest` | shared/openfga/src/openfga.rs:32-65 | `UrlParseError` comes back exactly when the URL does not parse; otherwise the server receives exactly the prepared request and its reply is read by `Complete` |
| `Transport.StatusIgnored` | shared/openfga/src/openfga.rs:56-58 | the HTTP status of a reply never changes the outcome |
| `Transport.ErrorShapeWins` | shared/openfga/src/openfga.rs:10-15 | an error-shaped body is the service error, whatever the expected success type |
| `Transport.SuccessReadBack` | shared/openfga/src/openfga.rs:10-15 | a body that reads as the success type and is not error-shaped gives that value |
| `Client.Require` | shared/openfga/src/openfga.rs:92 | a missing binding becomes the given local error; a present one is passed on |
| `Client.CreateDataStore` | shared/openfga/src/openfga.rs:77-85 | needs no binding: it posts `{name}` to `/stores` and never fails with a local error |
| `Client.UpdateRelationshipTuple` | shared/openfga/src/openfga.rs:87-106 | no model id gives `MissingModelId` (even with no store id); a model id without a store id gives `MissingStoreId`; otherwise it posts the schema with the bound model id to `/stores/{store}/write` |
| `Client.WriteRelationshipTuple` | shared/openfga/src/openfga.rs:108-114 | same binding errors as the update; the body is exactly `authorization_model_id` and `writes` holding the batch |
| `Client.DeleteRelationshipTuple` | shared/openfga/src/openfga.rs:116-122 | same binding errors as the update; the body is exactly `authorization_model_id` and `deletes` holding the batch |
| `Client.WriteAuthorizationModel` | shared/openfga/src/openfga.rs:124-139 | needs only the store id (`MissingStoreId` without it, never `MissingModelId`); posts the model document as given to `/stores/{store}/authorization-models` |
| `Client.GetAuthorizationModels` | shared/openfga/src/openfga.rs:141-154 | needs only the store id (`MissingStoreId` without it, never `MissingModelId`); sends a body-less GET to `/stores/{store}/authorization-models` |
| `Client.Check` | shared/openfga/src/openfga.rs:157-175 | either id missing gives `MissingStoreId`, never `MissingModelId`; with both it posts the bound model id and the tuple to `/stores/{store}/check`, and a success carries the service's `allowed` unchanged |
| `Client.CreateOpenfgaClientFull` | shared/openfga/src/openfga.rs:191-211 | listing errors come back unchanged; an empty listing gives `NoModelForClient`; otherwise the client has the same config, the given store and the id of the first listed model |
| `ClientProperties.ServiceErrorReachesCaller` | shared/openfga/src/openfga.rs:58-64 | an error-shaped reply reaches the caller verbatim from every endpoint whose bindings are present |
| `ClientProperties.InternalErrorIsNotADecision` | shared/openfga/src/error.rs:7-14 | the reply `{"code":"internal_error","message":"Internal Server Error"}` to a check is that service error, not a decision |
| `ClientProperties.ErrorShapeShadowsEmptyWriteAnswer` | shared/openfga/src/openfga.rs:10-15 | an error-shaped reply also reads as the empty write answer, yet a write returns the service error |
| `ClientProperties.CheckReturnsServiceDecision` | shared/openfga/src/openfga.rs:157-175 | with both ids bound, a non-error reply holding `allowed: b`, whatever else it holds, makes the check return `b` |
| `ClientProperties.CheckSendsTupleUnchanged` | shared/openfga/src/openfga.rs:160-168 | the check request is a POST to `/stores/{store}/check` carrying the bound model id and the caller's tuple unchanged |
| `ClientProperties.WriteAndDeleteDifferOnlyInActionKey` | shared/openfga/src/openfga.rs:108-122 | a write and a delete of the same batch share method, path, model id and batch value; only the action key differs, and each body reads back as its own action |
| `ClientProperties.BatchOrderPreserved` | shared/openfga/src/openfga.rs:245-251 | the i-th item under the action's `tuple_keys` is the i-th tuple of the batch |
| `ClientProperties.ModelIdIgnoredByStoreOperations` | shared/openfga/src/openfga.rs:124-154 | publishing and listing models ignore the model binding; creating a store ignores both bindings |
| `ClientProperties.MissingBindingSendsNothing` | shared/openfga/src/openfga.rs:91-99 | when a needed binding is missing, the outcome is the same whatever the network would do |
| `ClientProperties.ModelWithoutStore` | shared/openfga/src/openfga.rs:178-189 | a client built with a model id but no store id gets `MissingStoreId` from check, update, publish and list |
| `ClientProperties.BootstrapBindsFirstListedModel` | shared/openfga/src/openfga.rs:201-208 | when the listing holds models, bootstrap binds the id of the first one listed, in the service's order |
| `ClientProperties.BootstrapBindsFirstModelOfAnyListing` | shared/openfga/src/openfga.rs:191-208 | for any non-error listing the service sends, extra keys included, whose models all read, bootstrap succeeds and binds the id written in the first listed model |
| `ClientProperties.BootstrapWithoutModels` | shared/openfga/src/openfga.rs:202-209 | when the listing holds no model, bootstrap fails with `NoModelForClient` |
| `ClientProperties.BootstrappedClientIsFullyBound` | shared/openfga/src/openfga.rs:203-208 | a bootstrapped client never gets a missing-binding error from check or write |
| `ClientProperties.WalkThrough` | shared/openfga/src/openfga.rs:334-376 | against a server that answers store `S`, model `M`, an empty write answer, `allowed: true` and a listing of `M` (with a `schema_version` key), creating, publishing, writing and checking return exactly those answers, and the listing holds at least one model |

## Left out

- HTTP, async execution and the pooled `reqwest::Client` handle held by the client record: the `Network` oracle stands in for them.
- URL parsing by the `url` library: it is the `parsesUrl` oracle.
- Transport.Prepare: the request's URL is the string handed to the parser; the parser's normalisation of it (host case, default paths) is not modelled.
- The `Content-Type` header that the HTTP library adds when a JSON body is attached is library behaviour and is not modelled.
- The panic when the token is not a valid header value (`parse().unwrap()`) is library behaviour and is not modelled.
- `println!` and `tracing` output.
- Errors.Message: the display text of `ReqwestError`, `UrlParseError` and `SerdeError` is the wrapped library error's own text, which is not modelled; `NoModelForClient` declares no text.
- Library failures are distinguished only by cause (send failure, body not JSON, body matching neither shape). Their payloads are not carried.
- Serde also reads a record from a JSON array of its field values (so `["internal_error", "Internal Server Error"]` would read as a service error). The decoders here read records from objects only.
- JSON objects with a repeated key, key order, and non-integer numbers are not representable.
- Wire.DecodeWriteSchema: a body holding both `writes` and `deletes` is rejected. The derived deserializer would take the first in document order, and objects here have no order. The client never sends such a body.
- The contents of `type_definitions`, the timestamps and the continuation token are carried verbatim, never interpreted. There is no pagination.
- The hosting web application, its routes and the initializer that bootstraps the client with a fixed store id are framework wiring. The controller there passes a `RelationshipAction` where a batch is expected.
