/**
 The OpenFGA client: an immutable record of connection parameters and two
 optional bindings, a store id and an authorization model id, and the
 operations on it.

 Every operation first checks the bindings it needs and fails with a local
 error when one is missing, without sending anything; it then sends one
 request through `Transport.MakeRequest` and reads the reply.
 */
module Client {
  import opened Json
  import opened Errors
  import opened Wire
  import opened Transport

  /**
   A client. Building the record directly is `create_openfga_client`: any
   combination of bindings may be given, including a model id without a
   store id.
   */
  datatype OpenFgaClient = OpenFgaClient(config: Config, storeId: Option<string>, modelId: Option<string>)

  /** A binding, or the given local error when it is absent. */
  function Require(binding: Option<string>, missing: Error): (r: Result<string>)
    ensures r.Ok? <==> binding.Some?
    ensures r.Ok? ==> r.value == binding.value
    ensures r.Err? ==> r.error == missing
  {
    match binding
    case Some(id) => Ok(id)
    case None => Err(missing)
  }

  // ---------------------------------------------------------------------------
  // Operations

  /** `POST /stores` with `{name}`; needs no binding, so it never fails locally. */
  function CreateDataStore(c: OpenFgaClient, store: CreateDataStoreSchema, net: Network): (r: Result<CreateDataStoreResponse>)
    ensures r == MakeRequest(c.config, Call(POST, "/stores", Some(EncodeCreateDataStore(store))),
                             net, DecodeCreateDataStoreResponse)
    ensures r.Err? ==> r.error.UrlParseError? || r.error.ReqwestError? || r.error.OpenFGAErrorRespone?
  {
    MakeRequest(c.config, Call(POST, "/stores", Some(EncodeCreateDataStore(store))),
                net, DecodeCreateDataStoreResponse)
  }

  /** The request of a write or delete bound to `store` and `model`. */
  function WriteCall(store: string, model: string, action: RelationshipAction): Call {
    Call(POST, "/stores/" + store + "/write",
         Some(EncodeWriteSchema(WriteRelationshipTupleSchema(model, action))))
  }

  /**
   Writes or deletes a batch. The model id is checked before the store id:
   with neither bound the error is `MissingModelId`.
   */
  function UpdateRelationshipTuple(c: OpenFgaClient, action: RelationshipAction, net: Network)
    : (r: Result<WriteRelationshipTupleResponse>)
    ensures c.modelId.None? ==> r == Err(MissingModelId)
    ensures c.modelId.Some? && c.storeId.None? ==> r == Err(MissingStoreId)
    ensures c.modelId.Some? && c.storeId.Some? ==>
              r == MakeRequest(c.config, WriteCall(c.storeId.value, c.modelId.value, action),
                               net, DecodeWriteResponse)
  {
    var model :- Require(c.modelId, MissingModelId);
    var store :- Require(c.storeId, MissingStoreId);
    MakeRequest(c.config, WriteCall(store, model, action), net, DecodeWriteResponse)
  }

  /** Writes a batch: the body carries it under `writes`. */
  function WriteRelationshipTuple(c: OpenFgaClient, keys: TupleKeys, net: Network)
    : (r: Result<WriteRelationshipTupleResponse>)
    ensures c.modelId.None? ==> r == Err(MissingModelId)
    ensures c.modelId.Some? && c.storeId.None? ==> r == Err(MissingStoreId)
    ensures c.modelId.Some? && c.storeId.Some? ==>
              r == MakeRequest(c.config,
                               Call(POST, "/stores/" + c.storeId.value + "/write",
                                    Some(Obj(map["authorization_model_id" := Str(c.modelId.value),
                                                 "writes" := EncodeTupleKeys(keys)]))),
                               net, DecodeWriteResponse)
  {
    UpdateRelationshipTuple(c, Writes(keys), net)
  }

  /** Deletes a batch: the body carries it under `deletes`. */
  function DeleteRelationshipTuple(c: OpenFgaClient, keys: TupleKeys, net: Network)
    : (r: Result<WriteRelationshipTupleResponse>)
    ensures c.modelId.None? ==> r == Err(MissingModelId)
    ensures c.modelId.Some? && c.storeId.None? ==> r == Err(MissingStoreId)
    ensures c.modelId.Some? && c.storeId.Some? ==>
              r == MakeRequest(c.config,
                               Call(POST, "/stores/" + c.storeId.value + "/write",
                                    Some(Obj(map["authorization_model_id" := Str(c.modelId.value),
                                                 "deletes" := EncodeTupleKeys(keys)]))),
                               net, DecodeWriteResponse)
  {
    UpdateRelationshipTuple(c, Deletes(keys), net)
  }

  /** Publishes a model document, sent as given; needs the store id only. */
  function WriteAuthorizationModel(c: OpenFgaClient, model: Json, net: Network)
    : (r: Result<WriteAuthorizationModelResponse>)
    ensures c.storeId.None? ==> r == Err(MissingStoreId)
    ensures c.storeId.Some? ==>
              r == MakeRequest(c.config, Call(POST, "/stores/" + c.storeId.value + "/authorization-models", Some(model)),
                               net, DecodeWriteAuthorizationModelResponse)
    ensures r != Err(MissingModelId)
  {
    var store :- Require(c.storeId, MissingStoreId);
    MakeRequest(c.config, Call(POST, "/stores/" + store + "/authorization-models", Some(model)),
                net, DecodeWriteAuthorizationModelResponse)
  }

  /** Lists the store's models: a body-less GET; needs the store id only. */
  function GetAuthorizationModels(c: OpenFgaClient, net: Network): (r: Result<GetAuthorizationModelsResponse>)
    ensures c.storeId.None? ==> r == Err(MissingStoreId)
    ensures c.storeId.Some? ==>
              r == MakeRequest(c.config, Call(GET, "/stores/" + c.storeId.value + "/authorization-models", None),
                               net, DecodeGetAuthorizationModelsResponse)
    ensures r != Err(MissingModelId)
  {
    var store :- Require(c.storeId, MissingStoreId);
    MakeRequest(c.config, Call(GET, "/stores/" + store + "/authorization-models", None),
                net, DecodeGetAuthorizationModelsResponse)
  }

  /** The request of a check bound to `store` and `model`. */
  function CheckCall(store: string, model: string, tuple: RelationshipTuple): Call {
    Call(POST, "/stores/" + store + "/check", Some(EncodeCheckRequest(CheckRequest(model, tuple))))
  }

  /**
   Asks the service whether a tuple holds. A missing binding of either kind
   is reported as `MissingStoreId`; `MissingModelId` never comes back. On
   success the decision is the service's `allowed`, unchanged.
   */
  function Check(c: OpenFgaClient, tuple: RelationshipTuple, net: Network): (r: Result<CheckResponse>)
    ensures c.storeId.None? || c.modelId.None? ==> r == Err(MissingStoreId)
    ensures r != Err(MissingModelId)
    ensures c.storeId.Some? && c.modelId.Some? ==>
              r == MakeRequest(c.config, CheckCall(c.storeId.value, c.modelId.value, tuple),
                               net, DecodeCheckResponse)
    ensures r.Ok? ==>
              var reply := net.respond(Request(POST, c.config.baseUrl + ("/stores/" + c.storeId.value + "/check"),
                                               AuthHeaders(c.config),
                                               Some(EncodeCheckRequest(CheckRequest(c.modelId.value, tuple)))));
              reply.Received? && reply.payload.Document?
              && reply.payload.doc.Obj? && "allowed" in reply.payload.doc.fields
              && reply.payload.doc.fields["allowed"] == Bool(r.value.allowed)
  {
    match (c.storeId, c.modelId)
    case (Some(store), Some(model)) =>
      MakeRequest(c.config, CheckCall(store, model, tuple), net, DecodeCheckResponse)
    case (None, _) => Err(MissingStoreId)
    case (_, None) => Err(MissingStoreId)
  }

  /**
   `create_openfga_client_full`: binds the store, lists its models and binds
   the first one listed, in the service's order. Errors of the listing come
   back unchanged; an empty listing is `NoModelForClient`.
   */
  function CreateOpenfgaClientFull(config: Config, storeId: string, net: Network): (r: Result<OpenFgaClient>)
    ensures var listing := GetAuthorizationModels(OpenFgaClient(config, Some(storeId), None), net);
            && (listing.Err? ==> r == Err(listing.error))
            && (listing.Ok? && |listing.value.authorizationModels| == 0 ==> r == Err(NoModelForClient))
            && (listing.Ok? && |listing.value.authorizationModels| > 0 ==>
                  r == Ok(OpenFgaClient(config, Some(storeId), Some(listing.value.authorizationModels[0].id))))
    ensures r.Ok? ==> r.value.config == config && r.value.storeId == Some(storeId) && r.value.modelId.Some?
    ensures r.Err? ==> !r.error.MissingStoreId? && !r.error.MissingModelId?
  {
    var unbound := OpenFgaClient(config, Some(storeId), None);
    var models :- GetAuthorizationModels(unbound, net);
    if |models.authorizationModels| > 0 then
      Ok(OpenFgaClient(config, Some(storeId), Some(models.authorizationModels[0].id)))
    else
      Err(NoModelForClient)
  }
}
