/**
 Properties that relate several client operations, or an operation and the
 server's answer, to one another.
 */
module ClientProperties {
  import opened Json
  import opened Errors
  import opened Wire
  import opened Transport
  import opened Client

  /** A network on which every URL parses and the server gives the same answer to every request. */
  function Constant(reply: Reply): (net: Network)
    ensures forall u :: net.parsesUrl(u)
    ensures forall q :: net.respond(q) == reply
  {
    Network(u => true, q => reply)
  }

  /**
   A service error reply reaches the caller verbatim from every endpoint,
   once the bindings the endpoint needs are present.
   */
  lemma ServiceErrorReachesCaller(c: OpenFgaClient, e: OpenFgaError, status: int,
                                  store: CreateDataStoreSchema, model: Json,
                                  action: RelationshipAction, tuple: RelationshipTuple)
    requires c.storeId.Some? && c.modelId.Some?
    ensures var net := Constant(Received(status, Document(EncodeOpenFgaError(e))));
            && CreateDataStore(c, store, net) == Err(OpenFGAErrorRespone(e))
            && WriteAuthorizationModel(c, model, net) == Err(OpenFGAErrorRespone(e))
            && GetAuthorizationModels(c, net) == Err(OpenFGAErrorRespone(e))
            && UpdateRelationshipTuple(c, action, net) == Err(OpenFGAErrorRespone(e))
            && Check(c, tuple, net) == Err(OpenFGAErrorRespone(e))
  {
  }

  /**
   The service's internal-error reply, `{"code":"internal_error","message":"Internal Server Error"}`,
   is a service error, not a successful check.
   */
  lemma InternalErrorIsNotADecision(c: OpenFgaClient, tuple: RelationshipTuple)
    requires c.storeId.Some? && c.modelId.Some?
    ensures var internal := Obj(map["code" := Str("internal_error"), "message" := Str("Internal Server Error")]);
            Check(c, tuple, Constant(Received(500, Document(internal))))
              == Err(OpenFGAErrorRespone(OpenFgaError("internal_error", "Internal Server Error")))
  {
  }

  /**
   The empty write answer reads from any object, an error-shaped one
   included; the error shape still wins.
   */
  lemma ErrorShapeShadowsEmptyWriteAnswer(c: OpenFgaClient, e: OpenFgaError, action: RelationshipAction, status: int)
    requires c.storeId.Some? && c.modelId.Some?
    ensures DecodeWriteResponse(EncodeOpenFgaError(e)) == Some(WriteRelationshipTupleResponse)
    ensures UpdateRelationshipTuple(c, action, Constant(Received(status, Document(EncodeOpenFgaError(e)))))
              == Err(OpenFGAErrorRespone(e))
  {
  }

  /**
   With both bindings present, a check returns exactly the service's
   `allowed`, whatever else the answer holds, as long as it is not in the
   error shape.
   */
  lemma CheckReturnsServiceDecision(c: OpenFgaClient, tuple: RelationshipTuple, net: Network,
                                    status: int, fields: map<string, Json>, allowed: bool)
    requires c.storeId.Some? && c.modelId.Some?
    requires net.parsesUrl(c.config.baseUrl + ("/stores/" + c.storeId.value + "/check"))
    requires net.respond(Request(POST, c.config.baseUrl + ("/stores/" + c.storeId.value + "/check"),
                                 AuthHeaders(c.config),
                                 Some(EncodeCheckRequest(CheckRequest(c.modelId.value, tuple)))))
             == Received(status, Document(Obj(fields)))
    requires "allowed" in fields && fields["allowed"] == Bool(allowed)
    requires DecodeOpenFgaError(Obj(fields)).None?
    ensures Check(c, tuple, net) == Ok(CheckResponse(allowed))
  {
  }

  /** The check request carries the bound model id and the caller's tuple, unchanged. */
  lemma CheckSendsTupleUnchanged(store: string, model: string, tuple: RelationshipTuple)
    ensures var call := CheckCall(store, model, tuple);
            && call.verb == POST && call.path == "/stores/" + store + "/check"
            && call.body.Some? && call.body.value.fields["authorization_model_id"] == Str(model)
            && DecodeTuple(call.body.value.fields["tuple_key"]) == Some(tuple)
  {
  }

  /**
   A write and a delete of the same batch send the same method, path and
   model id; the server tells them apart by the single action key alone.
   */
  lemma WriteAndDeleteDifferOnlyInActionKey(store: string, model: string, keys: TupleKeys)
    ensures var w := WriteCall(store, model, Writes(keys));
            var d := WriteCall(store, model, Deletes(keys));
            && w.verb == d.verb && w.path == d.path
            && w.body.value.fields.Keys - {"writes"} == d.body.value.fields.Keys - {"deletes"}
            && w.body.value.fields["authorization_model_id"] == d.body.value.fields["authorization_model_id"]
            && w.body.value.fields["writes"] == d.body.value.fields["deletes"]
            && DecodeWriteSchema(w.body.value) == Some(WriteRelationshipTupleSchema(model, Writes(keys)))
            && DecodeWriteSchema(d.body.value) == Some(WriteRelationshipTupleSchema(model, Deletes(keys)))
  {
  }

  /** The batch is sent in the caller's order: the i-th `tuple_keys` item is the i-th tuple. */
  lemma BatchOrderPreserved(store: string, model: string, action: RelationshipAction, i: int)
    requires 0 <= i < |action.keys.tupleKeys|
    ensures var body := WriteCall(store, model, action).body.value;
            var batch := body.fields[ActionTag(action)].fields["tuple_keys"];
            batch.Arr? && |batch.items| == |action.keys.tupleKeys|
            && batch.items[i] == EncodeTuple(action.keys.tupleKeys[i])
  {
  }

  /** Publishing and listing models depend on the store binding only; creating a store on neither. */
  lemma ModelIdIgnoredByStoreOperations(c: OpenFgaClient, storeId: Option<string>, modelId: Option<string>,
                                        model: Json, store: CreateDataStoreSchema, net: Network)
    ensures GetAuthorizationModels(c.(modelId := modelId), net) == GetAuthorizationModels(c, net)
    ensures WriteAuthorizationModel(c.(modelId := modelId), model, net) == WriteAuthorizationModel(c, model, net)
    ensures CreateDataStore(c.(storeId := storeId, modelId := modelId), store, net) == CreateDataStore(c, store, net)
  {
  }

  /**
   A missing binding fails the same way whatever the network would have
   done: nothing is sent.
   */
  lemma MissingBindingSendsNothing(c: OpenFgaClient, tuple: RelationshipTuple, action: RelationshipAction,
                                   net1: Network, net2: Network)
    ensures c.storeId.None? || c.modelId.None? ==> Check(c, tuple, net1) == Check(c, tuple, net2)
    ensures c.storeId.None? || c.modelId.None? ==>
              UpdateRelationshipTuple(c, action, net1) == UpdateRelationshipTuple(c, action, net2)
    ensures c.storeId.None? ==> GetAuthorizationModels(c, net1) == GetAuthorizationModels(c, net2)
  {
  }

  /** A client bound to a model but not to a store is reported as missing its store by every operation that needs one. */
  lemma ModelWithoutStore(config: Config, model: string, tuple: RelationshipTuple,
                          action: RelationshipAction, document: Json, net: Network)
    ensures var c := OpenFgaClient(config, None, Some(model));
            && Check(c, tuple, net) == Err(MissingStoreId)
            && UpdateRelationshipTuple(c, action, net) == Err(MissingStoreId)
            && WriteAuthorizationModel(c, document, net) == Err(MissingStoreId)
            && GetAuthorizationModels(c, net) == Err(MissingStoreId)
  {
  }

  /** The request that lists a store's models. */
  function ListRequest(config: Config, store: string): Request {
    Request(GET, config.baseUrl + ("/stores/" + store + "/authorization-models"), AuthHeaders(config), None)
  }

  /**
   Bootstrapping binds the id of the first model the service lists, in the
   service's order, whatever follows it.
   */
  lemma BootstrapBindsFirstListedModel(config: Config, store: string, net: Network, status: int,
                                       models: seq<AuthorizationModel>, token: string)
    requires net.parsesUrl(config.baseUrl + ("/stores/" + store + "/authorization-models"))
    requires net.respond(ListRequest(config, store))
             == Received(status, Document(EncodeGetAuthorizationModelsResponse(GetAuthorizationModelsResponse(models, token))))
    requires |models| > 0
    ensures CreateOpenfgaClientFull(config, store, net) == Ok(OpenFgaClient(config, Some(store), Some(models[0].id)))
  {
  }

  /**
   Bootstrapping reads the service's own listing, whatever extra keys it and
   its models carry, and binds the id found in the first listed model.
   */
  lemma BootstrapBindsFirstModelOfAnyListing(config: Config, store: string, net: Network, status: int, j: Json)
    requires net.parsesUrl(config.baseUrl + ("/stores/" + store + "/authorization-models"))
    requires net.respond(ListRequest(config, store)) == Received(status, Document(j))
    requires DecodeOpenFgaError(j).None?
    requires Field(j, "authorization_models").Some? && j.fields["authorization_models"].Arr?
    requires StrField(j, "continuation_token").Some?
    requires forall i :: 0 <= i < |j.fields["authorization_models"].items| ==>
               DecodeAuthorizationModel(j.fields["authorization_models"].items[i]).Some?
    requires |j.fields["authorization_models"].items| > 0
    ensures var r := CreateOpenfgaClientFull(config, store, net);
            && r.Ok? && r.value.storeId == Some(store) && r.value.modelId.Some?
            && j.fields["authorization_models"].items[0].fields["id"] == Str(r.value.modelId.value)
  {
  }

  /** Bootstrapping a store that lists no model fails with `NoModelForClient`. */
  lemma BootstrapWithoutModels(config: Config, store: string, net: Network, status: int, token: string)
    requires net.parsesUrl(config.baseUrl + ("/stores/" + store + "/authorization-models"))
    requires net.respond(ListRequest(config, store))
             == Received(status, Document(EncodeGetAuthorizationModelsResponse(GetAuthorizationModelsResponse([], token))))
    ensures CreateOpenfgaClientFull(config, store, net) == Err(NoModelForClient)
  {
  }

  /** A bootstrapped client is fully bound: its checks and writes never fail for a missing binding. */
  lemma BootstrappedClientIsFullyBound(config: Config, store: string, net: Network,
                                       tuple: RelationshipTuple, action: RelationshipAction, later: Network)
    requires CreateOpenfgaClientFull(config, store, net).Ok?
    ensures var c := CreateOpenfgaClientFull(config, store, net).value;
            && Check(c, tuple, later) != Err(MissingStoreId)
            && UpdateRelationshipTuple(c, action, later) != Err(MissingStoreId)
            && UpdateRelationshipTuple(c, action, later) != Err(MissingModelId)
  {
  }

  /**
   The listing the walk-through's service returns: the one model `M`, with a
   `schema_version` key the client does not read.
   */
  const ListingDocument: Json :=
    Obj(map["authorization_models" := Arr([Obj(map["id" := Str("M"), "schema_version" := Str("1.1"),
                                                    "type_definitions" := Arr([])])]),
            "continuation_token" := Str("")])

  /**
   A service for the create-publish-write-check-list walk-through: store `S`,
   model `M`, writes accepted, every check allowed, and `M` listed.
   */
  function WalkThroughServer(base: string): Request -> Reply {
    (q: Request) =>
      if q.url == base + "/stores" then
        Received(201, Document(Obj(map["id" := Str("S"), "name" := Str("newfoobar"),
                                       "created_at" := Str("t0"), "updated_at" := Str("t0")])))
      else if q.url == base + "/stores/S/authorization-models" then
        if q.verb == POST then Received(201, Document(Obj(map["authorization_model_id" := Str("M")])))
        else Received(200, Document(ListingDocument))
      else if q.url == base + "/stores/S/write" then
        Received(200, Document(Obj(map[])))
      else if q.url == base + "/stores/S/check" then
        Received(200, Document(Obj(map["allowed" := Bool(true)])))
      else TransportFailure
  }

  const WalkThroughConfig: Config := Config("http://127.0.0.1:8080", None)

  /** Every URL parses; the server is `WalkThroughServer`. */
  function WalkThroughNetwork(): Network {
    Network(u => true, WalkThroughServer(WalkThroughConfig.baseUrl))
  }

  const Base: string := WalkThroughConfig.baseUrl

  /** Step one: the store is created and its id comes back. */
  lemma WalkThroughCreatesStore()
    ensures CreateDataStore(OpenFgaClient(WalkThroughConfig, None, None), CreateDataStoreSchema("newfoobar"),
                            WalkThroughNetwork())
            == Ok(CreateDataStoreResponse("S", "newfoobar", "t0", "t0"))
  {
    var doc := Obj(map["id" := Str("S"), "name" := Str("newfoobar"), "created_at" := Str("t0"), "updated_at" := Str("t0")]);
    var q := Request(POST, Base + "/stores", AuthHeaders(WalkThroughConfig),
                     Some(EncodeCreateDataStore(CreateDataStoreSchema("newfoobar"))));
    assert WalkThroughServer(Base)(q) == Received(201, Document(doc));
    assert "code" !in doc.fields;
  }

  /** The walk-through's service routes by URL, then by method on the models URL. */
  lemma WalkThroughRoutesModels(q: Request)
    requires q.url == Base + "/stores/S/authorization-models"
    ensures WalkThroughServer(Base)(q)
            == if q.verb == POST then Received(201, Document(Obj(map["authorization_model_id" := Str("M")])))
               else Received(200, Document(ListingDocument))
  {
    assert Base + "/stores" != q.url;
  }

  /** Step two: a model published under the store gets its id back. */
  lemma WalkThroughPublishesModel(model: Json)
    ensures WriteAuthorizationModel(OpenFgaClient(WalkThroughConfig, Some("S"), None), model, WalkThroughNetwork())
            == Ok(WriteAuthorizationModelResponse("M"))
  {
    var net := WalkThroughNetwork();
    var doc := Obj(map["authorization_model_id" := Str("M")]);
    var path := "/stores/" + "S" + "/authorization-models";
    assert path == "/stores/S/authorization-models";
    var q := Request(POST, Base + path, AuthHeaders(WalkThroughConfig), Some(model));
    WalkThroughRoutesModels(q);
    assert net.respond(q) == Received(201, Document(doc));
    assert "code" !in doc.fields;
    assert Complete(net.respond(q), DecodeWriteAuthorizationModelResponse)
           == Ok(WriteAuthorizationModelResponse("M"));
    assert MakeRequest(WalkThroughConfig, Call(POST, path, Some(model)), net, DecodeWriteAuthorizationModelResponse)
           == Ok(WriteAuthorizationModelResponse("M"));
  }

  /** Step three: a one-tuple write under both ids is accepted. */
  lemma WalkThroughWritesTuple(tuple: RelationshipTuple)
    ensures WriteRelationshipTuple(OpenFgaClient(WalkThroughConfig, Some("S"), Some("M")), TupleKeys([tuple]),
                                   WalkThroughNetwork())
            == Ok(WriteRelationshipTupleResponse)
  {
    var path := "/stores/" + "S" + "/write";
    assert path == "/stores/S/write";
    var q := Request(POST, Base + path, AuthHeaders(WalkThroughConfig),
                     Some(EncodeWriteSchema(WriteRelationshipTupleSchema("M", Writes(TupleKeys([tuple]))))));
    assert Base + "/stores" != q.url;
    assert Base + "/stores/S/authorization-models" != q.url;
    assert WalkThroughServer(Base)(q) == Received(200, Document(Obj(map[])));
  }

  /** Step four: checking the tuple returns the service's `true`. */
  lemma WalkThroughChecksTuple(tuple: RelationshipTuple)
    ensures Check(OpenFgaClient(WalkThroughConfig, Some("S"), Some("M")), tuple, WalkThroughNetwork())
            == Ok(CheckResponse(true))
  {
    var doc := Obj(map["allowed" := Bool(true)]);
    var path := "/stores/" + "S" + "/check";
    assert path == "/stores/S/check";
    var q := Request(POST, Base + path, AuthHeaders(WalkThroughConfig),
                     Some(EncodeCheckRequest(CheckRequest("M", tuple))));
    assert Base + "/stores" != q.url;
    assert Base + "/stores/S/authorization-models" != q.url;
    assert (Base + "/stores/S/write")[|Base| + 10] != q.url[|Base| + 10];
    assert WalkThroughServer(Base)(q) == Received(200, Document(doc));
    assert "code" !in doc.fields;
  }

  /** Step five: the store's listing holds the published model. */
  lemma WalkThroughListsModels()
    ensures GetAuthorizationModels(OpenFgaClient(WalkThroughConfig, Some("S"), Some("M")), WalkThroughNetwork())
            == Ok(GetAuthorizationModelsResponse([AuthorizationModel("M", [])], ""))
  {
    var path := "/stores/" + "S" + "/authorization-models";
    assert path == "/stores/S/authorization-models";
    var q := Request(GET, Base + path, AuthHeaders(WalkThroughConfig), None);
    WalkThroughRoutesModels(q);
    assert "code" !in ListingDocument.fields;
    var items := ListingDocument.fields["authorization_models"].items;
    assert DecodeAuthorizationModel(items[0]) == Some(AuthorizationModel("M", []));
    var models := DecodeEach(items, DecodeAuthorizationModel);
    assert models.Some? && models.value[0] == AuthorizationModel("M", []);
    assert models.value == [AuthorizationModel("M", [])];
  }

  /**
   The walk-through: create a store, publish a model under it, write a tuple
   under both ids, check the same tuple, then list the store's models.
   */
  lemma WalkThrough(model: Json)
    ensures var net := WalkThroughNetwork();
            var tuple := MakeTuple("user:789", "reader", "document:z");
            && CreateDataStore(OpenFgaClient(WalkThroughConfig, None, None), CreateDataStoreSchema("newfoobar"), net)
               == Ok(CreateDataStoreResponse("S", "newfoobar", "t0", "t0"))
            && WriteAuthorizationModel(OpenFgaClient(WalkThroughConfig, Some("S"), None), model, net)
               == Ok(WriteAuthorizationModelResponse("M"))
            && WriteRelationshipTuple(OpenFgaClient(WalkThroughConfig, Some("S"), Some("M")), TupleKeys([tuple]), net)
               == Ok(WriteRelationshipTupleResponse)
            && Check(OpenFgaClient(WalkThroughConfig, Some("S"), Some("M")), tuple, net) == Ok(CheckResponse(true))
            && var listing := GetAuthorizationModels(OpenFgaClient(WalkThroughConfig, Some("S"), Some("M")), net);
               listing.Ok? && |listing.value.authorizationModels| > 0
  {
    var tuple := MakeTuple("user:789", "reader", "document:z");
    WalkThroughCreatesStore();
    WalkThroughPublishesModel(model);
    WalkThroughWritesTuple(tuple);
    WalkThroughChecksTuple(tuple);
    WalkThroughListsModels();
  }
}
