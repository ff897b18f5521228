/**
 The request and response bodies of the OpenFGA HTTP API as the client
 defines them, with their JSON encodings and decodings.

 Encoders follow the derived serializers: one key per field, named as the
 field, in the same nesting. Decoders follow the derived deserializers: every
 field is required and must have the field's JSON type, and keys the record
 does not name are ignored.
 */
module Wire {
  import opened Json

  /** One (user, relation, object) assertion; `obj` is the object, since `object` is a Dafny keyword. */
  datatype RelationshipTuple = RelationshipTuple(user: string, relation: string, obj: string)

  /** An ordered batch of tuples, sent as `{"tuple_keys": [...]}`. */
  datatype TupleKeys = TupleKeys(tupleKeys: seq<RelationshipTuple>)

  /** Whether a batch is to be written or deleted. */
  datatype RelationshipAction = Writes(keys: TupleKeys) | Deletes(keys: TupleKeys)

  /** The body of `POST /stores/{store}/write`: the model id with the action flattened beside it. */
  datatype WriteRelationshipTupleSchema =
    WriteRelationshipTupleSchema(authorizationModelId: string, relationshipAction: RelationshipAction)

  /** The body of `POST /stores`. */
  datatype CreateDataStoreSchema = CreateDataStoreSchema(name: string)

  /** The body of `POST /stores/{store}/check`. */
  datatype CheckRequest = CheckRequest(authorizationModelId: string, tupleKey: RelationshipTuple)

  datatype CreateDataStoreResponse =
    CreateDataStoreResponse(id: string, name: string, createdAt: string, updatedAt: string)

  /** The (empty) success answer to a write or delete. */
  datatype WriteRelationshipTupleResponse = WriteRelationshipTupleResponse

  datatype WriteAuthorizationModelResponse = WriteAuthorizationModelResponse(authorizationModelId: string)

  /** A published model: its id and its type definitions, carried but never interpreted. */
  datatype AuthorizationModel = AuthorizationModel(id: string, typeDefinitions: seq<Json>)

  datatype GetAuthorizationModelsResponse =
    GetAuthorizationModelsResponse(authorizationModels: seq<AuthorizationModel>, continuationToken: string)

  datatype CheckResponse = CheckResponse(allowed: bool)

  // ---------------------------------------------------------------------------
  // Sequences of values

  /** Decodes every item with `decode`; fails if any item fails. */
  function DecodeEach<T>(items: seq<Json>, decode: Json -> Option<T>): (r: Option<seq<T>>)
    ensures r.Some? <==> forall i :: 0 <= i < |items| ==> decode(items[i]).Some?
    ensures r.Some? ==> |r.value| == |items|
    ensures r.Some? ==> forall i :: 0 <= i < |items| ==> decode(items[i]) == Some(r.value[i])
  {
    if items == [] then Some([])
    else
      match (decode(items[0]), DecodeEach(items[1..], decode))
      case (Some(x), Some(xs)) => Some([x] + xs)
      case _ =>
        assert forall i :: 1 <= i < |items| ==> items[i] == items[1..][i - 1];
        None
  }

  // ---------------------------------------------------------------------------
  // Tuples

  function EncodeTuple(t: RelationshipTuple): (j: Json)
    ensures j.Obj? && j.fields.Keys == {"user", "relation", "object"}
    ensures DecodeTuple(j) == Some(t)
  {
    Obj(map["user" := Str(t.user), "relation" := Str(t.relation), "object" := Str(t.obj)])
  }

  function DecodeTuple(j: Json): (r: Option<RelationshipTuple>)
    ensures r.Some? <==> StrField(j, "user").Some? && StrField(j, "relation").Some?
                         && StrField(j, "object").Some?
    ensures r.Some? ==> j.fields["user"] == Str(r.value.user)
                        && j.fields["relation"] == Str(r.value.relation)
                        && j.fields["object"] == Str(r.value.obj)
  {
    match (StrField(j, "user"), StrField(j, "relation"), StrField(j, "object"))
    case (Some(u), Some(rel), Some(o)) => Some(RelationshipTuple(u, rel, o))
    case _ => None
  }

  function EncodeTuples(ts: seq<RelationshipTuple>): (items: seq<Json>)
    ensures |items| == |ts|
    ensures forall i :: 0 <= i < |ts| ==> items[i] == EncodeTuple(ts[i])
  {
    seq(|ts|, i requires 0 <= i < |ts| => EncodeTuple(ts[i]))
  }

  function EncodeTupleKeys(k: TupleKeys): (j: Json)
    ensures j.Obj? && j.fields.Keys == {"tuple_keys"}
    ensures j.fields["tuple_keys"].Arr? && |j.fields["tuple_keys"].items| == |k.tupleKeys|
    ensures DecodeTupleKeys(j) == Some(k)
  {
    var j := Obj(map["tuple_keys" := Arr(EncodeTuples(k.tupleKeys))]);
    TuplesRoundTrip(k.tupleKeys);
    j
  }

  /** Reads a batch: an object whose `tuple_keys` array holds only tuples; the i-th tuple is read from the i-th item. */
  function DecodeTupleKeys(j: Json): (r: Option<TupleKeys>)
    ensures r.Some? <==> Field(j, "tuple_keys").Some? && j.fields["tuple_keys"].Arr?
                         && forall i :: 0 <= i < |j.fields["tuple_keys"].items| ==>
                              DecodeTuple(j.fields["tuple_keys"].items[i]).Some?
    ensures r.Some? ==> |r.value.tupleKeys| == |j.fields["tuple_keys"].items|
    ensures r.Some? ==> forall i :: 0 <= i < |j.fields["tuple_keys"].items| ==>
                          DecodeTuple(j.fields["tuple_keys"].items[i]) == Some(r.value.tupleKeys[i])
  {
    match Field(j, "tuple_keys")
    case Some(Arr(items)) =>
      (match DecodeEach(items, DecodeTuple)
       case Some(ts) => Some(TupleKeys(ts))
       case None => None)
    case _ => None
  }

  /** A batch of tuples reads back as the same tuples in the same order. */
  lemma TuplesRoundTrip(ts: seq<RelationshipTuple>)
    ensures DecodeEach(EncodeTuples(ts), DecodeTuple) == Some(ts)
  {
    var items := EncodeTuples(ts);
    var r := DecodeEach(items, DecodeTuple);
    assert r.Some?;
    assert forall i :: 0 <= i < |ts| ==> r.value[i] == ts[i] by {
      forall i | 0 <= i < |ts|
        ensures r.value[i] == ts[i]
      {
        assert DecodeTuple(items[i]) == Some(r.value[i]);
      }
    }
    assert r.value == ts;
  }

  // ---------------------------------------------------------------------------
  // The write/delete body

  /** The Rust name of an action's variant. */
  function VariantName(a: RelationshipAction): string {
    match a
    case Writes(_) => "Writes"
    case Deletes(_) => "Deletes"
  }

  function LowerChar(c: char): char {
    if 'A' <= c <= 'Z' then (c as int + 32) as char else c
  }

  /** ASCII lower-casing, as the `lowercase` renaming rule applies it to variant names. */
  function Lowercase(s: string): (r: string)
    ensures |r| == |s|
    ensures forall i :: 0 <= i < |s| ==> r[i] == LowerChar(s[i])
  {
    if s == [] then [] else [LowerChar(s[0])] + Lowercase(s[1..])
  }

  /** The key under which an action's batch is sent: its variant name, lower-cased. */
  function ActionTag(a: RelationshipAction): (tag: string)
    ensures tag == Lowercase(VariantName(a))
    ensures tag != "authorization_model_id"
  {
    var tag := if a.Writes? then "writes" else "deletes";
    assert tag == Lowercase(VariantName(a));
    tag
  }

  /**
   The write/delete body: `authorization_model_id` and, beside it, the
   action's tag holding the batch; no other key.
   */
  function EncodeWriteSchema(s: WriteRelationshipTupleSchema): (j: Json)
    ensures j.Obj? && j.fields.Keys == {"authorization_model_id", ActionTag(s.relationshipAction)}
    ensures j.fields["authorization_model_id"] == Str(s.authorizationModelId)
    ensures j.fields[ActionTag(s.relationshipAction)] == EncodeTupleKeys(s.relationshipAction.keys)
    ensures DecodeWriteSchema(j) == Some(s)
  {
    var a := s.relationshipAction;
    Obj(map["authorization_model_id" := Str(s.authorizationModelId),
            ActionTag(a) := EncodeTupleKeys(a.keys)])
  }

  /**
   Reads a write/delete body: the model id, plus exactly one of the
   `writes` and `deletes` keys, which names the action. Other keys are
   ignored.
   */
  function DecodeWriteSchema(j: Json): (r: Option<WriteRelationshipTupleSchema>)
    ensures r.Some? <==> StrField(j, "authorization_model_id").Some?
                         && (("writes" in j.fields) != ("deletes" in j.fields))
                         && ("writes" in j.fields ==> DecodeTupleKeys(j.fields["writes"]).Some?)
                         && ("deletes" in j.fields ==> DecodeTupleKeys(j.fields["deletes"]).Some?)
    ensures r.Some? ==> (r.value.relationshipAction.Writes? <==> "writes" in j.fields)
    ensures r.Some? ==> j.Obj? && "authorization_model_id" in j.fields
                        && j.fields["authorization_model_id"] == Str(r.value.authorizationModelId)
    ensures r.Some? ==> ActionTag(r.value.relationshipAction) in j.fields
                        && DecodeTupleKeys(j.fields[ActionTag(r.value.relationshipAction)])
                           == Some(r.value.relationshipAction.keys)
  {
    match StrField(j, "authorization_model_id")
    case None => None
    case Some(id) =>
      if "writes" in j.fields && "deletes" !in j.fields then
        match DecodeTupleKeys(j.fields["writes"])
        case Some(k) => Some(WriteRelationshipTupleSchema(id, Writes(k)))
        case None => None
      else if "deletes" in j.fields && "writes" !in j.fields then
        match DecodeTupleKeys(j.fields["deletes"])
        case Some(k) => Some(WriteRelationshipTupleSchema(id, Deletes(k)))
        case None => None
      else None
  }

  // ---------------------------------------------------------------------------
  // Other request bodies

  function EncodeCreateDataStore(s: CreateDataStoreSchema): (j: Json)
    ensures j.Obj? && j.fields.Keys == {"name"} && j.fields["name"] == Str(s.name)
  {
    Obj(map["name" := Str(s.name)])
  }

  /** The check body: the model id and the tuple, unchanged, under `tuple_key`. */
  function EncodeCheckRequest(c: CheckRequest): (j: Json)
    ensures j.Obj? && j.fields.Keys == {"authorization_model_id", "tuple_key"}
    ensures j.fields["authorization_model_id"] == Str(c.authorizationModelId)
    ensures DecodeTuple(j.fields["tuple_key"]) == Some(c.tupleKey)
  {
    Obj(map["authorization_model_id" := Str(c.authorizationModelId),
            "tuple_key" := EncodeTuple(c.tupleKey)])
  }

  // ---------------------------------------------------------------------------
  // Response bodies

  function DecodeCreateDataStoreResponse(j: Json): (r: Option<CreateDataStoreResponse>)
    ensures r.Some? <==> StrField(j, "id").Some? && StrField(j, "name").Some?
                         && StrField(j, "created_at").Some? && StrField(j, "updated_at").Some?
    ensures r.Some? ==> j.fields["id"] == Str(r.value.id) && j.fields["name"] == Str(r.value.name)
  {
    match (StrField(j, "id"), StrField(j, "name"), StrField(j, "created_at"), StrField(j, "updated_at"))
    case (Some(id), Some(name), Some(created), Some(updated)) =>
      Some(CreateDataStoreResponse(id, name, created, updated))
    case _ => None
  }

  function EncodeCreateDataStoreResponse(x: CreateDataStoreResponse): (j: Json)
    ensures DecodeCreateDataStoreResponse(j) == Some(x)
  {
    Obj(map["id" := Str(x.id), "name" := Str(x.name),
            "created_at" := Str(x.createdAt), "updated_at" := Str(x.updatedAt)])
  }

  /** A record with no fields: every JSON object reads as one, whatever keys it holds. */
  function DecodeWriteResponse(j: Json): (r: Option<WriteRelationshipTupleResponse>)
    ensures r.Some? <==> j.Obj?
  {
    if j.Obj? then Some(WriteRelationshipTupleResponse) else None
  }

  function DecodeWriteAuthorizationModelResponse(j: Json): (r: Option<WriteAuthorizationModelResponse>)
    ensures r.Some? <==> StrField(j, "authorization_model_id").Some?
    ensures r.Some? ==> j.fields["authorization_model_id"] == Str(r.value.authorizationModelId)
  {
    match StrField(j, "authorization_model_id")
    case Some(id) => Some(WriteAuthorizationModelResponse(id))
    case None => None
  }

  function DecodeAuthorizationModel(j: Json): (r: Option<AuthorizationModel>)
    ensures r.Some? <==> StrField(j, "id").Some? && Field(j, "type_definitions").Some?
                         && j.fields["type_definitions"].Arr?
    ensures r.Some? ==> j.fields["id"] == Str(r.value.id)
                        && j.fields["type_definitions"] == Arr(r.value.typeDefinitions)
  {
    match (StrField(j, "id"), Field(j, "type_definitions"))
    case (Some(id), Some(Arr(defs))) => Some(AuthorizationModel(id, defs))
    case _ => None
  }

  function EncodeAuthorizationModel(m: AuthorizationModel): (j: Json)
    ensures DecodeAuthorizationModel(j) == Some(m)
  {
    Obj(map["id" := Str(m.id), "type_definitions" := Arr(m.typeDefinitions)])
  }

  /**
   Reads a model listing. The models come back in the order the service
   listed them: the i-th item of `authorization_models` is the i-th model.
   */
  function DecodeGetAuthorizationModelsResponse(j: Json): (r: Option<GetAuthorizationModelsResponse>)
    ensures r.Some? <==> Field(j, "authorization_models").Some? && j.fields["authorization_models"].Arr?
                         && StrField(j, "continuation_token").Some?
                         && forall i :: 0 <= i < |j.fields["authorization_models"].items| ==>
                              DecodeAuthorizationModel(j.fields["authorization_models"].items[i]).Some?
    ensures r.Some? ==> j.Obj? && "authorization_models" in j.fields
                        && j.fields["authorization_models"].Arr?
                        && "continuation_token" in j.fields
                        && j.fields["continuation_token"] == Str(r.value.continuationToken)
    ensures r.Some? ==> var items := j.fields["authorization_models"].items;
                        |r.value.authorizationModels| == |items|
                        && forall i :: 0 <= i < |items| ==>
                             DecodeAuthorizationModel(items[i]) == Some(r.value.authorizationModels[i])
  {
    match (Field(j, "authorization_models"), StrField(j, "continuation_token"))
    case (Some(Arr(items)), Some(token)) =>
      (match DecodeEach(items, DecodeAuthorizationModel)
       case Some(models) => Some(GetAuthorizationModelsResponse(models, token))
       case None => None)
    case _ => None
  }

  function EncodeGetAuthorizationModelsResponse(x: GetAuthorizationModelsResponse): (j: Json)
    ensures DecodeGetAuthorizationModelsResponse(j) == Some(x)
  {
    var ms := x.authorizationModels;
    var items := seq(|ms|, i requires 0 <= i < |ms| => EncodeAuthorizationModel(ms[i]));
    var r := DecodeEach(items, DecodeAuthorizationModel);
    assert r.Some? && r.value == ms by {
      assert forall i :: 0 <= i < |ms| ==> DecodeAuthorizationModel(items[i]) == Some(ms[i]);
    }
    Obj(map["authorization_models" := Arr(items), "continuation_token" := Str(x.continuationToken)])
  }

  function DecodeCheckResponse(j: Json): (r: Option<CheckResponse>)
    ensures r.Some? <==> Field(j, "allowed").Some? && j.fields["allowed"].Bool?
    ensures r.Some? ==> j.fields["allowed"] == Bool(r.value.allowed)
  {
    match Field(j, "allowed")
    case Some(Bool(b)) => Some(CheckResponse(b))
    case _ => None
  }

  // ---------------------------------------------------------------------------
  // Tuple helpers

  /** A tuple from three strings, taken positionally as user, relation and object. */
  function MakeTuple(user: string, relation: string, obj: string): (t: RelationshipTuple)
    ensures EncodeTuple(t) == Obj(map["user" := Str(user), "relation" := Str(relation), "object" := Str(obj)])
  {
    RelationshipTuple(user, relation, obj)
  }

  /** A batch from triples: same length, same order, each triple made into a tuple as `MakeTuple` does. */
  function MakeTuples(triples: seq<(string, string, string)>): (k: TupleKeys)
    ensures |k.tupleKeys| == |triples|
    ensures forall i :: 0 <= i < |triples| ==>
              k.tupleKeys[i] == MakeTuple(triples[i].0, triples[i].1, triples[i].2)
  {
    TupleKeys(seq(|triples|, i requires 0 <= i < |triples| => MakeTuple(triples[i].0, triples[i].1, triples[i].2)))
  }
}
