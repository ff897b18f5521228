/**
 The error taxonomy of the OpenFGA client: the service's structured error
 record, the client's error enum with its display messages and diagnostic
 codes, and the `Result` every client operation returns.
 */
module Errors {
  import opened Json

  /** The service's structured rejection, sent as `{"code": …, "message": …}`. */
  datatype OpenFgaError = OpenFgaError(code: string, message: string)

  const DisplayPrefix: string := "OpenFGAError: "

  /** The display text of a service error: a fixed prefix, then the message; the code is not shown. */
  function DisplayOpenFgaError(e: OpenFgaError): (r: string)
    ensures |r| == |DisplayPrefix| + |e.message|
    ensures r[..|DisplayPrefix|] == DisplayPrefix
    ensures r[|DisplayPrefix|..] == e.message
  {
    DisplayPrefix + e.message
  }

  /** The wire form of a service error: an object with exactly the keys `code` and `message`. */
  function EncodeOpenFgaError(e: OpenFgaError): (j: Json)
    ensures j.Obj? && j.fields.Keys == {"code", "message"}
    ensures j.fields["code"] == Str(e.code) && j.fields["message"] == Str(e.message)
  {
    Obj(map["code" := Str(e.code), "message" := Str(e.message)])
  }

  /**
   Reads a service error the way the derived deserializer does: both fields
   are required and must be strings; any other key is ignored.
   */
  function DecodeOpenFgaError(j: Json): (r: Option<OpenFgaError>)
    ensures r.Some? <==> j.Obj? && "code" in j.fields && j.fields["code"].Str?
                         && "message" in j.fields && j.fields["message"].Str?
    ensures r.Some? ==> j.fields["code"] == Str(r.value.code)
                        && j.fields["message"] == Str(r.value.message)
  {
    match (StrField(j, "code"), StrField(j, "message"))
    case (Some(code), Some(message)) => Some(OpenFgaError(code, message))
    case _ => None
  }

  /** What went wrong inside the HTTP library: the send itself, or reading the response body. */
  datatype ReqwestCause =
    | SendFailed        // connection, timeout or other I/O failure while sending
    | BodyNotJson       // the response body is not a JSON document
    | NoVariantMatched  // the body is JSON but matches neither the error nor the success shape

  /** The client's error enum. The variant names are those of the client library. */
  datatype Error =
    | ReqwestError(cause: ReqwestCause)
    | UrlParseError
    | SerdeError
    | MissingStoreId
    | MissingModelId
    | OpenFGAErrorRespone(response: OpenFgaError)
    | NoModelForClient

  /** The outcome of every client operation. */
  datatype Result<+T> = Ok(value: T) | Err(error: Error) {
    predicate IsFailure() {
      Err?
    }

    function PropagateFailure<U>(): Result<U>
      requires Err?
    {
      Err(error)
    }

    function Extract(): T
      requires Ok?
    {
      value
    }
  }

  /**
   The display message of an error. The three library-error variants are
   transparent (they show the wrapped library error's own text, which is not
   part of this model) and `NoModelForClient` declares no message; for those
   the result is `None`.
   */
  function Message(e: Error): (r: Option<string>)
    ensures r == Some("missing store id") <==> e.MissingStoreId?
    ensures r == Some("missing model id") <==> e.MissingModelId?
    ensures r == Some("openfga error ") <==> e.OpenFGAErrorRespone?
    ensures r.None? <==> e.ReqwestError? || e.UrlParseError? || e.SerdeError? || e.NoModelForClient?
  {
    match e
    case MissingStoreId => Some("missing store id")
    case MissingModelId => Some("missing model id")
    case OpenFGAErrorRespone(_) => Some("openfga error ")
    case _ => None
  }

  /**
   The diagnostic code attached to each variant. Every declared variant has
   its own code, so a code names the variant it came from; `NoModelForClient`
   declares none.
   */
  function DiagnosticCode(e: Error): (r: Option<string>)
    ensures r == Some("openfga::reqwest_error") <==> e.ReqwestError?
    ensures r == Some("openfga::url_parse_error") <==> e.UrlParseError?
    ensures r == Some("paut::serde_error") <==> e.SerdeError?
    ensures r == Some("openfga::missing_store_id") <==> e.MissingStoreId?
    ensures r == Some("openfga::missing_model_id") <==> e.MissingModelId?
    ensures r == Some("openfga_error::missing_model_id") <==> e.OpenFGAErrorRespone?
    ensures r.None? <==> e.NoModelForClient?
  {
    match e
    case ReqwestError(_) => Some("openfga::reqwest_error")
    case UrlParseError => Some("openfga::url_parse_error")
    case SerdeError => Some("paut::serde_error")
    case MissingStoreId => Some("openfga::missing_store_id")
    case MissingModelId => Some("openfga::missing_model_id")
    case OpenFGAErrorRespone(_) => Some("openfga_error::missing_model_id")
    case NoModelForClient => None
  }

  /** The conversion from a service error into the client's error enum: wrapped unchanged. */
  function FromOpenFgaError(e: OpenFgaError): (r: Error)
    ensures r.OpenFGAErrorRespone? && r.response == e
    ensures Message(r) == Some("openfga error ")
  {
    OpenFGAErrorRespone(e)
  }

  /** The display of a service error depends on its message alone, and tells messages apart. */
  lemma DisplayDeterminesMessage(a: OpenFgaError, b: OpenFgaError)
    ensures DisplayOpenFgaError(a) == DisplayOpenFgaError(b) <==> a.message == b.message
  {
  }

  /** Reading back the wire form of a service error gives the same code and message. */
  lemma OpenFgaErrorRoundTrip(e: OpenFgaError)
    ensures DecodeOpenFgaError(EncodeOpenFgaError(e)) == Some(e)
  {
  }
}
