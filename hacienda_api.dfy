/** `fe_cr/hacienda_api.py`: the client of the Hacienda reception API, v1. The
    client object holds the base URL its environment resolves to and the bearer
    token; the HTTP session is an object that records every request it is given
    and answers with the reply it holds, as the test suite's session does. JSON
    text, UTF-8 and base64 are left to the parameters of the model; what is proved
    is the decision logic: which environment, when a token is kept, when a request
    is sent at all, what it carries, and how a reply is classified. */
module HaciendaClient {
  import opened Wrappers
  import opened Text
  import opened Models
  import opened DecimalText
  import V = Validation
  import X = Xml
  import XB = XmlBuilder
  import XL = XmlLayout

  type Bytes = seq<bv8>

  const ProductionUrl := "https://api.comprobanteselectronicos.go.cr/recepcion/v1"
  const SandboxUrl := "https://api-sandbox.comprobanteselectronicos.go.cr/recepcion/v1"

  /** The five environment names the client knows, already lower-cased. */
  const EnvironmentUrls: map<string, string> := map[
    "production" := ProductionUrl, "prod" := ProductionUrl,
    "testing" := SandboxUrl, "test" := SandboxUrl, "sandbox" := SandboxUrl]

  /** A JSON value as `json.loads` returns it: a number written without a fraction
      or an exponent is an `int`, any other number a `float` (held as an exact real). */
  datatype Json =
    | JNull
    | JBool(b: bool)
    | JInt(i: int)
    | JFloat(f: real)
    | JString(s: string)
    | JArray(items: seq<Json>)
    | JObject(fields: map<string, Json>)

  /** Python truthiness of a decoded JSON value. */
  predicate JsonTruthy(j: Json)
  {
    match j
    case JNull => false
    case JBool(b) => b
    case JInt(i) => i != 0
    case JFloat(f) => f != 0.0
    case JString(s) => s != ""
    case JArray(items) => items != []
    case JObject(fields) => fields != map[]
  }

  /** What the client raises. `UnknownEnvironment` is the `ValueError` of the
      constructor; `NotAuthenticated`, `ResponseError` and `MissingToken` are the
      three `HaciendaAPIError`s (the last two carry `status_code` and `payload`);
      `ReplyNotObject` is the `AttributeError` of `.get` on a reply that is not a JSON
      object; `BuildFailed` is an error of `render_invoice`; `InvalidFecha` is the
      `ValidationError` of `_format_datetime`. */
  datatype ApiError =
    | UnknownEnvironment(environment: string)
    | NotAuthenticated
    | ResponseError(statusCode: int, payload: Json)
    | MissingToken(statusCode: int, payload: Json)
    | ReplyNotObject(payload: Json)
    | BuildFailed(buildError: XB.BuildError)
    | InvalidFecha(validationError: V.ValidationError)

  /** The base URL of an environment name, compared without regard to case. */
  function ResolveEnvironment(environment: string): (r: Result<string, ApiError>)
    ensures r.Ok? <==> LowerAscii(environment) in EnvironmentUrls
    ensures r.Ok? ==> r.value == EnvironmentUrls[LowerAscii(environment)]
    ensures r.Err? ==> r.error == UnknownEnvironment(environment)
  {
    var key := LowerAscii(environment);
    if key in EnvironmentUrls then Ok(EnvironmentUrls[key]) else Err(UnknownEnvironment(environment))
  }

  /** Production is reached by `production` and `prod`, the sandbox by `testing`,
      `test` and `sandbox`, in any mix of case; any other name is refused. */
  lemma EnvironmentNames(environment: string)
    ensures var key := LowerAscii(environment);
      && (ResolveEnvironment(environment) == Ok(ProductionUrl) <==> key == "production" || key == "prod")
      && (ResolveEnvironment(environment) == Ok(SandboxUrl) <==> key == "testing" || key == "test" || key == "sandbox")
      && (ResolveEnvironment(environment).Err? <==>
            key !in {"production", "prod", "testing", "test", "sandbox"})
  {
    assert ProductionUrl != SandboxUrl by {
      assert |ProductionUrl| == 55 && |SandboxUrl| == 63;
    }
  }

  // ---------------------------------------------------------------------------
  // The session
  // ---------------------------------------------------------------------------

  datatype Verb = POST | GET

  /** One request as the session records it: verb, URL, JSON body and headers. */
  datatype Request = Request(verb: Verb, url: string, body: Option<Json>, headers: Option<map<string, string>>)

  /** A reply: its status, its body decoded as JSON (`None` when decoding raises
      `ValueError`) and its text. */
  datatype Reply = Reply(statusCode: int, json: Option<Json>, text: string)

  /** The HTTP session: every request is appended to `requests`, and the answer is
      `nextReply`, the reply the server gives. */
  class Session {
    var requests: seq<Request>
    var nextReply: Reply

    constructor (reply: Reply)
      ensures requests == [] && nextReply == reply
    {
      requests := [];
      nextReply := reply;
    }

    method Post(url: string, body: Json, headers: Option<map<string, string>>) returns (reply: Reply)
      modifies this
      ensures requests == old(requests) + [Request(POST, url, Some(body), headers)]
      ensures nextReply == old(nextReply) && reply == nextReply
    {
      requests := requests + [Request(POST, url, Some(body), headers)];
      reply := nextReply;
    }

    method Get(url: string, headers: Option<map<string, string>>) returns (reply: Reply)
      modifies this
      ensures requests == old(requests) + [Request(GET, url, None, headers)]
      ensures nextReply == old(nextReply) && reply == nextReply
    {
      requests := requests + [Request(GET, url, None, headers)];
      reply := nextReply;
    }
  }

  // ---------------------------------------------------------------------------
  // Reply classification
  // ---------------------------------------------------------------------------

  /** The data of a reply: its JSON, or `{"raw": text}` when the body is not JSON. */
  function ReplyData(reply: Reply): (r: Json)
    ensures reply.json.None? ==> r.JObject? && r.fields.Keys == {"raw"} && r.fields["raw"] == JString(reply.text)
    ensures reply.json.Some? ==> r == reply.json.value
  {
    if reply.json.Some? then reply.json.value else JObject(map["raw" := JString(reply.text)])
  }

  /** `_process_response`: the reply's data, or an error carrying the status and the
      data when the status is 400 or more. */
  function ProcessResponse(reply: Reply): (r: Result<Json, ApiError>)
    ensures r.Err? <==> reply.statusCode >= 400
    ensures r.Err? ==> r.error == ResponseError(reply.statusCode, ReplyData(reply))
    ensures r.Ok? ==> r.value == ReplyData(reply)
  {
    var data := ReplyData(reply);
    if reply.statusCode >= 400 then Err(ResponseError(reply.statusCode, data)) else Ok(data)
  }

  /** What `authenticate` returns or raises for the reply it gets. The token is kept
      as the decoded value it is: any truthy value is accepted, a string or not. */
  function AuthOutcome(reply: Reply): Result<Json, ApiError>
  {
    match ProcessResponse(reply)
    case Err(e) => Err(e)
    case Ok(data) =>
      if !data.JObject? then Err(ReplyNotObject(data))
      else if "token" !in data.fields || !JsonTruthy(data.fields["token"]) then Err(MissingToken(reply.statusCode, data))
      else Ok(data.fields["token"])
  }

  /** The client holds a token when one is set and it is truthy (`if not self._token`). */
  predicate HasToken(token: Option<Json>)
  {
    token.Some? && JsonTruthy(token.value)
  }

  /** A token is obtained exactly when the status is below 400 and the reply is an
      object whose `token` is truthy; that value, whatever its type, is the token. A
      reply that is not an object, or has no truthy token, is refused with what it
      carried. */
  lemma AuthOutcomeIff(reply: Reply)
    ensures var data := ReplyData(reply);
      && (AuthOutcome(reply).Ok? <==>
            reply.statusCode < 400 && data.JObject? && "token" in data.fields && JsonTruthy(data.fields["token"]))
      && (AuthOutcome(reply).Ok? ==>
            AuthOutcome(reply).value == data.fields["token"] && HasToken(Some(AuthOutcome(reply).value)))
      && (reply.statusCode >= 400 ==> AuthOutcome(reply) == Err(ResponseError(reply.statusCode, data)))
      && (reply.statusCode < 400 && !data.JObject? ==> AuthOutcome(reply) == Err(ReplyNotObject(data)))
      && ((reply.statusCode < 400 && data.JObject? && !("token" in data.fields && JsonTruthy(data.fields["token"])))
            ==> AuthOutcome(reply) == Err(MissingToken(reply.statusCode, data)))
  {
  }

  /** The encoders the client relies on: `render_invoice`'s serialiser, UTF-8,
      base64 (RFC 4648, section 4), and `str()` of a decoded float, list or dict
      (Python's float spelling and `repr` quoting). */
  datatype Codecs = Codecs(render: X.Node -> string, utf8: string -> Bytes, b64encode: Bytes -> string,
                           show: Json -> string)

  /** Python's `str()` of a decoded JSON value, as an f-string inserts it. */
  function PyStr(j: Json, c: Codecs): string
  {
    match j
    case JNull => "None"
    case JBool(b) => if b then "True" else "False"
    case JInt(i) => IntToString(i)
    case JString(s) => s
    case _ => c.show(j)
  }

  /** The `Authorization` header of an authenticated request: `Bearer ` and the
      token as `str()` spells it. */
  function AuthHeaders(token: Json, c: Codecs): (r: map<string, string>)
    ensures r.Keys == {"Authorization"} && |r["Authorization"]| == 7 + |PyStr(token, c)|
    ensures r["Authorization"][..7] == "Bearer " && r["Authorization"][7..] == PyStr(token, c)
  {
    map["Authorization" := "Bearer " + PyStr(token, c)]
  }

  /** A string token is sent as it is; an integer token is sent as its decimal
      spelling, which reads back as the integer. */
  lemma TokenSpelling(token: Json, c: Codecs)
    ensures token.JString? ==> AuthHeaders(token, c)["Authorization"] == "Bearer " + token.s
    ensures token.JInt? && token.i >= 0 ==>
      var t := AuthHeaders(token, c)["Authorization"][7..];
      IsDigits(t) && DigitsValue(t) == token.i
    ensures token.JInt? && token.i < 0 ==>
      var t := AuthHeaders(token, c)["Authorization"][7..];
      |t| >= 2 && t[0] == '-' && IsDigits(t[1..]) && DigitsValue(t[1..]) == -token.i
  {
    var h := AuthHeaders(token, c)["Authorization"];
    assert h[7..] == PyStr(token, c);
    if token.JInt? {
      IntegerSpelling(token.i);
    }
  }

  /** `str()` of an integer: its digits, after a '-' when it is negative. */
  lemma IntegerSpelling(i: int)
    ensures i >= 0 ==> IsDigits(IntToString(i)) && DigitsValue(IntToString(i)) == i
    ensures i < 0 ==> var t := IntToString(i);
      |t| >= 2 && t[0] == '-' && IsDigits(t[1..]) && DigitsValue(t[1..]) == -i
  {
    if i < 0 {
      assert IntToString(i)[1..] == NatToString(-i);
    }
  }

  /** The reply `{"token": 123}` with status 200 is accepted: the integer is the
      token, and the requests that follow carry `Bearer 123`. */
  lemma IntegerTokenAccepted(c: Codecs)
    ensures var reply := Reply(200, Some(JObject(map["token" := JInt(123)])), "");
      AuthOutcome(reply) == Ok(JInt(123)) && AuthHeaders(JInt(123), c)["Authorization"] == "Bearer 123"
  {
    assert NatToString(1) == "1";
    assert NatToString(12) == "12";
    assert NatToString(123) == "123";
  }

  // ---------------------------------------------------------------------------
  // Payload
  // ---------------------------------------------------------------------------

  /** `_identification_payload` */
  function IdentificationPayload(id: Identification): (r: Json)
    ensures IdentificationOf(r) == Some(id)
  {
    JObject(map["tipoIdentificacion" := JString(id.tipo), "numeroIdentificacion" := JString(id.numero)])
  }

  /** How the receiving end reads an identification back. */
  function IdentificationOf(j: Json): Option<Identification>
  {
    if j.JObject? && j.fields.Keys == {"tipoIdentificacion", "numeroIdentificacion"}
       && j.fields["tipoIdentificacion"].JString? && j.fields["numeroIdentificacion"].JString?
    then Some(Identification(j.fields["tipoIdentificacion"].s, j.fields["numeroIdentificacion"].s))
    else None
  }

  /** `_format_datetime`: only a `datetime` is formatted, to the same text the
      document builder writes in `FechaEmision`; a plain date is refused on the
      `FechaEmision` field. */
  function FormatDateTime(m: IssueMoment): (r: Result<string, V.ValidationError>)
    ensures r.Ok? <==> m.AtDateTime?
    ensures r.Ok? ==> r.value == XB.Render(X.Timestamp(m.dateTime))
    ensures r.Err? ==> r.error == V.ValidationError(V.FechaEmisionInvalida, V.FechaEmision)
  {
    if m.AtDateTime? then Ok(DateTimeToText(m.dateTime))
    else Err(V.ValidationError(V.FechaEmisionInvalida, V.FechaEmision))
  }

  /** The `xml` argument of `submit_invoice`: absent, text, or bytes. */
  datatype XmlArgument = NoXml | XmlText(text: string) | XmlRaw(bytes: Bytes)

  /** Python truthiness of the `xml` argument. */
  predicate Supplied(xml: XmlArgument)
  {
    (xml.XmlText? && xml.text != "") || (xml.XmlRaw? && xml.bytes != [])
  }

  /** `xml or render_invoice(invoice)`, as bytes: a non-empty argument as given (text
      encoded as UTF-8), otherwise the validated rendering of the invoice. */
  function XmlContent(inv: ElectronicInvoice, xml: XmlArgument, c: Codecs): (r: Result<Bytes, ApiError>)
    ensures Supplied(xml) && xml.XmlText? ==> r == Ok(c.utf8(xml.text))
    ensures Supplied(xml) && xml.XmlRaw? ==> r == Ok(xml.bytes)
    ensures !Supplied(xml) ==> (r.Ok? <==> XB.RenderInvoice(inv, true, c.render).Ok?)
    ensures !Supplied(xml) && r.Ok? ==> r.value == c.utf8(c.render(XB.BuildXml(inv, true).value))
    ensures !Supplied(xml) && r.Err? ==> r.error == BuildFailed(XB.RenderInvoice(inv, true, c.render).error)
  {
    if Supplied(xml) then
      if xml.XmlText? then Ok(c.utf8(xml.text)) else Ok(xml.bytes)
    else
      match XB.RenderInvoice(inv, true, c.render)
      case Err(e) => Err(BuildFailed(e))
      case Ok(text) => Ok(c.utf8(text))
  }

  /** The receiver's identification, when there is a receiver and it has one. */
  function ReceptorId(inv: ElectronicInvoice): Option<Identification>
  {
    if inv.receptor.Some? && inv.receptor.value.identificacion.Some? then inv.receptor.value.identificacion else None
  }

  /** The submission body's members for an issue moment already formatted as
      `fecha`: clave, fecha, emisor and comprobanteXml always; receptor when the
      receiver has an identification; consecutivoReceptor when truthy. */
  function PayloadFields(inv: ElectronicInvoice, fecha: string, xmlBytes: Bytes, consecutivo: Option<string>,
                         c: Codecs): map<string, Json>
  {
    var base := map["clave" := JString(inv.clave), "fecha" := JString(fecha),
                    "emisor" := IdentificationPayload(inv.emisor.identificacion),
                    "comprobanteXml" := JString(c.b64encode(xmlBytes))];
    var withReceptor := if ReceptorId(inv).Some? then base["receptor" := IdentificationPayload(ReceptorId(inv).value)]
                        else base;
    if Truthy(consecutivo) then withReceptor["consecutivoReceptor" := JString(consecutivo.value)] else withReceptor
  }

  /** The submission body, or the error of formatting its issue moment. */
  function Payload(inv: ElectronicInvoice, xmlBytes: Bytes, consecutivo: Option<string>, c: Codecs)
    : Result<Json, ApiError>
  {
    match FormatDateTime(inv.fechaEmision)
    case Err(e) => Err(InvalidFecha(e))
    case Ok(fecha) => Ok(JObject(PayloadFields(inv, fecha, xmlBytes, consecutivo, c)))
  }

  /** A submission as the receiving end reads it from the body. */
  datatype Submission = Submission(clave: string, fecha: string, emisor: Identification, comprobanteXml: string,
                                   receptor: Option<Identification>, consecutivoReceptor: Option<string>)

  function SubmissionOf(body: Json): Option<Submission>
  {
    if !body.JObject? then None
    else
      var f := body.fields;
      if "clave" in f && f["clave"].JString? && "fecha" in f && f["fecha"].JString?
         && "emisor" in f && IdentificationOf(f["emisor"]).Some?
         && "comprobanteXml" in f && f["comprobanteXml"].JString?
      then
        Some(Submission(f["clave"].s, f["fecha"].s, IdentificationOf(f["emisor"]).value, f["comprobanteXml"].s,
                        if "receptor" in f then IdentificationOf(f["receptor"]) else None,
                        if "consecutivoReceptor" in f && f["consecutivoReceptor"].JString?
                        then Some(f["consecutivoReceptor"].s) else None))
      else None
  }

  /** The four required members are always there; the two optional ones just when
      they apply. */
  lemma PayloadKeys(inv: ElectronicInvoice, fecha: string, xmlBytes: Bytes, consecutivo: Option<string>, c: Codecs)
    ensures PayloadFields(inv, fecha, xmlBytes, consecutivo, c).Keys
      == {"clave", "fecha", "emisor", "comprobanteXml"}
         + (if ReceptorId(inv).Some? then {"receptor"} else {})
         + (if Truthy(consecutivo) then {"consecutivoReceptor"} else {})
  {
  }

  /** The members read back as the invoice's key, the formatted issue moment, the
      parties and the base64 of the XML. */
  lemma PayloadFieldsReadBack(inv: ElectronicInvoice, fecha: string, xmlBytes: Bytes, consecutivo: Option<string>,
                              c: Codecs)
    ensures SubmissionOf(JObject(PayloadFields(inv, fecha, xmlBytes, consecutivo, c)))
      == Some(Submission(inv.clave, fecha, inv.emisor.identificacion, c.b64encode(xmlBytes), ReceptorId(inv),
                         if Truthy(consecutivo) then consecutivo else None))
  {
    var f := PayloadFields(inv, fecha, xmlBytes, consecutivo, c);
    assert f["clave"] == JString(inv.clave) && f["fecha"] == JString(fecha);
    assert IdentificationOf(f["emisor"]) == Some(inv.emisor.identificacion);
    assert f["comprobanteXml"] == JString(c.b64encode(xmlBytes));
    if ReceptorId(inv).Some? {
      assert IdentificationOf(f["receptor"]) == ReceptorId(inv);
    } else {
      assert "receptor" !in f;
    }
    if Truthy(consecutivo) {
      assert f["consecutivoReceptor"] == JString(consecutivo.value);
    } else {
      assert "consecutivoReceptor" !in f;
    }
  }

  /** The body is built exactly when the issue moment is a `datetime`; it holds the
      four required keys and the two optional ones just when they apply, and reads
      back as the invoice's key, issue moment, parties and the base64 of the XML. */
  lemma PayloadReadsBack(inv: ElectronicInvoice, xmlBytes: Bytes, consecutivo: Option<string>, c: Codecs)
    ensures Payload(inv, xmlBytes, consecutivo, c).Ok? <==> inv.fechaEmision.AtDateTime?
    ensures Payload(inv, xmlBytes, consecutivo, c).Err? ==>
      Payload(inv, xmlBytes, consecutivo, c).error == InvalidFecha(V.ValidationError(V.FechaEmisionInvalida, V.FechaEmision))
    ensures Payload(inv, xmlBytes, consecutivo, c).Ok? ==>
      var body := Payload(inv, xmlBytes, consecutivo, c).value;
      && body.JObject?
      && body.fields.Keys == {"clave", "fecha", "emisor", "comprobanteXml"}
           + (if ReceptorId(inv).Some? then {"receptor"} else {})
           + (if Truthy(consecutivo) then {"consecutivoReceptor"} else {})
      && SubmissionOf(body) == Some(Submission(inv.clave, DateTimeToText(inv.fechaEmision.dateTime),
                                               inv.emisor.identificacion, c.b64encode(xmlBytes), ReceptorId(inv),
                                               if Truthy(consecutivo) then consecutivo else None))
  {
    if inv.fechaEmision.AtDateTime? {
      var fecha := DateTimeToText(inv.fechaEmision.dateTime);
      PayloadKeys(inv, fecha, xmlBytes, consecutivo, c);
      PayloadFieldsReadBack(inv, fecha, xmlBytes, consecutivo, c);
    }
  }

  /** The request `submit_invoice` sends, or what it raises before sending anything:
      no token first, then a rendering error, then an issue moment that is not a
      `datetime`. */
  function SubmitRequest(token: Option<Json>, baseUrl: string, inv: ElectronicInvoice, xml: XmlArgument,
                         consecutivo: Option<string>, c: Codecs): Result<Request, ApiError>
  {
    if !HasToken(token) then Err(NotAuthenticated)
    else
      match XmlContent(inv, xml, c)
      case Err(e) => Err(e)
      case Ok(bytes) =>
        match Payload(inv, bytes, consecutivo, c)
        case Err(e) => Err(e)
        case Ok(body) => Ok(Request(POST, baseUrl + "/recepcion", Some(body), Some(AuthHeaders(token.value, c))))
  }

  /** Nothing is sent without a non-empty token; with one, a request goes out exactly
      when the XML is supplied or the invoice renders, and the issue moment is a
      `datetime`. It is a POST to the reception endpoint, bearing the token. */
  lemma SubmitRequestIff(token: Option<Json>, baseUrl: string, inv: ElectronicInvoice, xml: XmlArgument,
                         consecutivo: Option<string>, c: Codecs)
    ensures var sent := SubmitRequest(token, baseUrl, inv, xml, consecutivo, c);
      && (!HasToken(token) ==> sent == Err(NotAuthenticated))
      && (HasToken(token) && !Supplied(xml) && XB.RenderInvoice(inv, true, c.render).Err? ==>
            sent == Err(BuildFailed(XB.RenderInvoice(inv, true, c.render).error)))
      && (sent.Ok? <==>
            HasToken(token) && (Supplied(xml) || XB.RenderInvoice(inv, true, c.render).Ok?)
            && inv.fechaEmision.AtDateTime?)
      && (sent.Ok? ==>
            && sent.value.verb == POST && sent.value.url == baseUrl + "/recepcion"
            && sent.value.headers == Some(AuthHeaders(token.value, c))
            && sent.value.body == Some(Payload(inv, XmlContent(inv, xml, c).value, consecutivo, c).value))
  {
    if HasToken(token) && XmlContent(inv, xml, c).Ok? {
      PayloadReadsBack(inv, XmlContent(inv, xml, c).value, consecutivo, c);
    }
  }

  /** When the invoice is rendered by the client, the key and issue moment it submits
      are the `Clave` and `FechaEmision` texts of the document it encodes. */
  lemma SubmissionMatchesDocument(token: Option<Json>, baseUrl: string, inv: ElectronicInvoice,
                                  consecutivo: Option<string>, c: Codecs)
    requires HasToken(token) && XB.RenderInvoice(inv, true, c.render).Ok?
    ensures var sent := SubmitRequest(token, baseUrl, inv, NoXml, consecutivo, c);
      var doc := XB.BuildXml(inv, true).value;
      && sent.Ok? && SubmissionOf(sent.value.body.value).Some?
      && var sub := SubmissionOf(sent.value.body.value).value;
      && X.TextOf(doc.children, X.Clave) == Some(X.Str(sub.clave))
      && X.TextOf(doc.children, X.FechaEmision).Some?
      && XB.Render(X.TextOf(doc.children, X.FechaEmision).value) == sub.fecha
      && sub.comprobanteXml == c.b64encode(c.utf8(c.render(doc)))
  {
    XL.BuildXmlGate(inv, true);
    XL.HeaderReadsBack(inv, inv.fechaEmision.dateTime, inv.condicionVenta.condition);
    var doc := XB.BuildXml(inv, true).value;
    var bytes := XmlContent(inv, NoXml, c).value;
    assert bytes == c.utf8(c.render(doc));
    PayloadReadsBack(inv, bytes, consecutivo, c);
    var body := Payload(inv, bytes, consecutivo, c).value;
    assert SubmitRequest(token, baseUrl, inv, NoXml, consecutivo, c).value.body == Some(body);
  }

  /** The request `fetch_status` sends, or the error it raises first. */
  function FetchRequest(token: Option<Json>, baseUrl: string, clave: string, c: Codecs)
    : (r: Result<Request, ApiError>)
    ensures r.Ok? <==> HasToken(token)
    ensures r.Err? ==> r.error == NotAuthenticated
    ensures r.Ok? ==> (r.value.verb == GET && r.value.body == None && r.value.headers == Some(AuthHeaders(token.value, c))
      && |r.value.url| == |baseUrl| + 11 + |clave| && r.value.url[..|baseUrl|] == baseUrl
      && r.value.url[|baseUrl|..|baseUrl| + 11] == "/recepcion/" && r.value.url[|baseUrl| + 11..] == clave)
  {
    if !HasToken(token) then Err(NotAuthenticated)
    else Ok(Request(GET, baseUrl + "/recepcion/" + clave, None, Some(AuthHeaders(token.value, c))))
  }

  /** `xml or render_invoice(invoice)`, then `.encode("utf-8")` for text. */
  method EncodeXml(inv: ElectronicInvoice, xml: XmlArgument, c: Codecs) returns (r: Result<Bytes, ApiError>)
    ensures r == XmlContent(inv, xml, c)
  {
    if Supplied(xml) {
      r := Ok(if xml.XmlText? then c.utf8(xml.text) else xml.bytes);
    } else {
      var rendered := XB.RenderInvoice(inv, true, c.render);
      if rendered.Err? {
        return Err(BuildFailed(rendered.error));
      }
      r := Ok(c.utf8(rendered.value));
    }
  }

  /** The body dictionary, grown member by member as `submit_invoice` grows it. */
  method BuildPayload(inv: ElectronicInvoice, xmlBytes: Bytes, consecutivo: Option<string>, c: Codecs)
    returns (r: Result<Json, ApiError>)
    ensures r == Payload(inv, xmlBytes, consecutivo, c)
  {
    var fecha := FormatDateTime(inv.fechaEmision);
    if fecha.Err? {
      return Err(InvalidFecha(fecha.error));
    }
    var fields := map["clave" := JString(inv.clave), "fecha" := JString(fecha.value),
                      "emisor" := IdentificationPayload(inv.emisor.identificacion),
                      "comprobanteXml" := JString(c.b64encode(xmlBytes))];
    if inv.receptor.Some? && inv.receptor.value.identificacion.Some? {
      fields := fields["receptor" := IdentificationPayload(inv.receptor.value.identificacion.value)];
    }
    if Truthy(consecutivo) {
      fields := fields["consecutivoReceptor" := JString(consecutivo.value)];
    }
    r := Ok(JObject(fields));
  }

  // ---------------------------------------------------------------------------
  // The client
  // ---------------------------------------------------------------------------

  /** `HaciendaAPI`: the base URL fixed at construction, the session it talks
      through, and the token, which starts absent. */
  class HaciendaApi {
    const baseUrl: string
    const session: Session
    var token: Option<Json>

    constructor (baseUrl: string, session: Session)
      ensures this.baseUrl == baseUrl && this.session == session && token == None
    {
      this.baseUrl := baseUrl;
      this.session := session;
      token := None;
    }

    /** `HaciendaAPI(environment=..., session=...)`: refused unless the environment
        resolves; a new client starts without a token. */
    static method Create(environment: string, session: Session) returns (r: Result<HaciendaApi, ApiError>)
      ensures r.Ok? <==> ResolveEnvironment(environment).Ok?
      ensures r.Ok? ==> (fresh(r.value) && r.value.baseUrl == ResolveEnvironment(environment).value
        && r.value.session == session && r.value.token == None)
      ensures r.Err? ==> r.error == UnknownEnvironment(environment)
    {
      var key := LowerAscii(environment);
      if key !in EnvironmentUrls {
        return Err(UnknownEnvironment(environment));
      }
      var api := new HaciendaApi(EnvironmentUrls[key], session);
      return Ok(api);
    }

    /** `authenticate`: posts the credentials to `/auth`; the token is replaced only
        when one is obtained, and is otherwise left as it was. */
    method Authenticate(username: string, password: string) returns (r: Result<Json, ApiError>)
      modifies this, session
      ensures session.requests == old(session.requests)
        + [Request(POST, baseUrl + "/auth",
                   Some(JObject(map["username" := JString(username), "password" := JString(password)])), None)]
      ensures session.nextReply == old(session.nextReply)
      ensures r == AuthOutcome(old(session.nextReply))
      ensures token == (if r.Ok? then Some(r.value) else old(token))
    {
      var reply := session.Post(baseUrl + "/auth",
                                JObject(map["username" := JString(username), "password" := JString(password)]), None);
      var processed := ProcessResponse(reply);
      if processed.Err? {
        return Err(processed.error);
      }
      var data := processed.value;
      if !data.JObject? {
        return Err(ReplyNotObject(data));
      }
      if "token" !in data.fields || !JsonTruthy(data.fields["token"]) {
        return Err(MissingToken(reply.statusCode, data));
      }
      token := Some(data.fields["token"]);
      r := Ok(data.fields["token"]);
    }

    /** `set_token`: the string given becomes the token. */
    method SetToken(t: string)
      modifies this
      ensures token == Some(JString(t))
    {
      token := Some(JString(t));
    }

    /** `submit_invoice`: raises before sending anything when there is no token, the
        invoice does not render, or its issue moment is not a `datetime`; otherwise
        posts the body and classifies the reply. */
    method SubmitInvoice(inv: ElectronicInvoice, xml: XmlArgument, consecutivo: Option<string>, c: Codecs)
      returns (r: Result<Json, ApiError>)
      modifies session
      ensures var sent := SubmitRequest(token, baseUrl, inv, xml, consecutivo, c);
        && (sent.Err? ==> r == Err(sent.error) && session.requests == old(session.requests))
        && (sent.Ok? ==> session.requests == old(session.requests) + [sent.value]
                         && r == ProcessResponse(old(session.nextReply)))
      ensures session.nextReply == old(session.nextReply)
    {
      if !HasToken(token) {
        return Err(NotAuthenticated);
      }
      var bytes := EncodeXml(inv, xml, c);
      if bytes.Err? {
        return Err(bytes.error);
      }
      var body := BuildPayload(inv, bytes.value, consecutivo, c);
      if body.Err? {
        return Err(body.error);
      }
      var reply := session.Post(baseUrl + "/recepcion", body.value, Some(AuthHeaders(token.value, c)));
      r := ProcessResponse(reply);
    }

    /** `fetch_status`: a GET of `/recepcion/<clave>` bearing the token, or an error
        with nothing sent when there is no token. */
    method FetchStatus(clave: string, c: Codecs) returns (r: Result<Json, ApiError>)
      modifies session
      ensures var sent := FetchRequest(token, baseUrl, clave, c);
        && (sent.Err? ==> r == Err(sent.error) && session.requests == old(session.requests))
        && (sent.Ok? ==> session.requests == old(session.requests) + [sent.value]
                         && r == ProcessResponse(old(session.nextReply)))
      ensures session.nextReply == old(session.nextReply)
    {
      if !HasToken(token) {
        return Err(NotAuthenticated);
      }
      var reply := session.Get(baseUrl + "/recepcion/" + clave, Some(AuthHeaders(token.value, c)));
      r := ProcessResponse(reply);
    }
  }
}
