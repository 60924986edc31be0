/** Shape checks for the API's response envelope and its parts. Each check is a
    type guard: it accepts exactly the parsed values that can be read as the typed
    record, and the record's JSON form is always accepted. */
module Schemas {
  import opened Json

  // ---------------------------------------------------------------------------
  // Hostnames: three `string | null` fields.
  // ---------------------------------------------------------------------------

  datatype Hostnames = Hostnames(gatewayApi: Option<string>, tasksApi: Option<string>, authApi: Option<string>)

  predicate HostnamesIsValidJson(v: Json)
  {
    IsObject(v)
    && IsNullOrString(Member(v, "gatewayApi"))
    && IsNullOrString(Member(v, "tasksApi"))
    && IsNullOrString(Member(v, "authApi"))
  }

  function HostnamesToJson(h: Hostnames): (v: Json)
    ensures HostnamesIsValidJson(v)
  {
    Object(map["gatewayApi" := NullableString(h.gatewayApi),
               "tasksApi" := NullableString(h.tasksApi),
               "authApi" := NullableString(h.authApi)])
  }

  /** Reading an accepted value as `Hostnames`; `None` exactly when the guard fails,
      and the record read back agrees with the value on all three fields. */
  function HostnamesFromJson(v: Json): (r: Option<Hostnames>)
    ensures r.Some? <==> HostnamesIsValidJson(v)
    ensures r.Some? ==>
      && Member(v, "gatewayApi") == Some(NullableString(r.value.gatewayApi))
      && Member(v, "tasksApi") == Some(NullableString(r.value.tasksApi))
      && Member(v, "authApi") == Some(NullableString(r.value.authApi))
  {
    if HostnamesIsValidJson(v) then
      Some(Hostnames(ReadNullableString(Member(v, "gatewayApi")),
                     ReadNullableString(Member(v, "tasksApi")),
                     ReadNullableString(Member(v, "authApi"))))
    else None
  }

  lemma HostnamesRoundTrip(h: Hostnames)
    ensures HostnamesFromJson(HostnamesToJson(h)) == Some(h)
  {
    var v := HostnamesToJson(h);
    var r := HostnamesFromJson(v);
    assert Some(NullableString(r.value.gatewayApi)) == Some(NullableString(h.gatewayApi));
    assert Some(NullableString(r.value.tasksApi)) == Some(NullableString(h.tasksApi));
    assert Some(NullableString(r.value.authApi)) == Some(NullableString(h.authApi));
  }

  /** An absent field is not taken for `null`; non-objects and `null` are rejected;
      an object with all three fields `null` is accepted. */
  lemma HostnamesEdgeCases(v: Json, key: string)
    requires key in {"gatewayApi", "tasksApi", "authApi"}
    ensures !IsObject(v) ==> !HostnamesIsValidJson(v)
    ensures Member(v, key).None? ==> !HostnamesIsValidJson(v)
    ensures HostnamesIsValidJson(Object(map["gatewayApi" := Null, "tasksApi" := Null, "authApi" := Null]))
  {
  }

  // ---------------------------------------------------------------------------
  // ServerError: string name and message, `string | null` stack trace.
  // ---------------------------------------------------------------------------

  datatype ServerError = ServerError(name: string, message: string, stackTrace: Option<string>)

  predicate ServerErrorIsValidJson(v: Json)
  {
    IsObject(v)
    && IsString(Member(v, "name"))
    && IsString(Member(v, "message"))
    && IsNullOrString(Member(v, "stackTrace"))
  }

  function ServerErrorToJson(e: ServerError): (v: Json)
    ensures ServerErrorIsValidJson(v)
  {
    Object(map["name" := Str(e.name), "message" := Str(e.message),
               "stackTrace" := NullableString(e.stackTrace)])
  }

  function ServerErrorFromJson(v: Json): (r: Option<ServerError>)
    ensures r.Some? <==> ServerErrorIsValidJson(v)
    ensures r.Some? ==>
      && Member(v, "name") == Some(Str(r.value.name))
      && Member(v, "message") == Some(Str(r.value.message))
      && Member(v, "stackTrace") == Some(NullableString(r.value.stackTrace))
  {
    if ServerErrorIsValidJson(v) then
      Some(ServerError(Member(v, "name").value.s, Member(v, "message").value.s,
                       ReadNullableString(Member(v, "stackTrace"))))
    else None
  }

  lemma ServerErrorRoundTrip(e: ServerError)
    ensures ServerErrorFromJson(ServerErrorToJson(e)) == Some(e)
  {
    var r := ServerErrorFromJson(ServerErrorToJson(e));
    assert Some(NullableString(r.value.stackTrace)) == Some(NullableString(e.stackTrace));
  }

  /** The constructor's default for the stack trace does not carry over to the
      check: a value without `stackTrace` is rejected. */
  lemma ServerErrorNeedsStackTrace(name: string, message: string)
    ensures !ServerErrorIsValidJson(Object(map["name" := Str(name), "message" := Str(message)]))
  {
    assert "stackTrace" !in map["name" := Str(name), "message" := Str(message)];
  }

  // ---------------------------------------------------------------------------
  // HttpStatus: numeric code, string message.
  // ---------------------------------------------------------------------------

  datatype HttpStatus = HttpStatus(code: real, message: string)

  predicate HttpStatusIsValidJson(v: Json)
  {
    IsObject(v) && IsNumber(Member(v, "code")) && IsString(Member(v, "message"))
  }

  function HttpStatusToJson(s: HttpStatus): (v: Json)
    ensures HttpStatusIsValidJson(v)
  {
    Object(map["code" := Number(s.code), "message" := Str(s.message)])
  }

  function HttpStatusFromJson(v: Json): (r: Option<HttpStatus>)
    ensures r.Some? <==> HttpStatusIsValidJson(v)
    ensures r.Some? ==>
      && Member(v, "code") == Some(Number(r.value.code))
      && Member(v, "message") == Some(Str(r.value.message))
  {
    if HttpStatusIsValidJson(v) then
      Some(HttpStatus(Member(v, "code").value.n, Member(v, "message").value.s))
    else None
  }

  /** Any code at all is accepted: there is no range check. */
  lemma HttpStatusRoundTrip(s: HttpStatus)
    ensures HttpStatusFromJson(HttpStatusToJson(s)) == Some(s)
  {
  }

  /** Only `code` and `message` are looked at: adding or changing any other key of
      an object does not change the verdict. */
  lemma HttpStatusIgnoresOtherKeys(fields: map<string, Json>, key: string, extra: Json)
    requires key != "code" && key != "message"
    ensures HttpStatusIsValidJson(Object(fields[key := extra])) == HttpStatusIsValidJson(Object(fields))
  {
    assert Member(Object(fields[key := extra]), "code") == Member(Object(fields), "code");
    assert Member(Object(fields[key := extra]), "message") == Member(Object(fields), "message");
  }

  // ---------------------------------------------------------------------------
  // ApiResponse: the envelope, parameterised by the check for its `data`, which
  // is given the member as it is, absent or not. `clientErrorIsValid` stands for
  // the client-error check, which is not part of this model.
  // ---------------------------------------------------------------------------

  predicate ApiResponseIsValidJson(v: Json, clientErrorIsValid: Json -> bool, dataIsValid: Option<Json> -> bool)
  {
    && IsObject(v)
    && Member(v, "hostnames").Some? && HostnamesIsValidJson(Member(v, "hostnames").value)
    && Member(v, "httpStatus").Some? && HttpStatusIsValidJson(Member(v, "httpStatus").value)
    && (Member(v, "serverError") == Some(Null)
        || (Member(v, "serverError").Some? && ServerErrorIsValidJson(Member(v, "serverError").value)))
    && Member(v, "clientErrors").Some? && Member(v, "clientErrors").value.Array?
    && (forall e :: e in Member(v, "clientErrors").value.items ==> clientErrorIsValid(e))
    && dataIsValid(Member(v, "data"))
  }

  /** The envelope built from typed parts. */
  function ApiResponseToJson(hostnames: Hostnames, httpStatus: HttpStatus, serverError: Option<ServerError>,
                             clientErrors: seq<Json>, data: Json): Json
  {
    Object(map["hostnames" := HostnamesToJson(hostnames),
               "httpStatus" := HttpStatusToJson(httpStatus),
               "serverError" := if serverError.Some? then ServerErrorToJson(serverError.value) else Null,
               "clientErrors" := Array(clientErrors),
               "data" := data])
  }

  /** A well-typed envelope is accepted exactly when every client error and the
      data pass their checks; in particular an empty error list is accepted. */
  lemma ApiResponseOfParts(hostnames: Hostnames, httpStatus: HttpStatus, serverError: Option<ServerError>,
                           clientErrors: seq<Json>, data: Json,
                           clientErrorIsValid: Json -> bool, dataIsValid: Option<Json> -> bool)
    ensures ApiResponseIsValidJson(ApiResponseToJson(hostnames, httpStatus, serverError, clientErrors, data),
                                   clientErrorIsValid, dataIsValid)
      <==> (forall i :: 0 <= i < |clientErrors| ==> clientErrorIsValid(clientErrors[i])) && dataIsValid(Some(data))
  {
    var v := ApiResponseToJson(hostnames, httpStatus, serverError, clientErrors, data);
    assert Member(v, "clientErrors") == Some(Array(clientErrors));
    assert Member(v, "data") == Some(data);
    assert Member(v, "hostnames") == Some(HostnamesToJson(hostnames));
    assert Member(v, "httpStatus") == Some(HttpStatusToJson(httpStatus));
    if serverError.Some? {
      assert Member(v, "serverError") == Some(ServerErrorToJson(serverError.value));
    } else {
      assert Member(v, "serverError") == Some(Null);
    }
  }

  /** An envelope without a `serverError` key is rejected: absent is not `null`. */
  lemma ApiResponseNeedsServerError(v: Json, clientErrorIsValid: Json -> bool, dataIsValid: Option<Json> -> bool)
    requires Member(v, "serverError").None?
    ensures !ApiResponseIsValidJson(v, clientErrorIsValid, dataIsValid)
  {
  }
}
