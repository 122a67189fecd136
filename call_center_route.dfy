/** The call-center analysis route: the validation of the request body,
    the request parameters laid over the defaults, and the handler that
    passes them on to the call-center pipeline. */
module CallCenterRoute {
  import opened Wrappers
  import opened Json
  import opened Http

  const NoData := "No data provided"
  const NoAudio := "input_audio_url is required and cannot be empty"
  const EmptyLanguage := "language cannot be empty"
  const EmptyLocale := "locale cannot be empty"
  const StereoNotBool := "use_stereo must be a boolean"

  /** `validate_call_center_data`'s triple: whether the body is valid, and
      otherwise the message and the status code. */
  datatype Validation = Validation(isValid: bool, message: Option<string>, code: Option<int>)

  function Invalid(message: string): Validation
  {
    Validation(false, Some(message), Some(400))
  }

  /** `not data[key]` for a key that is present. */
  predicate PresentButEmpty(data: Document, key: string)
  {
    key in data && !Truthy(data[key])
  }

  /** The checks in order; the first that fails decides. A truthy body that
      is not a dict has no `get` and raises. */
  function ValidateCallCenterData(data: Json): (r: Result<Validation>)
    ensures !Truthy(data) ==> r == Ok(Invalid(NoData))
    ensures r.Err? <==> Truthy(data) && !data.JObj?
  {
    if !Truthy(data) then Ok(Invalid(NoData))
    else if !data.JObj? then Err("AttributeError")
    else
      var d := data.fields;
      if !Truthy(Get(d, "input_audio_url", JNull)) then Ok(Invalid(NoAudio))
      else if PresentButEmpty(d, "language") then Ok(Invalid(EmptyLanguage))
      else if PresentButEmpty(d, "locale") then Ok(Invalid(EmptyLocale))
      else if "use_stereo" in d && !d["use_stereo"].JBool? then Ok(Invalid(StereoNotBool))
      else Ok(Validation(true, None, None))
  }

  /** Every check a valid body passes. */
  predicate Acceptable(d: Document)
  {
    Truthy(Get(d, "input_audio_url", JNull)) &&
    !PresentButEmpty(d, "language") && !PresentButEmpty(d, "locale") &&
    ("use_stereo" in d ==> d["use_stereo"].JBool?)
  }

  /** A body is valid exactly when it is a non-empty dict that passes every
      check; a valid body has neither message nor code, and an invalid one
      has both, with code 400. */
  lemma ValidationIff(data: Json)
    requires ValidateCallCenterData(data).Ok?
    ensures var v := ValidateCallCenterData(data).value;
      (v.isValid <==> data.JObj? && |data.fields| > 0 && Acceptable(data.fields)) &&
      (v.isValid <==> v.message.None?) && (v.isValid <==> v.code.None?) &&
      (!v.isValid ==> v.code == Some(400))
  {
  }

  /** The first failing check wins: a missing audio link is reported even
      when the language, the locale and the stereo flag are wrong too, and
      so on down the list. */
  lemma FirstFailureWins(d: Document)
    requires |d| > 0
    ensures !Truthy(Get(d, "input_audio_url", JNull)) ==>
      ValidateCallCenterData(JObj(d)) == Ok(Invalid(NoAudio))
    ensures Truthy(Get(d, "input_audio_url", JNull)) && PresentButEmpty(d, "language") ==>
      ValidateCallCenterData(JObj(d)) == Ok(Invalid(EmptyLanguage))
    ensures (Truthy(Get(d, "input_audio_url", JNull)) && !PresentButEmpty(d, "language") &&
             PresentButEmpty(d, "locale")) ==> ValidateCallCenterData(JObj(d)) == Ok(Invalid(EmptyLocale))
  {
  }

  /** The defaults of the analysis parameters. */
  const Defaults: Document := map["language" := JStr("en"), "locale" := JStr("en-US"),
                                  "use_stereo_audio" := JBool(false)]

  /** `{**defaults, **data}`: the request's keys over the defaults. */
  function Params(data: Document): (r: Document)
    ensures r.Keys == Defaults.Keys + data.Keys
  {
    Defaults + data
  }

  /** The request overrides the defaults key by key and every default it
      does not name survives. */
  lemma ParamsOverride(data: Document, k: string)
    ensures k in data ==> Params(data)[k] == data[k]
    ensures k !in data && k in Defaults ==> Params(data)[k] == Defaults[k]
  {
  }

  /** The validated flag is `use_stereo`, the default is
      `use_stereo_audio`: whatever `use_stereo` holds, the stereo
      parameter stays off unless the request names `use_stereo_audio`. */
  lemma StereoFlagIgnored(data: Document, flag: Json)
    requires "use_stereo_audio" !in data
    ensures Params(data["use_stereo" := flag])["use_stereo_audio"] == JBool(false)
  {
  }

  /** `analyze_call` as written: `run(params)` calls a `run` that takes no
      argument, so every request that passes the validation fails with a
      TypeError and answers 500. */
  function AnalyzeCallAsWritten(data: Json): (r: Reply)
    ensures r.Reply?
  {
    match ValidateCallCenterData(data)
    case Err(e) => Reply(500, ErrorBody(e))
    case Ok(v) =>
      if !v.isValid then Reply(v.code.GetOr(400), ErrorBody(v.message.GetOr("")))
      else Reply(500, ErrorBody("TypeError"))
  }

  /** Every valid request gets the 500 answer. */
  lemma AnalyzeCallAlwaysFails(d: Document)
    requires |d| > 0 && Acceptable(d)
    ensures AnalyzeCallAsWritten(JObj(d)) == Reply(500, ErrorBody("TypeError"))
  {
  }

  /** `analyze_call` with the parameters handed to the pipeline, as the
      route's comments describe: `analyse` stands for the pipeline and
      what it returns is the answer; an exception is a 500. */
  function AnalyzeCall(data: Json, analyse: Document -> Reply): (r: Reply)
    ensures r.Reply?
  {
    match ValidateCallCenterData(data)
    case Err(e) => Reply(500, ErrorBody(e))
    case Ok(v) =>
      if !v.isValid then Reply(v.code.GetOr(400), ErrorBody(v.message.GetOr("")))
      else
        match analyse(Params(data.fields))
        case Raised(e) => Reply(500, ErrorBody(e))
        case Reply(code, body) => Reply(code, body)
  }

  /** An invalid body is answered as before; a valid one reaches the
      pipeline with the request's parameters over the defaults, and the
      pipeline's answer is the route's answer. */
  lemma AnalyzeCallPasses(data: Json, analyse: Document -> Reply)
    ensures ValidateCallCenterData(data) == Ok(Invalid(NoData)) ==>
      AnalyzeCall(data, analyse) == Reply(400, ErrorBody(NoData))
    ensures data.JObj? && |data.fields| > 0 && Acceptable(data.fields) && analyse(Params(data.fields)).Reply? ==>
      AnalyzeCall(data, analyse) == analyse(Params(data.fields))
    ensures (ValidateCallCenterData(data).Err? || !ValidateCallCenterData(data).value.isValid) ==>
      AnalyzeCall(data, analyse) == AnalyzeCallAsWritten(data)
  {
  }
}
