/**
 * The KeyID client: the decisions it takes on the service's replies. The pure part
 * (flag coercion, thresholds, response parsing, and one specification function per
 * operation giving its result and the requests it sends) comes first; the class
 * KeyIDClient then performs each operation against a KeyIDService, updating the
 * parsed JSON objects in place, and is proved to do what the specification says.
 */
module Client {
  import opened Wrappers
  import opened Faults
  import opened Strings
  import opened Json
  import opened Settings
  import opened Service

  const StatusOK := 200

  // The error messages the client compares against, and the one it produces.
  const EnrollmentCodeRequired := "New enrollment code required."
  const EntityMissing := "EntityID does not exist."
  const TooLittleData := "The profile has too little data for a valid evaluation."
  const TooDivergent := "The entry varied so much from the model, no evaluation is possible."
  const SaveErrorMessage := "Error saving profile."

  /** What one client operation does: its result, and the requests it sent in order. */
  datatype Run<T> = Run(result: Result<T, Fault>, calls: seq<Call>)

  /** A string flag read as a boolean: "true" in any letter case, and nothing else. */
  function AlphaToBool(input: string): (r: bool)
    ensures r <==> |input| == 4 && input[0] in "tT" && input[1] in "rR" && input[2] in "uU" && input[3] in "eE"
  {
    Upper(input) == "TRUE"
  }

  /** `AlphaToBool(token.ToString())`. */
  function Flag(v: JValue): bool
  {
    match Text(v)
    case Some(t) => AlphaToBool(t)
    case None => false
  }

  /** Whether an evaluation's confidence and fidelity both reach the configured thresholds. */
  function EvalThreshold(settings: KeyIDSettings, confidence: real, fidelity: real): bool
  {
    confidence >= settings.thresholdConfidence && fidelity >= settings.thresholdFidelity
  }

  /** The object has an Error property whose text is `message`. */
  predicate ErrorIs(data: Props, message: string)
  {
    "Error" in data && Text(data["Error"]) == Some(message)
  }

  /** The JSON object of a 200 OK reply; any other status is an error. */
  function ParseResponse(reply: Reply): (r: Result<Props, Fault>)
    ensures r.Success? <==>
      reply.Responded? && reply.response.status == StatusOK &&
      reply.response.json.Some? && reply.response.json.value.JObj?
    ensures r.Success? ==> reply.response.json == Some(JObj(r.value))
    ensures reply.Failed? ==> r == Failure(TransportFailure)
    ensures reply.Responded? && reply.response.status != StatusOK ==> r == Failure(NotOk(reply.response.status))
  {
    match reply
    case Failed => Failure(TransportFailure)
    case Responded(response) =>
      if response.status != StatusOK then Failure(NotOk(response.status))
      else match response.json
        case None => Failure(MalformedJson)
        case Some(JObj(props)) => Success(props)
        case Some(_) => Failure(NotAnObject)
  }

  /** The profile object of a 200 OK reply, unwrapped from an array when the service sends one. */
  function ParseGetProfileResponse(reply: Reply): (r: Result<Props, Fault>)
    ensures reply.Failed? ==> r == Failure(TransportFailure)
    ensures reply.Responded? && reply.response.status != StatusOK ==> r == Failure(NotOk(reply.response.status))
    ensures r.Success? ==> reply.Responded? && reply.response.status == StatusOK && reply.response.json.Some?
    ensures r.Success? && reply.response.json.value.JArr? ==>
      |reply.response.json.value.items| > 0 && reply.response.json.value.items[0] == JObj(r.value)
    ensures r.Success? && !reply.response.json.value.JArr? ==> reply.response.json.value == JObj(r.value)
    ensures reply.Responded? && reply.response.status == StatusOK && reply.response.json.Some? ==>
      var json := reply.response.json.value;
      (json.JObj? || (json.JArr? && |json.items| > 0 && json.items[0].JObj?)) ==> r.Success?
  {
    match reply
    case Failed => Failure(TransportFailure)
    case Responded(response) =>
      if response.status != StatusOK then Failure(NotOk(response.status))
      else match response.json
        case None => Failure(MalformedJson)
        case Some(JArr(items)) =>
          if |items| == 0 then Failure(EmptyArray)
          else if items[0].JObj? then Success(items[0].props)
          else Failure(NotAnObject)
        case Some(JObj(props)) => Success(props)
        case Some(_) => Failure(NotAnObject)
  }

  /**
   * How an evaluation response is adjusted before the caller sees it: an error response
   * is left alone; otherwise Match and IsReady become booleans and, with custom
   * thresholds, Match is decided by the thresholds instead of by the service.
   */
  function Adjusted(settings: KeyIDSettings, data: Props): (r: Result<Props, Fault>)
    ensures "Error" !in data ==> r == Failure(MissingKey("Error"))
    ensures "Error" in data && Text(data["Error"]) != Some("") ==> r == Success(data)
    ensures ErrorIs(data, "") ==>
      (r.Success? <==>
        "Match" in data && "IsReady" in data &&
        (settings.customThreshold ==>
          ValueDouble(data, "Confidence").Success? && ValueDouble(data, "Fidelity").Success?))
    ensures ErrorIs(data, "") && r.Success? ==>
      && r.value.Keys == data.Keys
      && r.value["IsReady"] == JBool(Flag(data["IsReady"]))
      && r.value["Match"] == JBool(
           if settings.customThreshold
           then EvalThreshold(settings, ValueDouble(data, "Confidence").value, ValueDouble(data, "Fidelity").value)
           else Flag(data["Match"]))
      && forall k :: k in data && k != "Match" && k != "IsReady" ==> r.value[k] == data[k]
  {
    if "Error" !in data then Failure(MissingKey("Error"))
    else if Text(data["Error"]) != Some("") then Success(data)
    else if "Match" !in data then Failure(MissingKey("Match"))
    else if "IsReady" !in data then Failure(MissingKey("IsReady"))
    else Thresholded(settings, Coerced(data))
  }

  /** Match and IsReady replaced by the booleans their text reads as. */
  function Coerced(data: Props): Props
    requires "Match" in data && "IsReady" in data
  {
    data["Match" := JBool(Flag(data["Match"]))]["IsReady" := JBool(Flag(data["IsReady"]))]
  }

  /** With custom thresholds, Match replaced by the threshold decision on Confidence and Fidelity. */
  function Thresholded(settings: KeyIDSettings, data: Props): Result<Props, Fault>
  {
    if !settings.customThreshold then Success(data)
    else match (ValueDouble(data, "Confidence"), ValueDouble(data, "Fidelity"))
      case (Failure(f), _) => Failure(f)
      case (_, Failure(f)) => Failure(f)
      case (Success(confidence), Success(fidelity)) =>
        Success(data["Match" := JBool(EvalThreshold(settings, confidence, fidelity))])
  }

  /** The fixed result returned when saving a profile reported an error. */
  function SaveErrorEnvelope(): (r: Props)
    ensures r.Keys == {"Error", "Match", "IsReady", "Confidence", "Fidelity", "Profiles"}
    ensures ErrorIs(r, SaveErrorMessage)
    ensures ValueBool(r, "Match") == Success(false) && ValueBool(r, "IsReady") == Success(false)
    ensures ValueDouble(r, "Confidence") == Success(0.0) && ValueDouble(r, "Fidelity") == Success(0.0)
    ensures ValueDouble(r, "Profiles") == Success(0.0)
  {
    map["Error" := JStr(SaveErrorMessage), "Match" := JBool(false), "IsReady" := JBool(false),
        "Confidence" := JInt(0), "Fidelity" := JInt(0), "Profiles" := JInt(0)]
  }

  /** The first save's response was parsed and asks for an enrollment code. */
  predicate CodeRequired(first: Result<Props, Fault>)
  {
    first.Success? && ErrorIs(first.value, EnrollmentCodeRequired)
  }

  /** The token response was parsed and carries a Token property. */
  predicate TokenIssued(token: Result<Props, Fault>)
  {
    token.Success? && "Token" in token.value
  }

  /**
   * SaveProfile: save without a code; when the service asks for an enrollment code,
   * ask for a save token and save again with it, and answer with an empty object
   * whatever those two requests returned.
   */
  function SaveProfileRun(respond: Responder, history: seq<Call>, entityID: string, tsData: string): (run: Run<Props>)
    ensures 1 <= |run.calls| <= 3 && run.calls[0] == Call.SaveProfile(entityID, tsData, NoCode)
    ensures var first := ParseResponse(respond(history + [Call.SaveProfile(entityID, tsData, NoCode)]));
      && (|run.calls| > 1 <==> CodeRequired(first))
      && (CodeRequired(first) ==> run.result == Success(map[]) && run.calls[1] == Call.SaveToken(entityID, tsData))
      && (!CodeRequired(first) ==>
           run.result == if first.Success? && "Error" !in first.value then Failure(MissingKey("Error")) else first)
    ensures |run.calls| > 1 ==>
      var token := ParseResponse(respond(history + run.calls[..2]));
      (|run.calls| == 3 <==> TokenIssued(token)) &&
      (|run.calls| == 3 ==> run.calls[2] == Call.SaveProfile(entityID, tsData, CodeOf(token.value["Token"])))
  {
    var save := Call.SaveProfile(entityID, tsData, NoCode);
    var first := ParseResponse(respond(history + [save]));
    if first.Failure? then Run(Failure(first.error), [save])
    else if "Error" !in first.value then Run(Failure(MissingKey("Error")), [save])
    else if Text(first.value["Error"]) != Some(EnrollmentCodeRequired) then Run(first, [save])
    else
      var ask := Call.SaveToken(entityID, tsData);
      var token := ParseResponse(respond(history + [save, ask]));
      var retry := Call.SaveProfile(entityID, tsData, CodeOf(if TokenIssued(token) then token.value["Token"] else JNull));
      assert [save, ask, retry][..2] == [save, ask][..2] == [save, ask];
      if TokenIssued(token) then Run(Success(map[]), [save, ask, retry])
      else Run(Success(map[]), [save, ask])
  }

  /**
   * RemoveProfile: ask for a removal token; when the reply carries a Token property,
   * remove the profile with it and answer with that reply, otherwise answer with the
   * token reply itself.
   */
  function RemoveProfileRun(respond: Responder, history: seq<Call>, entityID: string, tsData: string): (run: Run<Props>)
    ensures 1 <= |run.calls| <= 2 && run.calls[0] == Call.RemoveToken(entityID, tsData)
    ensures var token := ParseResponse(respond(history + [Call.RemoveToken(entityID, tsData)]));
      && (|run.calls| == 2 <==> TokenIssued(token))
      && (TokenIssued(token) ==>
           run.calls[1] == Call.RemoveProfile(entityID, token.value["Token"]) &&
           run.result == ParseResponse(respond(history + run.calls)))
      && (!TokenIssued(token) ==> run.result == token)
  {
    var ask := Call.RemoveToken(entityID, tsData);
    var token := ParseResponse(respond(history + [ask]));
    if TokenIssued(token) then
      var remove := Call.RemoveProfile(entityID, token.value["Token"]);
      Run(ParseResponse(respond(history + [ask, remove])), [ask, remove])
    else
      Run(token, [ask])
  }

  /**
   * EvaluateProfile: fetch a nonce, evaluate the sample with the nonce response's body
   * (read whatever its status), and adjust the parsed evaluation.
   */
  function EvaluateProfileRun(settings: KeyIDSettings, respond: Responder, history: seq<Call>,
                              entityID: string, tsData: string, nonceTime: int): (run: Run<Props>)
    ensures 1 <= |run.calls| <= 2 && run.calls[0] == Call.Nonce(nonceTime)
    ensures var nonce := respond(history + [Call.Nonce(nonceTime)]);
      && (nonce.Failed? ==> run.result == Failure(TransportFailure) && |run.calls| == 1)
      && (nonce.Responded? ==>
           && run.calls == [Call.Nonce(nonceTime), Call.EvaluateSample(entityID, tsData, nonce.response.body)]
           && match ParseResponse(respond(history + run.calls))
              case Failure(f) => run.result == Failure(f)
              case Success(data) => run.result == Adjusted(settings, data))
  {
    var fetch := Call.Nonce(nonceTime);
    var nonce := respond(history + [fetch]);
    if nonce.Failed? then Run(Failure(TransportFailure), [fetch])
    else
      var evaluate := Call.EvaluateSample(entityID, tsData, nonce.response.body);
      match ParseResponse(respond(history + [fetch, evaluate]))
      case Failure(f) => Run(Failure(f), [fetch, evaluate])
      case Success(data) => Run(Adjusted(settings, data), [fetch, evaluate])
  }

  /** What a save's result says: saved (Error is ""), or not saved (any other Error). */
  function SaveOutcome(saved: Result<Props, Fault>): Result<bool, Fault>
  {
    match saved
    case Failure(f) => Failure(f)
    case Success(data) => if "Error" in data then Success(Text(data["Error"]) == Some("")) else Failure(MissingKey("Error"))
  }

  /** Why EvaluateEnrollProfile saves the sample; this decides how it rewrites the evaluation. */
  datatype Enrollment =
    | NewProfile    // the profile did not exist
    | NotReady      // the profile is not ready yet
    | Unevaluated   // the service had too little data, or the sample varied too much, to evaluate

  /** The evaluation rewritten once the sample has been saved. */
  function Enrolled(kind: Enrollment, data: Props): Props
  {
    match kind
    case NewProfile =>
      data["Error" := JStr("")]["Match" := JBool(true)]["IsReady" := JBool(false)]
          ["Confidence" := JFloat(100.0)]["Fidelity" := JFloat(100.0)]["Profiles" := JInt(0)]
    case NotReady =>
      data["Error" := JStr("")]["Match" := JBool(true)]
    case Unevaluated =>
      data["Error" := JStr("")]["Match" := JBool(true)]["Confidence" := JFloat(100.0)]["Fidelity" := JFloat(100.0)]
  }

  /** Save the sample, then answer with the rewritten evaluation, or with the save-error envelope when the save reported an error. */
  function EnrollRun(respond: Responder, history: seq<Call>, entityID: string, tsData: string,
                     kind: Enrollment, data: Props): Run<Props>
  {
    var save := SaveProfileRun(respond, history, entityID, tsData);
    match SaveOutcome(save.result)
    case Failure(f) => Run(Failure(f), save.calls)
    case Success(saved) => Run(Success(if saved then Enrolled(kind, data) else SaveErrorEnvelope()), save.calls)
  }

  /** The evaluation asks for the sample to be saved: not ready, with no error or one of the two insufficient-data errors. */
  predicate NeedsMoreData(data: Props)
  {
    ErrorIs(data, "") || ErrorIs(data, TooLittleData) || ErrorIs(data, TooDivergent)
  }

  /** What EvaluateEnrollProfile does once the evaluation `data` has come back. */
  function EnrollFallbackRun(respond: Responder, history: seq<Call>, entityID: string, tsData: string, data: Props): Run<Props>
  {
    if "Error" !in data then Run(Failure(MissingKey("Error")), [])
    else if Text(data["Error"]) == Some(EntityMissing) then
      EnrollRun(respond, history, entityID, tsData, NewProfile, data)
    else match ValueBool(data, "IsReady")
      case Failure(f) => Run(Failure(f), [])
      case Success(ready) =>
        if ready then Run(Success(data), [])
        else if Text(data["Error"]) == Some("") then
          EnrollRun(respond, history, entityID, tsData, NotReady, data)
        else if Text(data["Error"]) == Some(TooLittleData) || Text(data["Error"]) == Some(TooDivergent) then
          EnrollRun(respond, history, entityID, tsData, Unevaluated, data)
        else Run(Success(data), [])
  }

  /** EvaluateEnrollProfile: evaluate, then enroll the sample where the evaluation calls for it. */
  function EvaluateEnrollProfileRun(settings: KeyIDSettings, respond: Responder, history: seq<Call>,
                                    entityID: string, tsData: string, nonceTime: int): Run<Props>
  {
    var evaluation := EvaluateProfileRun(settings, respond, history, entityID, tsData, nonceTime);
    match evaluation.result
    case Failure(_) => evaluation
    case Success(data) =>
      var fallback := EnrollFallbackRun(respond, history + evaluation.calls, entityID, tsData, data);
      Run(fallback.result, evaluation.calls + fallback.calls)
  }

  /** Login: evaluate and enroll when login enrollment is configured, otherwise only evaluate. */
  function LoginRun(settings: KeyIDSettings, respond: Responder, history: seq<Call>,
                    entityID: string, tsData: string, nonceTime: int): Run<Props>
  {
    if settings.loginEnrollment then EvaluateEnrollProfileRun(settings, respond, history, entityID, tsData, nonceTime)
    else EvaluateProfileRun(settings, respond, history, entityID, tsData, nonceTime)
  }

  class KeyIDClient {
    const settings: KeyIDSettings
    const service: KeyIDService

    constructor (settings: KeyIDSettings, service: KeyIDService)
      ensures this.settings == settings && this.service == service
    {
      this.settings := settings;
      this.service := service;
    }

    /** Saves a typing sample to a profile. */
    method SaveProfile(entityID: string, tsData: string) returns (r: Result<JObject, Fault>)
      modifies service
      ensures var run := SaveProfileRun(service.respond, old(service.history), entityID, tsData);
        service.history == old(service.history) + run.calls && Snapshot(r) == run.result
      ensures r.Success? ==> fresh(r.value)
    {
      var reply := service.Send(Call.SaveProfile(entityID, tsData, NoCode));
      var parsed := ParseResponse(reply);
      if parsed.Failure? {
        return Failure(parsed.error);
      }
      var data := new JObject(parsed.value);
      if "Error" !in data.props {
        return Failure(MissingKey("Error"));
      }
      if Text(data.props["Error"]) == Some(EnrollmentCodeRequired) {
        var tokenReply := service.Send(Call.SaveToken(entityID, tsData));
        var tokenData := ParseResponse(tokenReply);
        ghost var asked := service.history;
        assert asked == old(service.history) + [Call.SaveProfile(entityID, tsData, NoCode), Call.SaveToken(entityID, tsData)];
        if TokenIssued(tokenData) {
          // the retried save is sent, but its reply is never read
          var retryReply := service.Send(Call.SaveProfile(entityID, tsData, CodeOf(tokenData.value["Token"])));
          assert service.history == asked + [Call.SaveProfile(entityID, tsData, CodeOf(tokenData.value["Token"]))];
        }
        var empty := new JObject(map[]);
        return Success(empty);
      }
      return Success(data);
    }

    /** Removes a profile, when the service issues a removal token. */
    method RemoveProfile(entityID: string, tsData: string) returns (r: Result<JObject, Fault>)
      modifies service
      ensures var run := RemoveProfileRun(service.respond, old(service.history), entityID, tsData);
        service.history == old(service.history) + run.calls && Snapshot(r) == run.result
      ensures r.Success? ==> fresh(r.value)
    {
      var reply := service.Send(Call.RemoveToken(entityID, tsData));
      var parsed := ParseResponse(reply);
      if parsed.Failure? {
        return Failure(parsed.error);
      }
      var data := new JObject(parsed.value);
      if "Token" in data.props {
        var removeReply := service.Send(Call.RemoveProfile(entityID, data.props["Token"]));
        var removed := ParseResponse(removeReply);
        if removed.Failure? {
          return Failure(removed.error);
        }
        var removeData := new JObject(removed.value);
        return Success(removeData);
      }
      return Success(data);
    }

    /** Evaluates a typing sample against a profile; `nonceTime` is the current time in ticks. */
    method EvaluateProfile(entityID: string, tsData: string, nonceTime: int) returns (r: Result<JObject, Fault>)
      modifies service
      ensures var run := EvaluateProfileRun(settings, service.respond, old(service.history), entityID, tsData, nonceTime);
        service.history == old(service.history) + run.calls && Snapshot(r) == run.result
      ensures r.Success? ==> fresh(r.value)
    {
      var nonce := service.Send(Call.Nonce(nonceTime));
      if nonce.Failed? {
        return Failure(TransportFailure);
      }
      var reply := service.Send(Call.EvaluateSample(entityID, tsData, nonce.response.body));
      var parsed := ParseResponse(reply);
      if parsed.Failure? {
        return Failure(parsed.error);
      }
      var data := new JObject(parsed.value);
      if "Error" !in data.props {
        return Failure(MissingKey("Error"));
      }
      if Text(data.props["Error"]) == Some("") {
        if "Match" !in data.props {
          return Failure(MissingKey("Match"));
        }
        data.Set("Match", JBool(Flag(data.props["Match"])));
        if "IsReady" !in data.props {
          return Failure(MissingKey("IsReady"));
        }
        data.Set("IsReady", JBool(Flag(data.props["IsReady"])));
        if settings.customThreshold {
          var confidence := ValueDouble(data.props, "Confidence");
          if confidence.Failure? {
            return Failure(confidence.error);
          }
          var fidelity := ValueDouble(data.props, "Fidelity");
          if fidelity.Failure? {
            return Failure(fidelity.error);
          }
          data.Set("Match", JBool(EvalThreshold(settings, confidence.value, fidelity.value)));
        }
      }
      return Success(data);
    }

    /** Evaluates a typing sample and adds it to the profile where the evaluation calls for it. */
    method EvaluateEnrollProfile(entityID: string, tsData: string, nonceTime: int) returns (r: Result<JObject, Fault>)
      modifies service
      ensures var run := EvaluateEnrollProfileRun(settings, service.respond, old(service.history), entityID, tsData, nonceTime);
        service.history == old(service.history) + run.calls && Snapshot(r) == run.result
      ensures r.Success? ==> fresh(r.value)
    {
      var evaluated := EvaluateProfile(entityID, tsData, nonceTime);
      if evaluated.Failure? {
        return evaluated;
      }
      r := EnrollFallback(entityID, tsData, evaluated.value);
    }

    /** The second half of EvaluateEnrollProfile: save the sample where the evaluation `data` calls for it. */
    method EnrollFallback(entityID: string, tsData: string, data: JObject) returns (r: Result<JObject, Fault>)
      modifies service, data
      ensures var run := EnrollFallbackRun(service.respond, old(service.history), entityID, tsData, old(data.props));
        service.history == old(service.history) + run.calls && Snapshot(r) == run.result
      ensures r.Success? ==> r.value == data || fresh(r.value)
      ensures r.Failure? || r.value != data ==> data.props == old(data.props)
    {
      if "Error" !in data.props {
        return Failure(MissingKey("Error"));
      }
      if Text(data.props["Error"]) == Some(EntityMissing) {
        r := Enroll(entityID, tsData, NewProfile, data);
        return;
      }
      var ready := ValueBool(data.props, "IsReady");
      if ready.Failure? {
        return Failure(ready.error);
      }
      if !ready.value {
        var error := Text(data.props["Error"]);
        if error == Some("") {
          r := Enroll(entityID, tsData, NotReady, data);
          return;
        } else if error == Some(TooLittleData) || error == Some(TooDivergent) {
          r := Enroll(entityID, tsData, Unevaluated, data);
          return;
        }
      }
      return Success(data);
    }

    /** Saves the sample, then rewrites the evaluation `data` in place, or answers with the save-error object. */
    method Enroll(entityID: string, tsData: string, kind: Enrollment, data: JObject) returns (r: Result<JObject, Fault>)
      modifies service, data
      ensures var run := EnrollRun(service.respond, old(service.history), entityID, tsData, kind, old(data.props));
        service.history == old(service.history) + run.calls && Snapshot(r) == run.result
      ensures r.Success? ==> r.value == data || fresh(r.value)
      ensures r.Failure? || r.value != data ==> data.props == old(data.props)
    {
      var response := SaveProfile(entityID, tsData);
      var saved := SaveOutcome(Snapshot(response));
      if saved.Failure? {
        return Failure(saved.error);
      }
      if !saved.value {
        var envelope := SaveErrorResult();
        return Success(envelope);
      }
      match kind {
        case NewProfile =>
          data.Set("Error", JStr(""));
          data.Set("Match", JBool(true));
          data.Set("IsReady", JBool(false));
          data.Set("Confidence", JFloat(100.0));
          data.Set("Fidelity", JFloat(100.0));
          data.Set("Profiles", JInt(0));
        case NotReady =>
          data.Set("Error", JStr(""));
          data.Set("Match", JBool(true));
        case Unevaluated =>
          data.Set("Error", JStr(""));
          data.Set("Match", JBool(true));
          data.Set("Confidence", JFloat(100.0));
          data.Set("Fidelity", JFloat(100.0));
      }
      return Success(data);
    }

    /** The object returned when saving a profile reported an error. */
    method SaveErrorResult() returns (result: JObject)
      ensures fresh(result) && result.props == SaveErrorEnvelope()
    {
      result := new JObject(map[]);
      result.Set("Error", JStr(SaveErrorMessage));
      result.Set("Match", JBool(false));
      result.Set("IsReady", JBool(false));
      result.Set("Confidence", JInt(0));
      result.Set("Fidelity", JInt(0));
      result.Set("Profiles", JInt(0));
    }

    /** Evaluation or evaluation with enrollment, as the settings choose. */
    method Login(entityID: string, tsData: string, nonceTime: int) returns (r: Result<JObject, Fault>)
      modifies service
      ensures var run := LoginRun(settings, service.respond, old(service.history), entityID, tsData, nonceTime);
        service.history == old(service.history) + run.calls && Snapshot(r) == run.result
      ensures r.Success? ==> fresh(r.value)
    {
      if settings.loginEnrollment {
        r := EvaluateEnrollProfile(entityID, tsData, nonceTime);
      } else {
        r := EvaluateProfile(entityID, tsData, nonceTime);
      }
    }

    /** Reads a profile's information without changing it. */
    method GetProfileInfo(entityID: string) returns (r: Result<JObject, Fault>)
      modifies service
      ensures service.history == old(service.history) + [Call.GetProfileInfo(entityID)]
      ensures Snapshot(r) == ParseGetProfileResponse(service.respond(service.history))
      ensures r.Success? ==> fresh(r.value)
    {
      var reply := service.Send(Call.GetProfileInfo(entityID));
      var parsed := ParseGetProfileResponse(reply);
      if parsed.Failure? {
        return Failure(parsed.error);
      }
      var data := new JObject(parsed.value);
      return Success(data);
    }
  }
}
