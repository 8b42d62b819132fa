/** Properties of the client's decisions, stated over the specification functions. */
module ClientProperties {
  import opened Wrappers
  import opened Faults
  import opened Json
  import opened Settings
  import opened Service
  import opened Client

  /** Only the four-letter word "true" counts as a true flag, whatever its letter case; nothing is trimmed. */
  lemma AlphaToBoolExamples()
    ensures AlphaToBool("true") && AlphaToBool("True") && AlphaToBool("TRUE") && AlphaToBool("tRuE")
    ensures !AlphaToBool("") && !AlphaToBool("yes") && !AlphaToBool("1")
    ensures !AlphaToBool("false") && !AlphaToBool("True ") && !AlphaToBool(" true")
  {
  }

  /** The boolean the coercion stores reads back as itself: Flag(JBool(b)) == b. */
  lemma FlagOfBoolean(b: bool)
    ensures Flag(JBool(b)) == b
  {
  }

  /** Raising the confidence or the fidelity never turns a passed threshold into a failed one. */
  lemma EvalThresholdMonotone(settings: KeyIDSettings, confidence: real, fidelity: real, confidence': real, fidelity': real)
    requires confidence <= confidence' && fidelity <= fidelity'
    ensures EvalThreshold(settings, confidence, fidelity) ==> EvalThreshold(settings, confidence', fidelity')
  {
  }

  /**
   * With the default thresholds (70 and 50) and custom thresholds on, a confidence of 80
   * and a fidelity of 60 match, and a confidence of 60 does not, whatever Match the
   * service sent.
   */
  lemma DefaultThresholdsDecideMatch(data: Props)
    requires ErrorIs(data, "") && "Match" in data && "IsReady" in data
    requires "Fidelity" in data && data["Fidelity"] == JFloat(60.0)
    requires "Confidence" in data && (data["Confidence"] == JFloat(80.0) || data["Confidence"] == JFloat(60.0))
    ensures var r := Adjusted(Defaults.(customThreshold := true), data);
      r.Success? && r.value["Match"] == JBool(data["Confidence"] == JFloat(80.0))
  {
  }

  /** Coercing flags that are already booleans changes nothing. */
  lemma CoercedKeepsBooleans(data: Props)
    requires "Match" in data && data["Match"].JBool? && "IsReady" in data && data["IsReady"].JBool?
    ensures Coerced(data) == data
  {
    FlagOfBoolean(data["Match"].b);
    FlagOfBoolean(data["IsReady"].b);
  }

  /** Deciding Match by the thresholds a second time changes nothing: Confidence and Fidelity are untouched. */
  lemma ThresholdedTwice(settings: KeyIDSettings, data: Props)
    requires Thresholded(settings, data).Success?
    ensures Thresholded(settings, Thresholded(settings, data).value) == Thresholded(settings, data)
  {
    if settings.customThreshold {
      var decided := Thresholded(settings, data).value;
      assert ValueDouble(decided, "Confidence") == ValueDouble(data, "Confidence");
      assert ValueDouble(decided, "Fidelity") == ValueDouble(data, "Fidelity");
      assert decided["Match" := decided["Match"]] == decided;
    }
  }

  /** Adjusting an adjusted evaluation changes nothing more. */
  lemma AdjustedIdempotent(settings: KeyIDSettings, data: Props)
    requires Adjusted(settings, data).Success?
    ensures Adjusted(settings, Adjusted(settings, data).value) == Adjusted(settings, data)
  {
    if ErrorIs(data, "") {
      var coerced := Coerced(data);
      var adjusted := Thresholded(settings, coerced).value;
      assert Adjusted(settings, data) == Success(adjusted);
      CoercedKeepsBooleans(adjusted);
      ThresholdedTwice(settings, coerced);
      assert Adjusted(settings, adjusted) == Thresholded(settings, adjusted);
    }
  }

  /** A token reply whose Token property is JSON null still leads to a removal, with that null token. */
  lemma RemoveProfileWithNullToken(respond: Responder, history: seq<Call>, entityID: string, tsData: string, token: Props)
    requires ParseResponse(respond(history + [Call.RemoveToken(entityID, tsData)])) == Success(token)
    requires "Token" in token && token["Token"] == JNull
    ensures RemoveProfileRun(respond, history, entityID, tsData).calls
            == [Call.RemoveToken(entityID, tsData), Call.RemoveProfile(entityID, JNull)]
  {
  }

  /**
   * An evaluation saying the profile does not exist leads to a save; when the save
   * succeeds the evaluation comes back as a fresh, matching, not-ready profile, otherwise
   * as the save-error envelope.
   */
  lemma EnrollsMissingEntity(respond: Responder, history: seq<Call>, entityID: string, tsData: string, data: Props)
    requires ErrorIs(data, EntityMissing)
    ensures var run := EnrollFallbackRun(respond, history, entityID, tsData, data);
      var save := SaveProfileRun(respond, history, entityID, tsData);
      && run.calls == save.calls
      && (SaveOutcome(save.result) == Success(true) ==>
            run.result.Success? && NewProfileShape(data, run.result.value))
      && (SaveOutcome(save.result) == Success(false) ==> run.result == Success(SaveErrorEnvelope()))
      && (SaveOutcome(save.result).Failure? ==> run.result == Failure(SaveOutcome(save.result).error))
  {
  }

  /** The result of enrolling a profile that did not exist, read property by property. */
  ghost predicate NewProfileShape(data: Props, r: Props)
  {
    && r.Keys == data.Keys + {"Error", "Match", "IsReady", "Confidence", "Fidelity", "Profiles"}
    && r["Error"] == JStr("") && r["Match"] == JBool(true) && r["IsReady"] == JBool(false)
    && r["Confidence"] == JFloat(100.0) && r["Fidelity"] == JFloat(100.0) && r["Profiles"] == JInt(0)
    && forall k :: k in data && k !in {"Error", "Match", "IsReady", "Confidence", "Fidelity", "Profiles"} ==> r[k] == data[k]
  }

  /** A successful evaluation of a profile that is not ready leads to a save; once it succeeds Match is forced true and nothing else changes. */
  lemma EnrollsNotReadyProfile(respond: Responder, history: seq<Call>, entityID: string, tsData: string, data: Props)
    requires ErrorIs(data, "") && ValueBool(data, "IsReady") == Success(false)
    ensures var run := EnrollFallbackRun(respond, history, entityID, tsData, data);
      var save := SaveProfileRun(respond, history, entityID, tsData);
      && run.calls == save.calls
      && (SaveOutcome(save.result) == Success(true) ==>
            && run.result.Success?
            && run.result.value.Keys == data.Keys + {"Match"}
            && run.result.value["Error"] == JStr("") && run.result.value["Match"] == JBool(true)
            && forall k :: k in data && k != "Error" && k != "Match" ==> run.result.value[k] == data[k])
      && (SaveOutcome(save.result) == Success(false) ==> run.result == Success(SaveErrorEnvelope()))
      && (SaveOutcome(save.result).Failure? ==> run.result == Failure(SaveOutcome(save.result).error))
  {
  }

  /**
   * An evaluation the service could not make for lack of data leads to a save; once it
   * succeeds the result matches with full confidence and fidelity, and IsReady, Profiles
   * and every other property are kept.
   */
  lemma EnrollsUnevaluatedSample(respond: Responder, history: seq<Call>, entityID: string, tsData: string, data: Props)
    requires ErrorIs(data, TooLittleData) || ErrorIs(data, TooDivergent)
    requires ValueBool(data, "IsReady") == Success(false)
    ensures var run := EnrollFallbackRun(respond, history, entityID, tsData, data);
      var save := SaveProfileRun(respond, history, entityID, tsData);
      && run.calls == save.calls
      && (SaveOutcome(save.result) == Success(true) ==>
            && run.result.Success?
            && run.result.value.Keys == data.Keys + {"Match", "Confidence", "Fidelity"}
            && run.result.value["Error"] == JStr("") && run.result.value["Match"] == JBool(true)
            && run.result.value["Confidence"] == JFloat(100.0) && run.result.value["Fidelity"] == JFloat(100.0)
            && forall k :: k in data && k !in {"Error", "Match", "Confidence", "Fidelity"} ==> run.result.value[k] == data[k])
      && (SaveOutcome(save.result) == Success(false) ==> run.result == Success(SaveErrorEnvelope()))
      && (SaveOutcome(save.result).Failure? ==> run.result == Failure(SaveOutcome(save.result).error))
  {
  }

  /**
   * The fallback saves exactly when the profile does not exist, or when it is not ready
   * and the evaluation reported no error or one of the two insufficient-data errors.
   * When it does not save, it hands back the evaluation unchanged, unless reading Error
   * or IsReady throws.
   */
  lemma FallbackSavesExactlyWhenCalledFor(respond: Responder, history: seq<Call>, entityID: string, tsData: string, data: Props)
    ensures var run := EnrollFallbackRun(respond, history, entityID, tsData, data);
      && (run.calls != [] <==>
            ErrorIs(data, EntityMissing) || (ValueBool(data, "IsReady") == Success(false) && NeedsMoreData(data)))
      && (run.calls != [] ==> run.calls[0] == Call.SaveProfile(entityID, tsData, NoCode))
      && (run.calls == [] ==>
            run.result == if "Error" !in data then Failure(MissingKey("Error"))
                          else if ValueBool(data, "IsReady").Failure? then Failure(ValueBool(data, "IsReady").error)
                          else Success(data))
  {
  }

  /**
   * Whenever the fallback's save needs an enrollment code, the whole operation throws:
   * SaveProfile then answers with an empty object, and reading its Error fails.
   */
  lemma CodeRequiredSaveFaultsFallback(respond: Responder, history: seq<Call>, entityID: string, tsData: string, data: Props)
    requires CodeRequired(ParseResponse(respond(history + [Call.SaveProfile(entityID, tsData, NoCode)])))
    requires ErrorIs(data, EntityMissing) || (ValueBool(data, "IsReady") == Success(false) && NeedsMoreData(data))
    ensures EnrollFallbackRun(respond, history, entityID, tsData, data).result == Failure(MissingKey("Error"))
  {
  }

  /** After a save the fallback's result is either a match with no error or the save-error envelope. */
  lemma SavedResultMatchesOrReportsSaveError(respond: Responder, history: seq<Call>, entityID: string, tsData: string, data: Props)
    ensures var run := EnrollFallbackRun(respond, history, entityID, tsData, data);
      run.calls != [] && run.result.Success? ==>
        run.result.value == SaveErrorEnvelope() ||
        (ErrorIs(run.result.value, "") && run.result.value["Match"] == JBool(true))
  {
  }

  /**
   * EvaluateEnrollProfile first does exactly what EvaluateProfile does; it stops there when
   * the evaluation throws, and otherwise sends at most three more requests, all for one save.
   */
  lemma EvaluateEnrollExtendsEvaluation(settings: KeyIDSettings, respond: Responder, history: seq<Call>,
                                        entityID: string, tsData: string, nonceTime: int)
    ensures var run := EvaluateEnrollProfileRun(settings, respond, history, entityID, tsData, nonceTime);
      var evaluation := EvaluateProfileRun(settings, respond, history, entityID, tsData, nonceTime);
      && |evaluation.calls| <= |run.calls| <= |evaluation.calls| + 3
      && run.calls[..|evaluation.calls|] == evaluation.calls
      && (evaluation.result.Failure? ==> run == evaluation)
  {
  }

  /**
   * Login only evaluates unless login enrollment is configured: it then sends the nonce
   * and evaluation requests and never saves; with enrollment it is EvaluateEnrollProfile.
   */
  lemma LoginDispatch(settings: KeyIDSettings, respond: Responder, history: seq<Call>,
                      entityID: string, tsData: string, nonceTime: int)
    ensures var run := LoginRun(settings, respond, history, entityID, tsData, nonceTime);
      && (settings.loginEnrollment ==> run == EvaluateEnrollProfileRun(settings, respond, history, entityID, tsData, nonceTime))
      && (!settings.loginEnrollment ==>
            && run == EvaluateProfileRun(settings, respond, history, entityID, tsData, nonceTime)
            && forall i :: 0 <= i < |run.calls| ==> !run.calls[i].SaveProfile?)
  {
  }
}
