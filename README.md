# KeyID client decision layer

A Dafny model of the client class of the .NET KeyID client (`KeyIDClient`): the part of
the library that talks to the KeyID keystroke-dynamics service, reads its JSON replies
and decides what to send next and what to hand back to the caller.

The model has these pieces:

- `Wrappers`: `Option` and `Result`.
- `Faults`: the exceptions an operation can end in. These are a request that fails, a
  status other than 200 OK, a body that does not parse, a parsed body that is not an
  object, an empty array, a missing property (the `NullReferenceException` from calling
  `ToString()` on an absent property), and a property `Value<T>` cannot convert.
- `Strings`: ASCII upper-casing.
- `Json`: parsed JSON values and the three readings the client makes of a property:
  - `ToString()` (`Text`);
  - `Value<bool>` (`ValueBool`);
  - `Value<double>` (`ValueDouble`).

  It also holds the mutable `JObject` that the client updates through its indexer.
- `Settings`: the settings the client reads. `Settings.Defaults` holds their defaults
  (`net-keyid-client/KeyIDSettings.cs:13-16`): no login enrollment, no custom thresholds,
  confidence 70 and fidelity 50.
- `Service`: the requests the client makes of `KeyIDService`, and the service itself.
  The service is an oracle, `Responder`, that answers each request knowing every
  request sent before it. `KeyIDService.Send` records each request in `history`.
- `Client`: the client's own decisions, in two layers.
  - Pure functions. These cover `AlphaToBool`, the threshold test and the two response
    parsers, plus one specification function per operation (`SaveProfileRun`,
    `RemoveProfileRun`, `EvaluateProfileRun`, `EvaluateEnrollProfileRun`, `LoginRun`).
    Each specification function gives both the result and the exact sequence of
    requests sent.
  - The class `KeyIDClient`. Its methods perform each operation against a
    `KeyIDService` and update the parsed objects in place. Each method is proved to send
    exactly the requests its specification function lists and to return an object whose
    properties are that function's result.
- `ClientProperties`: lemmas about the specification functions:
  - flag coercion, threshold monotonicity and idempotent adjustment;
  - the null-token removal;
  - when the enrollment fallback saves, and what it returns after a save;
  - how `EvaluateEnrollProfile` and `Login` relate to `EvaluateProfile`.

On three points the code is easy to misread, and the model follows the code as written:

- `RemoveProfile` goes on to the removal whenever the token reply has a `Token`
  property. This includes a JSON `null` token, since a null JSON value is not a null
  reference (`ClientProperties.RemoveProfileWithNullToken`).
- The client has no passive-validation setting.
- When the first save asks for an enrollment code, `SaveProfile` answers with an empty
  object, whatever the token request and the second save returned. It does so because
  its last continuation ignores its antecedent. As a consequence, the enrollment
  fallback of `EvaluateEnrollProfile` then always ends in a missing-`Error` fault
  (`ClientProperties.CodeRequiredSaveFaultsFallback`).

## Model

| member | source | states |
|---|---|---|
| Strings.Upper | net-keyid-client/KeyIDClient.cs:309 | upper-casing keeps the length and maps every character through the ASCII upper-case map |
| Client.AlphaToBool | net-keyid-client/KeyIDClient.cs:307-315 | true exactly for the four-letter word "true" in any mix of letter cases |
| ClientProperties.AlphaToBoolExamples | net-keyid-client/KeyIDClient.cs:307-315 | "true", "True", "TRUE" and "tRuE" are true; "", "yes", "1", "false" and padded forms are false, since nothing is trimmed |
| ClientProperties.FlagOfBoolean | net-keyid-client/KeyIDClient.cs:126-127 | a boolean that has already been coerced reads back as itself |
| ClientProperties.EvalThresholdMonotone | net-keyid-client/KeyIDClient.cs:289-300 | raising the confidence or the fidelity never turns a passed threshold test into a failed one |
| ClientProperties.DefaultThresholdsDecideMatch | net-keyid-client/KeyIDClient.cs:130-133 | with the default thresholds 70/50 and custom thresholds on, confidence 80 with fidelity 60 matches and confidence 60 does not, whatever Match the service sent |
| Client.EvalThreshold | net-keyid-client/KeyIDClient.cs:289-300 | the threshold test: true exactly when the confidence reaches the configured confidence threshold and the fidelity reaches the fidelity threshold, both inclusive; its monotonicity is EvalThresholdMonotone |
| Client.Flag | net-keyid-client/KeyIDClient.cs:126-127 | a property read as AlphaToBool of its `ToString()` text; a value whose text is not modelled reads as false |
| Client.Coerced | net-keyid-client/KeyIDClient.cs:126-127 | Match and IsReady replaced by the booleans their text reads as, nothing else touched |
| Client.Thresholded | net-keyid-client/KeyIDClient.cs:130-133 | without custom thresholds, the object unchanged; with them, Match replaced by EvalThreshold of the `Value<double>` readings of Confidence and Fidelity, a failed reading being the fault |
| Json.ValueBool | net-keyid-client/KeyIDClient.cs:175 | `Value<bool>`: false for an absent property, a boolean as it is, a number true when not zero, a string parsed as "true"/"false" in any case, anything else a conversion fault |
| Json.ValueDouble | net-keyid-client/KeyIDClient.cs:132 | `Value<double>`: 0 for an absent property, a number as it is, a boolean as 1 or 0, anything else a conversion fault |
| Client.SaveOutcome | net-keyid-client/KeyIDClient.cs:158 | what a save's reply says: saved when its Error text is empty, not saved for any other Error, a fault when the reply faulted or has no Error |
| Client.Enrolled | net-keyid-client/KeyIDClient.cs:160-166 | the evaluation rewritten after a save, one case per enrollment reason: new profile (Error, Match, IsReady, Confidence, Fidelity, Profiles), not ready (Error, Match), unevaluated (Error, Match, Confidence, Fidelity) |
| Client.EnrollRun | net-keyid-client/KeyIDClient.cs:155-171 | the enrollment step: SaveProfile's requests, then the rewritten evaluation when the save's Error is empty, the save-error envelope for any other Error, and the fault otherwise |
| Client.EnrollFallbackRun | net-keyid-client/KeyIDClient.cs:150-217 | the fallback on an evaluation: a missing Error faults; a missing entity enrolls a new profile; a failed IsReady reading faults; a ready profile is returned unchanged; a not-ready one is enrolled when Error is empty or an insufficient-data message, and returned unchanged otherwise; its properties are the Enrolls lemmas and FallbackSavesExactlyWhenCalledFor |
| Client.EvaluateEnrollProfileRun | net-keyid-client/KeyIDClient.cs:147-218 | EvaluateProfileRun, stopping at its fault, followed by EnrollFallbackRun on the evaluation with the history extended by the evaluation's requests; its properties are EvaluateEnrollExtendsEvaluation |
| Client.LoginRun | net-keyid-client/KeyIDClient.cs:243-249 | EvaluateEnrollProfileRun when login enrollment is configured, EvaluateProfileRun otherwise; its properties are LoginDispatch |
| Json.Text | net-keyid-client/KeyIDClient.cs:123 | `ToString()` of a token: null as "", a boolean as "True" or "False", a string as itself; the text of numbers, arrays and objects is not spelled out |
| Json.JObject.constructor | net-keyid-client/KeyIDClient.cs:62 | a new object holds exactly the given properties: none for `new JObject()`, the parsed ones for `JObject.Parse` |
| Client.ParseResponse | net-keyid-client/KeyIDClient.cs:322-334 | succeeds exactly on a 200 OK reply whose body parses as a JSON object, and then yields that object; a failed request and any other status are distinct faults |
| Client.ParseGetProfileResponse | net-keyid-client/KeyIDClient.cs:341-357 | on 200 OK, an array yields its first element and anything else yields itself, each only when that value is an object; the converse holds too; a failed request and other statuses are faults |
| Client.Adjusted | net-keyid-client/KeyIDClient.cs:120-136 | a missing Error faults; a non-empty Error leaves the evaluation unchanged; with an empty Error it succeeds exactly when Match and IsReady are present and, under custom thresholds, Confidence and Fidelity convert; then IsReady is its coerced boolean, Match is the threshold decision or its coerced boolean, and every other property and the key set are kept |
| ClientProperties.CoercedKeepsBooleans | net-keyid-client/KeyIDClient.cs:126-127 | coercing Match and IsReady when they are already booleans changes nothing |
| ClientProperties.ThresholdedTwice | net-keyid-client/KeyIDClient.cs:130-133 | deciding Match by the thresholds twice gives the same object as deciding it once |
| ClientProperties.AdjustedIdempotent | net-keyid-client/KeyIDClient.cs:120-136 | adjusting an already adjusted evaluation gives it back unchanged |
| Client.EvaluateProfileRun | net-keyid-client/KeyIDClient.cs:109-138 | sends a nonce request; if that request fails, stops with a transport fault; otherwise sends the evaluation with the nonce reply's body, whatever its status, and returns the parse fault or the adjusted evaluation |
| Client.KeyIDClient.EvaluateProfile | net-keyid-client/KeyIDClient.cs:109-138 | sends exactly the requests of EvaluateProfileRun and returns a fresh object holding its result, adjusted in place |
| Client.SaveErrorEnvelope | net-keyid-client/KeyIDClient.cs:224-234 | exactly the six result properties, with Error "Error saving profile.", Match and IsReady false, and Confidence, Fidelity and Profiles zero |
| Client.KeyIDClient.SaveErrorResult | net-keyid-client/KeyIDClient.cs:224-234 | builds a fresh object whose properties are SaveErrorEnvelope |
| Client.SaveProfileRun | net-keyid-client/KeyIDClient.cs:41-70 | first saves without a code; it asks for a token exactly when the reply's Error is the enrollment-code message; it saves again with the issued token exactly when the token reply has a Token; on that path it answers with an empty object, and otherwise with the first reply (a missing Error faults) |
| Client.KeyIDClient.SaveProfile | net-keyid-client/KeyIDClient.cs:41-70 | sends exactly the requests of SaveProfileRun and returns a fresh object holding its result |
| Client.RemoveProfileRun | net-keyid-client/KeyIDClient.cs:79-100 | asks for a removal token; it removes the profile with that token exactly when the token reply has a Token property, and then answers with the removal reply; otherwise it answers with the token reply |
| Client.KeyIDClient.RemoveProfile | net-keyid-client/KeyIDClient.cs:79-100 | sends exactly the requests of RemoveProfileRun and returns a fresh object holding its result |
| ClientProperties.RemoveProfileWithNullToken | net-keyid-client/KeyIDClient.cs:88-90 | a Token property that is JSON null still leads to a removal request carrying that null |
| Client.KeyIDClient.EvaluateEnrollProfile | net-keyid-client/KeyIDClient.cs:147-218 | sends exactly the requests of EvaluateEnrollProfileRun and returns its result, as a fresh object |
| Client.KeyIDClient.EnrollFallback | net-keyid-client/KeyIDClient.cs:150-217 | on an evaluation object, sends exactly the requests of EnrollFallbackRun and returns its result, either the same object rewritten in place or a fresh one; on a fault or a fresh result the evaluation object keeps its properties |
| Client.KeyIDClient.Enroll | net-keyid-client/KeyIDClient.cs:155-171 | saves the sample, then rewrites the evaluation in place as the save's outcome calls for, or returns the save-error object; on a fault or the save-error object the evaluation keeps its properties |
| ClientProperties.EnrollsMissingEntity | net-keyid-client/KeyIDClient.cs:153-172 | "EntityID does not exist." leads to exactly one save. If that save succeeds, the evaluation comes back as a matching, not-ready profile with confidence and fidelity 100 and no profiles, all other properties kept. If the save reports an error, the result is the save-error envelope, and a save fault propagates |
| ClientProperties.EnrollsNotReadyProfile | net-keyid-client/KeyIDClient.cs:175-193 | a not-ready evaluation without error leads to a save, after which Error is "" and Match true, and nothing else changes; a save error gives the envelope |
| ClientProperties.EnrollsUnevaluatedSample | net-keyid-client/KeyIDClient.cs:195-213 | a not-ready evaluation with either insufficient-data message leads to a save, after which Error is "", Match true, and Confidence and Fidelity 100, with IsReady, Profiles and the rest kept; a save error gives the envelope |
| ClientProperties.FallbackSavesExactlyWhenCalledFor | net-keyid-client/KeyIDClient.cs:150-217 | the fallback sends requests exactly when the profile is missing, or when it is not ready and the Error is "" or an insufficient-data message; it then starts with a save without a code; otherwise the result is the evaluation unchanged, or the fault from reading Error or IsReady |
| ClientProperties.CodeRequiredSaveFaultsFallback | net-keyid-client/KeyIDClient.cs:155-158 | whenever the fallback's save needs an enrollment code, the operation ends in a missing-Error fault |
| ClientProperties.SavedResultMatchesOrReportsSaveError | net-keyid-client/KeyIDClient.cs:158-170 | after a save, a successful result is the save-error envelope or a match with an empty Error |
| ClientProperties.EvaluateEnrollExtendsEvaluation | net-keyid-client/KeyIDClient.cs:147-151 | EvaluateEnrollProfile first sends exactly EvaluateProfile's requests; it stops with EvaluateProfile's result when that faults, and otherwise sends at most three more requests |
| Client.KeyIDClient.Login | net-keyid-client/KeyIDClient.cs:243-249 | sends exactly the requests of LoginRun and returns its result, as a fresh object |
| ClientProperties.LoginDispatch | net-keyid-client/KeyIDClient.cs:243-249 | with login enrollment, Login is EvaluateEnrollProfile; without it, Login is EvaluateProfile and never saves a profile |
| Client.KeyIDClient.GetProfileInfo | net-keyid-client/KeyIDClient.cs:256-264 | sends one profile-information request and returns a fresh object holding ParseGetProfileResponse of its reply |
| Client.KeyIDClient.constructor | net-keyid-client/KeyIDClient.cs:23-27 | the client keeps the settings and the service it is given |
| Json.JObject.Set | net-keyid-client/KeyIDClient.cs:161-166 | assigning through the indexer adds or replaces exactly that one property |
| Service.KeyIDService.Send | net-keyid-client/KeyIDService.cs:26-40 | a request is appended to the history and answered by the service given that history |

## Left out

- Asynchrony: tasks and continuations are modelled as sequential steps in the order the continuations run. Cancellation, timeouts and thread scheduling are not modelled.
- Client.SaveProfileRun: the retried save with the token runs fire-and-forget in the source. The model records that request but nothing about when it completes. Its outcome is ignored, as it is in the source.
- HTTP, URL and query building, the license key, `timeout` and `strictSSL`: the service is an oracle from request histories to replies. The requests the client makes are modelled as `Call` values, and `KeyIDService.Send` stands in for the private `Get` and `GetAsync`. The definitions of the service's request methods are not part of this model: the service source shows only its constructor and `Get`. So which path and query each request turns into is not modelled.
- JSON parsing: a reply carries its body text and, separately, what the parser makes of it (`json`). The relation between the two is not modelled. The body text is used only as the nonce, which is passed on verbatim.
- Json.Text: `ToString()` is spelled out only for null, booleans and strings. The text of numbers, arrays and objects is not modelled, and comparisons on such a value come out false. Tokens sent back to the service are carried as JSON values, not as their text.
- Json.ValueDouble: a numeric string in Confidence or Fidelity is treated as unconvertible. Newtonsoft would convert it as an invariant-culture number, but the parsing of numbers from text is not modelled.
- Json.ParseBool: `bool.Parse` trims surrounding white space, which is not modelled.
- Strings.Upper: upper-casing is ASCII only. Culture-specific case mapping, such as the Turkish dotted i, is not modelled.
- Doubles are modelled as exact reals, with no NaN, infinities or rounding.
- The order of JSON properties is not modelled.
- The parameterless `KeyIDClient()` constructor is left out. It reads the settings before anything has set them.
- Client.KeyIDClient.constructor: the client is given its service instead of building one from `url`, `license` and `timeout`.
- The nonce time is the `DateTime.UtcNow.Ticks` clock reading in the source. Here it is an input to the operation.
- `sessionID` is not modelled: the client's methods pass it between themselves, but no method reads it and none hands it to the service. `entityNotes` is read only by `Monitor`, which is left out.
- `Monitor` is left out, because it depends on a service method that is not part of this model.
- The unit test file is not part of this model.
