/** Error handling and logging helpers of the admin side: the recovery suggestion attached to
    Nutshell API errors, the classification of an API response, and the decision of what
    `ga4_to_nutshell_log` writes. */
module Diagnostics {
  import opened Wrappers
  import opened Text
  import opened Assoc
  import opened JsonValue

  // ----- recovery suggestions -----

  const AuthText := "Please verify your Nutshell API credentials in the plugin settings."
  const PermissionText := "Your Nutshell API user may not have permission to perform this action. Please contact your Nutshell administrator."
  const MissingText := "A required field is missing. Please check your form mappings and make sure all required Nutshell fields are mapped to form fields."
  const ValidationText := "There was a validation error with your data. Please check that your form data matches what Nutshell expects."
  const ContactNotFoundText := "The contact could not be found. Make sure your form collects valid contact information."
  const AccountNotFoundText := "The company/account could not be found. Make sure your form collects valid company information."
  const UserNotFoundText := "The assigned user could not be found. Check your form-to-user mappings in the plugin settings."
  const RateLimitText := "You have reached the Nutshell API rate limit. Please wait a few minutes and try again."
  const CreatingLeadText := "There was an error creating the lead. Make sure your form collects all required information and that your form mappings are correct."
  const CreatingContactText := "There was an error creating the contact. Make sure your form collects valid contact information such as name and email."
  const CreatingAccountText := "There was an error creating the company/account. Make sure your form collects valid company information."
  const DefaultText := "Please check your request and try again."

  predicate AuthProblem(message: string, code: string) {
    Contains(message, "authentication") || Contains(message, "credentials") ||
    Contains(message, "unauthorized") || code == "auth_error"
  }

  predicate RateLimited(message: string, code: string) {
    Contains(message, "rate limit") || Contains(message, "quota") || code == "too_many_requests"
  }

  /** `ga4_to_nutshell_get_error_recovery_suggestion`: keyword checks (case-sensitive) in a
      fixed order, each returning its own advice. */
  function RecoverySuggestion(message: string, code: string, context: string): string {
    if AuthProblem(message, code) then AuthText
    else if Contains(message, "permission") || Contains(message, "not allowed") then PermissionText
    else if Contains(message, "missing") || Contains(message, "required") then MissingText
    else if Contains(message, "validation") then ValidationText
    else if Contains(message, "not found") && Contains(context, "contact") then ContactNotFoundText
    else if Contains(message, "not found") && Contains(context, "account") then AccountNotFoundText
    else if Contains(message, "not found") && Contains(context, "user") then UserNotFoundText
    else if RateLimited(message, code) then RateLimitText
    else if Contains(context, "creating lead") then CreatingLeadText
    else if Contains(context, "creating contact") then CreatingContactText
    else if Contains(context, "creating account") then CreatingAccountText
    else DefaultText
  }

  /** The suggestion rules as a table, in priority order; the last rule always applies. */
  const SuggestionTexts: seq<string> := [
    AuthText, PermissionText, MissingText, ValidationText, ContactNotFoundText,
    AccountNotFoundText, UserNotFoundText, RateLimitText, CreatingLeadText,
    CreatingContactText, CreatingAccountText, DefaultText]

  /** Whether rule `i` of the table matches, judged on its own (no priority). */
  predicate RuleApplies(i: nat, message: string, code: string, context: string) {
    match i
    case 0 => AuthProblem(message, code)
    case 1 => Contains(message, "permission") || Contains(message, "not allowed")
    case 2 => Contains(message, "missing") || Contains(message, "required")
    case 3 => Contains(message, "validation")
    case 4 => Contains(message, "not found") && Contains(context, "contact")
    case 5 => Contains(message, "not found") && Contains(context, "account")
    case 6 => Contains(message, "not found") && Contains(context, "user")
    case 7 => RateLimited(message, code)
    case 8 => Contains(context, "creating lead")
    case 9 => Contains(context, "creating contact")
    case 10 => Contains(context, "creating account")
    case _ => true
  }

  /** The suggestion is the text of the first rule of the table that applies. */
  lemma SuggestionIsFirstApplicableRule(message: string, code: string, context: string)
    ensures var r := RecoverySuggestion(message, code, context);
            exists i :: 0 <= i < |SuggestionTexts| && RuleApplies(i, message, code, context) && r == SuggestionTexts[i] &&
                        forall j :: 0 <= j < i ==> !RuleApplies(j, message, code, context)
  {
    var r := RecoverySuggestion(message, code, context);
    var i: nat := 0;
    while !RuleApplies(i, message, code, context)
      invariant i <= 11
      invariant forall j :: 0 <= j < i ==> !RuleApplies(j, message, code, context)
      decreases 11 - i
    {
      i := i + 1;
    }
    if i > 0 { assert !RuleApplies(0, message, code, context); }
    if i > 1 { assert !RuleApplies(1, message, code, context); }
    if i > 2 { assert !RuleApplies(2, message, code, context); }
    if i > 3 { assert !RuleApplies(3, message, code, context); }
    if i > 4 { assert !RuleApplies(4, message, code, context); }
    if i > 5 { assert !RuleApplies(5, message, code, context); }
    if i > 6 { assert !RuleApplies(6, message, code, context); }
    if i > 7 { assert !RuleApplies(7, message, code, context); }
    if i > 8 { assert !RuleApplies(8, message, code, context); }
    if i > 9 { assert !RuleApplies(9, message, code, context); }
    if i > 10 { assert !RuleApplies(10, message, code, context); }
    assert r == SuggestionTexts[i];
  }

  /** Authentication keywords or the `auth_error` code win over every other category. */
  lemma AuthTakesPrecedence(message: string, code: string, context: string)
    requires AuthProblem(message, code)
    ensures RecoverySuggestion(message, code, context) == AuthText
  {
  }

  /** "not found" with a context naming none of contact, account or user falls through to the
      rate-limit and "creating lead" checks (the contact/account contexts are ruled out). */
  lemma NotFoundFallsThrough(message: string, code: string, context: string)
    requires Contains(message, "not found")
    requires !Contains(context, "contact") && !Contains(context, "account") && !Contains(context, "user")
    requires !AuthProblem(message, code) && !Contains(message, "permission") && !Contains(message, "not allowed")
    requires !Contains(message, "missing") && !Contains(message, "required") && !Contains(message, "validation")
    ensures RecoverySuggestion(message, code, context) ==
            if RateLimited(message, code) then RateLimitText
            else if Contains(context, "creating lead") then CreatingLeadText
            else DefaultText
  {
    MissingSuffixMissingWhole(context, "creating contact", "contact");
    MissingSuffixMissingWhole(context, "creating account", "account");
  }

  /** A string that does not contain `inner` contains no string ending with `inner`. */
  lemma MissingSuffixMissingWhole(s: string, outer: string, inner: string)
    requires EndsWith(outer, inner) && !Contains(s, inner)
    ensures !Contains(s, outer)
  {
    if i :| 0 <= i <= |s| - |outer| && OccursAt(s, outer, i) {
      var k := i + |outer| - |inner|;
      assert s[k..k + |inner|] == s[i..i + |outer|][|outer| - |inner|..];
      assert OccursAt(s, inner, k);
      assert false;
    }
  }

  /** The default advice is given exactly when no category matches. */
  lemma DefaultIffNothingMatches(message: string, code: string, context: string)
    ensures RecoverySuggestion(message, code, context) == DefaultText <==>
            forall i :: 0 <= i < 11 ==> !RuleApplies(i, message, code, context)
  {
    SuggestionIsFirstApplicableRule(message, code, context);
    if !forall i :: 0 <= i < 11 ==> !RuleApplies(i, message, code, context) {
      var i :| 0 <= i < 11 && RuleApplies(i, message, code, context);
      var k :| 0 <= k < |SuggestionTexts| && RuleApplies(k, message, code, context) &&
               RecoverySuggestion(message, code, context) == SuggestionTexts[k] &&
               forall j :: 0 <= j < k ==> !RuleApplies(j, message, code, context);
      assert k <= i;
      assert SuggestionTexts[k] != DefaultText;
    }
  }

  // ----- API response classification -----

  /** The result of `json_decode` on the response body. */
  datatype DecodedBody = Decoded(value: Json) | Undecodable(reason: string)

  /** What `wp_remote_request` gave back: a transport error, or a reply with its status. */
  datatype ApiResponse = TransportFailure(message: string) | HttpReply(status: int, body: string, decoded: DecodedBody)

  /** A `WP_Error` with its code, message and data. */
  datatype WpError = WpError(code: string, message: string, data: Json)

  /** PHP's string conversion of a decoded value used in string context. */
  function PhpText(j: Json): string {
    match j
    case JNull => ""
    case JText(s) => s
    case _ => "Array"
  }

  /** `ga4_to_nutshell_handle_api_response` without its logging. */
  function HandleApiResponse(response: ApiResponse, context: string): (r: Result<Json, WpError>)
    ensures response.TransportFailure? ==>
              r == Failure(WpError("api_request_failed", "API request failed (" + context + "): " + response.message, JNull))
    ensures response.HttpReply? && !(200 <= response.status < 300) ==>
              r.Failure? && r.error.code == "api_http_error" &&
              r.error.message == "HTTP error " + IntToString(response.status) + " for " + context
    ensures r.Success? <==>
              response.HttpReply? && 200 <= response.status < 300 && response.decoded.Decoded? &&
              !IsSet(response.decoded.value, "error")
    ensures r.Success? ==> r.value == response.decoded.value
    ensures response.HttpReply? && 200 <= response.status < 300 && response.decoded.Undecodable? ==>
              r == Failure(WpError("api_invalid_json",
                                   "Invalid JSON response from " + context + ": " + response.decoded.reason, JNull))
    ensures r.Failure? && response.HttpReply? && 200 <= response.status < 300 && response.decoded.Decoded? ==>
              var info := Member(response.decoded.value, "error");
              var code := if IsSet(info, "code") then PhpText(Member(info, "code")) else "api_error";
              var text := if IsSet(info, "message") then PhpText(Member(info, "message")) else "Unknown API error";
              r.error.code == code &&
              r.error.data == (if IsSet(info, "data") then Member(info, "data") else JNull) &&
              StartsWith(r.error.message, text + ". ") &&
              EndsWith(r.error.message, RecoverySuggestion(text, code, context))
  {
    match response
    case TransportFailure(message) =>
      Failure(WpError("api_request_failed", "API request failed (" + context + "): " + message, JNull))
    case HttpReply(status, _, decoded) =>
      if status < 200 || status >= 300 then
        Failure(WpError("api_http_error", "HTTP error " + IntToString(status) + " for " + context, JNull))
      else
        match decoded
        case Undecodable(reason) =>
          Failure(WpError("api_invalid_json", "Invalid JSON response from " + context + ": " + reason, JNull))
        case Decoded(parsed) =>
          if IsSet(parsed, "error") then
            var info := Member(parsed, "error");
            var text := if IsSet(info, "message") then PhpText(Member(info, "message")) else "Unknown API error";
            var code := if IsSet(info, "code") then PhpText(Member(info, "code")) else "api_error";
            var data := if IsSet(info, "data") then Member(info, "data") else JNull;
            Failure(WpError(code, text + ". " + RecoverySuggestion(text, code, context), data))
          else
            Success(parsed)
  }

  /** An HTTP error is reported whatever the body holds: the status is checked before parsing. */
  lemma StatusCheckedBeforeBody(status: int, body1: string, d1: DecodedBody, body2: string, d2: DecodedBody, context: string)
    requires !(200 <= status < 300)
    ensures HandleApiResponse(HttpReply(status, body1, d1), context) == HandleApiResponse(HttpReply(status, body2, d2), context)
  {
  }

  // ----- logging -----

  /** The data argument of `ga4_to_nutshell_log`. */
  datatype LogData = NoData | ScalarData(text: string) | ArrayData(value: Json) | ObjectData(value: Json)

  const TruncationLimit := 10000
  const TruncationMarker := "... [truncated]"

  /** Both gates of `ga4_to_nutshell_log`: first "debug on, or an error or a warning", then
      "debug messages only in debug mode". */
  predicate ShouldLog(debugMode: bool, level: string) {
    var shouldLog := debugMode || level == "error" || level == "warning";
    shouldLog && !(level == "debug" && !debugMode)
  }

  /** The second gate is subsumed by the first: a message is written iff debug mode is on or
      the level is error or warning. */
  lemma ShouldLogIff(debugMode: bool, level: string)
    ensures ShouldLog(debugMode, level) <==> debugMode || level == "error" || level == "warning"
    ensures !debugMode && level == "debug" ==> !ShouldLog(debugMode, level)
  {
  }

  /** Long dumps are cut to their first 10000 characters followed by a marker. */
  function Truncated(s: string): (r: string)
    ensures |s| <= TruncationLimit ==> r == s
    ensures |s| > TruncationLimit ==> |r| == TruncationLimit + |TruncationMarker|
    ensures |s| > TruncationLimit ==> r[..TruncationLimit] == s[..TruncationLimit] && EndsWith(r, TruncationMarker)
    ensures |r| <= TruncationLimit + |TruncationMarker|
  {
    if |s| > TruncationLimit then s[..TruncationLimit] + TruncationMarker else s
  }

  /** Data is summarised as Ninja Forms data when it is an array and the message names Ninja
      Forms or the data carries `response.data.form_id`. */
  predicate IsNinjaFormsData(message: string, data: LogData) {
    data.ArrayData? &&
    (Contains(message, "Ninja Form") || Contains(message, "ninja_form") ||
     (IsSet(data.value, "response") && IsSet(Member(data.value, "response"), "data") &&
      IsSet(Member(Member(data.value, "response"), "data"), "form_id")))
  }

  /** The text written for the data: the Ninja Forms summary (whose contents `ninjaSummary`
      stands for), a truncated `print_r` dump, or the scalar itself. */
  function DataText(printR: Json -> string, ninjaSummary: Json -> string, message: string, data: LogData): string
    requires !data.NoData?
  {
    match data
    case ScalarData(text) => text
    case ArrayData(v) =>
      if IsNinjaFormsData(message, data) then "[Ninja Forms data simplified] " + ninjaSummary(v)
      else Truncated(printR(v))
    case ObjectData(v) => Truncated(printR(v))
  }

  /** The line `ga4_to_nutshell_log` writes, or `None` when the gate suppresses it. */
  function LogLine(printR: Json -> string, ninjaSummary: Json -> string, debugMode: bool,
                   timestamp: string, level: string, message: string, data: LogData): (r: Option<string>)
    ensures r.Some? <==> debugMode || level == "error" || level == "warning"
    ensures r.Some? ==> StartsWith(r.value, "[" + timestamp + "] [" + level + "] " + message)
    ensures r.Some? && data.NoData? ==> r.value == "[" + timestamp + "] [" + level + "] " + message
  {
    ShouldLogIff(debugMode, level);
    if !ShouldLog(debugMode, level) then None
    else
      var head := "[" + timestamp + "] [" + level + "] " + message;
      if data.NoData? then Some(head)
      else
        var line := head + " " + DataText(printR, ninjaSummary, message, data);
        assert line[..|head|] == head;
        Some(line)
  }

  /** A non-Ninja dump never makes the data part longer than the limit plus the marker. */
  lemma LoggedDumpBounded(printR: Json -> string, ninjaSummary: Json -> string, message: string, data: LogData)
    requires data.ObjectData? || (data.ArrayData? && !IsNinjaFormsData(message, data))
    ensures |DataText(printR, ninjaSummary, message, data)| <= TruncationLimit + |TruncationMarker|
    ensures |printR(data.value)| > TruncationLimit ==> EndsWith(DataText(printR, ninjaSummary, message, data), TruncationMarker)
  {
  }
}
