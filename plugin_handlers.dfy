/** The request handlers of the main plugin class: the server-side Ninja Forms submission hook,
    the front-end AJAX endpoint, and the two admin AJAX endpoints (connection test and form
    field list). WordPress state (nonces, capabilities, `$_SERVER`) arrives as parameters. */
module PluginHandlers {
  import opened Wrappers
  import opened Text
  import opened Assoc
  import opened WordPress
  import opened JsonValue
  import opened SettingsValidation
  import opened FormRouting
  import opened Diagnostics
  import opened NutshellRequests

  // ----- process_ninja_form_submission -----

  /** A field of a Ninja Forms submission; `None` for a member that is not set. */
  datatype NinjaField = NinjaField(fieldType: Option<string>, key: Option<string>, value: Option<string>)

  /** What the submission hook passes on to `ga4_to_nutshell_send_to_nutshell`. */
  datatype NinjaSubmission = NinjaSubmission(formTitle: string, assignedUserId: string,
                                             fields: Assoc<string>, trafficSource: string)

  const SubmissionLayoutTypes: set<string> := {"html", "submit", "hr", "divider"}

  predicate IsLayoutField(f: NinjaField) {
    f.fieldType.Some? && f.fieldType.value in SubmissionLayoutTypes
  }

  function KeyOf(id: string, f: NinjaField): string {
    f.key.GetOr(id)
  }

  function ValueOf(f: NinjaField): string {
    f.value.GetOr("")
  }

  /** The writes the flattening loop performs for one field: a data field's value under its id,
      then under its key; nothing for a layout field. */
  function NinjaFieldWrites(e: (string, NinjaField)): seq<(string, string)> {
    if IsLayoutField(e.1) then [] else [(e.0, ValueOf(e.1)), (KeyOf(e.0, e.1), ValueOf(e.1))]
  }

  function FlattenedFields(fields: Assoc<NinjaField>): Assoc<string> {
    PutAll([], FlatWrites(fields, NinjaFieldWrites))
  }

  lemma FlattenStep(fields: Assoc<NinjaField>, i: nat)
    requires i < |fields|
    ensures var (id, f) := fields[i];
            FlattenedFields(fields[..i + 1]) ==
              if IsLayoutField(f) then FlattenedFields(fields[..i])
              else Put(Put(FlattenedFields(fields[..i]), id, ValueOf(f)), KeyOf(id, f), ValueOf(f))
  {
    FlatWritesSnoc(fields, NinjaFieldWrites, i);
    var (id, f) := fields[i];
    var ws := FlatWrites(fields[..i], NinjaFieldWrites);
    if IsLayoutField(f) {
      assert ws + [] == ws;
    } else {
      assert ws + NinjaFieldWrites(fields[i]) == (ws + [(id, ValueOf(f))]) + [(KeyOf(id, f), ValueOf(f))];
      PutAllSnoc([], ws + [(id, ValueOf(f))], KeyOf(id, f), ValueOf(f));
      PutAllSnoc([], ws, id, ValueOf(f));
    }
  }

  /** Does the data field at `j` write under `k` (as its id or its key)? */
  predicate WritesKey(fields: Assoc<NinjaField>, j: nat, k: string)
    requires j < |fields|
  {
    !IsLayoutField(fields[j].1) && (fields[j].0 == k || KeyOf(fields[j].0, fields[j].1) == k)
  }

  /** One field's writes name `k` iff it is a data field with `k` as id or key, and then they
      store its value. */
  lemma NinjaFieldWritesKey(e: (string, NinjaField), k: string)
    ensures LastWrite(NinjaFieldWrites(e), k).Some? <==>
            !IsLayoutField(e.1) && (e.0 == k || KeyOf(e.0, e.1) == k)
    ensures LastWrite(NinjaFieldWrites(e), k).Some? ==> LastWrite(NinjaFieldWrites(e), k).value == ValueOf(e.1)
  {
    var ws := NinjaFieldWrites(e);
    if !IsLayoutField(e.1) && KeyOf(e.0, e.1) != k {
      assert ws[..1] == [(e.0, ValueOf(e.1))];
    }
  }

  /** A key appears in the flattened map iff some data field has it as its id or its key:
      layout fields (html, submit, hr, divider) contribute nothing. */
  lemma FlattenedKeys(fields: Assoc<NinjaField>, k: string)
    ensures HasKey(FlattenedFields(fields), k) <==> exists j :: 0 <= j < |fields| && WritesKey(fields, j, k)
  {
    GetPutAll([], FlatWrites(fields, NinjaFieldWrites), k);
    FlatWritesKeys(fields, NinjaFieldWrites, k);
    forall j | 0 <= j < |fields|
      ensures LastWrite(NinjaFieldWrites(fields[j]), k).Some? == WritesKey(fields, j, k)
    {
      NinjaFieldWritesKey(fields[j], k);
    }
  }

  /** A data field's value is found under its id and under its key (the key defaulting to the
      id, the value to ''), unless a later data field writes the same name. */
  lemma FlattenedFieldStored(fields: Assoc<NinjaField>, i: nat, k: string)
    requires i < |fields| && WritesKey(fields, i, k)
    requires forall j :: i < j < |fields| ==> !WritesKey(fields, j, k)
    ensures Get(FlattenedFields(fields), k) == Some(ValueOf(fields[i].1))
  {
    GetPutAll([], FlatWrites(fields, NinjaFieldWrites), k);
    forall j | i <= j < |fields|
      ensures LastWrite(NinjaFieldWrites(fields[j]), k).Some? == WritesKey(fields, j, k)
    {
      NinjaFieldWritesKey(fields[j], k);
    }
    NinjaFieldWritesKey(fields[i], k);
    FlatWritesLast(fields, NinjaFieldWrites, i, k);
  }

  /** The user of the first mapping whose form id equals the form's (PHP `==`); '' when none
      matches or the settings hold no list of mappings. */
  function MappedUser(wp: Helpers, mappings: Option<seq<Mapping>>, formId: string): (r: string)
    ensures mappings.None? ==> r == ""
    ensures mappings.Some? && FirstIndex(mappings.value, FormMatchesP(wp, formId)).None? ==> r == ""
    ensures mappings.Some? && FirstIndex(mappings.value, FormMatchesP(wp, formId)).Some? ==>
              r == mappings.value[FirstIndex(mappings.value, FormMatchesP(wp, formId)).value].userId
  {
    if mappings.None? then ""
    else match FirstIndex(mappings.value, FormMatchesP(wp, formId))
      case Some(i) => mappings.value[i].userId
      case None => ""
  }

  /** The traffic source of a server-side submission: the referrer's host, '' without a referrer
      or when `hostOf` (standing for `parse_url`) finds no host. */
  function RefererHost(referrer: string, hostOf: string -> Option<string>): (r: string)
    ensures PhpEmpty(referrer) || hostOf(referrer).None? ==> r == ""
    ensures !PhpEmpty(referrer) && hostOf(referrer).Some? ==> r == hostOf(referrer).value
  {
    if !PhpEmpty(referrer) && hostOf(referrer).Some? then hostOf(referrer).value else ""
  }

  /** `process_ninja_form_submission` up to the call into `ga4_to_nutshell_send_to_nutshell`:
      the title, the assigned user, the flattened fields and the traffic source it passes. */
  method ProcessNinjaFormSubmission(wp: Helpers, formId: string, settingsTitle: Option<string>,
                                    fields: Option<Assoc<NinjaField>>, mappings: Option<seq<Mapping>>,
                                    referrer: string, hostOf: string -> Option<string>)
    returns (s: NinjaSubmission)
    ensures s.formTitle == settingsTitle.GetOr("Ninja Form " + formId)
    ensures s.assignedUserId == MappedUser(wp, mappings, formId)
    ensures s.fields == (if fields.Some? then FlattenedFields(fields.value) else [])
    ensures s.trafficSource == RefererHost(referrer, hostOf)
  {
    var title := if settingsTitle.Some? then settingsTitle.value else "Ninja Form " + formId;

    var userId := "";
    if mappings.Some? {
      var list := mappings.value;
      for i := 0 to |list|
        invariant forall k :: 0 <= k < i ==> !wp.looseEquals(list[k].formId, formId)
      {
        if wp.looseEquals(list[i].formId, formId) {
          assert FirstIndex(list, FormMatchesP(wp, formId)) == Some(i);
          userId := list[i].userId;
          break;
        }
      }
    }

    var extracted: Assoc<string> := [];
    if fields.Some? {
      var fs := fields.value;
      for i := 0 to |fs|
        invariant extracted == FlattenedFields(fs[..i])
      {
        FlattenStep(fs, i);
        var (id, f) := fs[i];
        if f.fieldType.Some? && f.fieldType.value in SubmissionLayoutTypes {
          continue;
        }
        var key := if f.key.Some? then f.key.value else id;
        var value := if f.value.Some? then f.value.value else "";
        extracted := Put(extracted, id, value);
        extracted := Put(extracted, key, value);
      }
      assert fs[..|fs|] == fs;
    }

    var source := "";
    if !PhpEmpty(referrer) {
      var host := hostOf(referrer);
      if host.Some? {
        source := host.value;
      }
    }
    s := NinjaSubmission(title, userId, extracted, source);
  }

  // ----- process_ajax_data -----

  /** The fields `process_ajax_data` hands to `ga4_to_nutshell_send_to_nutshell`. */
  datatype AjaxRequest = AjaxRequest(formData: Json, formId: string, formName: string, trafficSource: string,
                                     referrerUrl: string, currentUrl: string, assignedUserId: string)

  /** A `wp_send_json_*` answer. */
  datatype JsonAnswer = JsonError(message: string) | JsonSuccess(message: string, leadId: Json)

  /** PHP truthiness of a decoded value. */
  predicate JsonFalsy(j: Json) {
    j == JNull || j == JText("") || j == JText("0") || j == JList([]) || j == JObject([])
  }

  /** `isset($j[$key]) ? clean($j[$key]) : ''`. */
  function TextMember(j: Json, key: string, clean: string -> string): (r: string)
    ensures !IsSet(j, key) ==> r == ""
    ensures IsSet(j, key) ==> r == clean(PhpText(Member(j, key)))
  {
    if IsSet(j, key) then clean(PhpText(Member(j, key))) else ""
  }

  /** The request fields of the decoded payload: each sanitised (URLs with `esc_url_raw`), ''
      when not set, and `formData` an empty array when not set. */
  function RequestFrom(wp: Helpers, data: Json): (q: AjaxRequest)
    ensures !IsSet(data, "formData") ==> q.formData == JList([])
    ensures IsSet(data, "formData") ==> q.formData == Member(data, "formData")
    ensures q.formId == TextMember(data, "formId", wp.sanitizeText)
    ensures q.formName == TextMember(data, "formName", wp.sanitizeText)
    ensures q.trafficSource == TextMember(data, "trafficSource", wp.sanitizeText)
    ensures q.referrerUrl == TextMember(data, "referrerUrl", wp.escUrlRaw)
    ensures q.currentUrl == TextMember(data, "currentUrl", wp.escUrlRaw)
    ensures q.assignedUserId == TextMember(data, "assignedUserId", wp.sanitizeText)
    ensures !IsSet(data, "formId") ==> q.formId == ""
    ensures !IsSet(data, "assignedUserId") ==> q.assignedUserId == ""
    ensures IsSet(data, "formId") ==> q.formId == wp.sanitizeText(PhpText(Member(data, "formId")))
  {
    AjaxRequest(
      if IsSet(data, "formData") then Member(data, "formData") else JList([]),
      TextMember(data, "formId", wp.sanitizeText),
      TextMember(data, "formName", wp.sanitizeText),
      TextMember(data, "trafficSource", wp.sanitizeText),
      TextMember(data, "referrerUrl", wp.escUrlRaw),
      TextMember(data, "currentUrl", wp.escUrlRaw),
      TextMember(data, "assignedUserId", wp.sanitizeText))
  }

  /** The guard sequence of `process_ajax_data`: the request passed on, or the error answer. */
  function AjaxGuards(wp: Helpers, nonceValid: bool, postData: Option<string>, decode: string -> Json): (r: Result<AjaxRequest, JsonAnswer>)
    ensures !nonceValid ==> r == Failure(JsonError("Security verification failed"))
    ensures nonceValid && PhpEmpty(SanitizedOrEmpty(wp, postData)) ==> r == Failure(JsonError("No data provided"))
    ensures r.Success? <==> nonceValid && !PhpEmpty(SanitizedOrEmpty(wp, postData)) && !JsonFalsy(decode(SanitizedOrEmpty(wp, postData)))
    ensures r.Success? ==> r.value == RequestFrom(wp, decode(SanitizedOrEmpty(wp, postData)))
    ensures r.Failure? && nonceValid && !PhpEmpty(SanitizedOrEmpty(wp, postData)) ==> r == Failure(JsonError("Invalid JSON data"))
  {
    if !nonceValid then Failure(JsonError("Security verification failed"))
    else
      var json := SanitizedOrEmpty(wp, postData);
      if PhpEmpty(json) then Failure(JsonError("No data provided"))
      else
        var data := decode(json);
        if JsonFalsy(data) then Failure(JsonError("Invalid JSON data"))
        else Success(RequestFrom(wp, data))
  }

  /** `process_ajax_data`: the guards in order, then the answer for the outcome of the send
      (`send` stands for `ga4_to_nutshell_send_to_nutshell` on the request). `decode` stands for
      `json_decode(stripslashes(...), true)`. */
  method ProcessAjaxData(wp: Helpers, nonceValid: bool, postData: Option<string>, decode: string -> Json,
                         send: AjaxRequest -> Result<Json, WpError>)
    returns (answer: JsonAnswer)
    ensures AjaxGuards(wp, nonceValid, postData, decode).Failure? ==> answer == AjaxGuards(wp, nonceValid, postData, decode).error
    ensures AjaxGuards(wp, nonceValid, postData, decode).Success? ==>
              var sent := send(AjaxGuards(wp, nonceValid, postData, decode).value);
              answer == if sent.Failure? then JsonError(sent.error.message)
                        else JsonSuccess("Data sent to Nutshell successfully", sent.value)
  {
    if !nonceValid {
      return JsonError("Security verification failed");
    }
    var json := if postData.Some? then wp.sanitizeText(postData.value) else "";
    if PhpEmpty(json) {
      return JsonError("No data provided");
    }
    var data := decode(json);
    if JsonFalsy(data) {
      return JsonError("Invalid JSON data");
    }
    var request := RequestFrom(wp, data);
    var result := send(request);
    if result.Failure? {
      return JsonError(result.error.message);
    }
    return JsonSuccess("Data sent to Nutshell successfully", result.value);
  }

  // ----- ajax_test_connection -----

  /** The answer of an admin endpoint; `NonceRejected` is `check_ajax_referer` ending the request. */
  datatype AdminAnswer = NonceRejected | AdminError(message: string) | AdminSuccess

  const InvalidResponseText := "Invalid response from Nutshell API. Please check your credentials."

  /** `ajax_test_connection` over the reply to its `findUsers` request. */
  function TestConnection(wp: Helpers, nonceValid: bool, canManage: bool, username: Option<string>,
                          apiKey: Option<string>, reply: Reply): (a: AdminAnswer)
    ensures !nonceValid ==> a == NonceRejected
    ensures nonceValid && !canManage ==> a == AdminError("Unauthorized")
    ensures nonceValid && canManage &&
            (PhpEmpty(SanitizedOrEmpty(wp, username)) || PhpEmpty(SanitizedOrEmpty(wp, apiKey))) ==>
              a == AdminError("Missing API credentials")
    ensures a == AdminSuccess <==>
              nonceValid && canManage && !PhpEmpty(SanitizedOrEmpty(wp, username)) && !PhpEmpty(SanitizedOrEmpty(wp, apiKey)) &&
              reply.Replied? && !IsSet(reply.body, "error") && IsSet(reply.body, "result")
    ensures nonceValid && canManage && !PhpEmpty(SanitizedOrEmpty(wp, username)) && !PhpEmpty(SanitizedOrEmpty(wp, apiKey)) ==>
              (reply.Unreachable? ==> a == AdminError(reply.message)) &&
              (reply.Replied? && IsSet(reply.body, "error") ==> a == AdminError(ErrorMessageOf(reply.body))) &&
              (reply.Replied? && !IsSet(reply.body, "error") && !IsSet(reply.body, "result") ==>
                 a == AdminError(InvalidResponseText))
  {
    if !nonceValid then NonceRejected
    else if !canManage then AdminError("Unauthorized")
    else if PhpEmpty(SanitizedOrEmpty(wp, username)) || PhpEmpty(SanitizedOrEmpty(wp, apiKey)) then
      AdminError("Missing API credentials")
    else match reply
      case Unreachable(message) => AdminError(message)
      case Replied(body) =>
        if IsSet(body, "error") then AdminError(ErrorMessageOf(body))
        else if IsSet(body, "result") then AdminSuccess
        else AdminError(InvalidResponseText)
  }

  /** A body with both `error` and `result` is reported as the error: `error` is read first. */
  lemma TestConnectionErrorFirst(wp: Helpers, username: string, apiKey: string, body: Json)
    requires !PhpEmpty(wp.sanitizeText(username)) && !PhpEmpty(wp.sanitizeText(apiKey))
    requires IsSet(body, "error") && IsSet(body, "result")
    ensures TestConnection(wp, true, true, Some(username), Some(apiKey), Replied(body)).AdminError?
  {
  }

  // ----- ajax_get_form_fields -----

  /** A field of the form as the field list reports it. */
  datatype FieldInfo = FieldInfo(id: string, key: string, fieldLabel: string, fieldType: string)

  const FieldListExcludedTypes: set<string> := {"submit", "html", "hr", "heading", "divider"}

  /** The listed fields: the form's fields in order, without the excluded types. */
  function ListedFields(fields: seq<FieldInfo>): (r: seq<FieldInfo>)
    ensures forall f :: f in r ==> f in fields && f.fieldType !in FieldListExcludedTypes
    ensures forall f :: f in fields && f.fieldType !in FieldListExcludedTypes ==> f in r
    ensures |r| <= |fields|
    decreases |fields|
  {
    if fields == [] then []
    else
      var rest := ListedFields(fields[..|fields| - 1]);
      var f := fields[|fields| - 1];
      assert forall g :: g in fields[..|fields| - 1] ==> g in fields;
      assert forall g :: g in fields ==> g in fields[..|fields| - 1] || g == f;
      if f.fieldType in FieldListExcludedTypes then rest else rest + [f]
  }

  /** The answer of `ajax_get_form_fields`; `fields` is the form's field list, or the message of
      the exception raised while loading it. */
  datatype FieldsAnswer = FieldsRejected | FieldsError(message: string) | FieldsListed(fields: seq<FieldInfo>)

  method GetFormFields(wp: Helpers, nonceValid: bool, canManage: bool, formId: Option<string>,
                       ninjaFormsActive: bool, fields: Result<seq<FieldInfo>, string>)
    returns (a: FieldsAnswer)
    ensures !nonceValid ==> a == FieldsRejected
    ensures nonceValid && !canManage ==> a == FieldsError("Unauthorized")
    ensures nonceValid && canManage && PhpEmpty(SanitizedOrEmpty(wp, formId)) ==> a == FieldsError("Missing form ID")
    ensures nonceValid && canManage && !PhpEmpty(SanitizedOrEmpty(wp, formId)) && !ninjaFormsActive ==>
              a == FieldsError("Ninja Forms plugin is not active")
    ensures a.FieldsListed? <==> nonceValid && canManage && !PhpEmpty(SanitizedOrEmpty(wp, formId)) && ninjaFormsActive && fields.Success?
    ensures a.FieldsListed? ==> a.fields == ListedFields(fields.value)
    ensures nonceValid && canManage && !PhpEmpty(SanitizedOrEmpty(wp, formId)) && ninjaFormsActive && fields.Failure? ==>
              a == FieldsError("Error getting form fields: " + fields.error)
  {
    if !nonceValid {
      return FieldsRejected;
    }
    if !canManage {
      return FieldsError("Unauthorized");
    }
    var id := if formId.Some? then wp.sanitizeText(formId.value) else "";
    if PhpEmpty(id) {
      return FieldsError("Missing form ID");
    }
    if !ninjaFormsActive {
      return FieldsError("Ninja Forms plugin is not active");
    }
    if fields.Failure? {
      return FieldsError("Error getting form fields: " + fields.error);
    }
    var all := fields.value;
    var listed: seq<FieldInfo> := [];
    for i := 0 to |all|
      invariant listed == ListedFields(all[..i])
    {
      assert all[..i + 1][..i] == all[..i];
      if all[i].fieldType in FieldListExcludedTypes {
        continue;
      }
      listed := listed + [all[i]];
    }
    assert all[..|all|] == all;
    return FieldsListed(listed);
  }

  /** The two filters differ on headings: a heading field is never in the admin field list, but
      a submitted heading field is flattened under its id like any data field. */
  lemma HeadingListedDifferently(infos: seq<FieldInfo>, fields: Assoc<NinjaField>, i: nat)
    requires i < |fields| && fields[i].1.fieldType == Some("heading")
    ensures forall f :: f in ListedFields(infos) ==> f.fieldType != "heading"
    ensures HasKey(FlattenedFields(fields), fields[i].0)
  {
    assert WritesKey(fields, i, fields[i].0);
    FlattenedKeys(fields, fields[i].0);
  }
}
