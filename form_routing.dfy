/** Working out which form a submission came from and which Nutshell user its lead goes to:
    `ga4_to_nutshell_detect_form_id` and the user lookup at the start of
    `ga4_to_nutshell_send_to_nutshell`. */
module FormRouting {
  import opened Wrappers
  import opened Text
  import opened Assoc
  import opened WordPress
  import opened SettingsValidation

  // ----- form id detection -----

  /** A Ninja Forms form as the title search sees it. */
  datatype FormInfo = FormInfo(id: string, title: string)

  /** An entry of the form data that names the form: key `form_id` or `formId`, non-empty value. */
  predicate FormIdEntry(e: (string, string)) {
    (e.0 == "form_id" || e.0 == "formId") && !PhpEmpty(e.1)
  }

  function FormIdEntryP(): ((string, string)) -> bool {
    e => FormIdEntry(e)
  }

  /** The title test: equal ignoring case, or containing the form name ignoring case. */
  predicate TitleMatches(title: string, formName: string) {
    Lower(title) == Lower(formName) || Contains(Lower(title), Lower(formName))
  }

  function TitleMatchesP(formName: string): FormInfo -> bool {
    (f: FormInfo) => TitleMatches(f.title, formName)
  }

  /** The equality test is subsumed by the containment test. */
  lemma TitleMatchIsContainment(title: string, formName: string)
    ensures TitleMatches(title, formName) <==> Contains(Lower(title), Lower(formName))
  {
    ContainsSelf(Lower(title));
  }

  /** Known page paths, each sending its submissions to form 17. */
  const UrlFormTable: seq<(string, string)> := [
    ("/see-how-it-works/", "17"), ("/contact/", "17"), ("/request-demo/", "17")]

  function UrlRowP(path: string): ((string, string)) -> bool {
    (row: (string, string)) => Contains(path, row.0)
  }

  /** The sources tried in order, each `None` when it does not apply. */
  function FromFormData(formData: Assoc<string>): Option<string> {
    match FirstIndex(formData, FormIdEntryP())
    case Some(i) => Some(formData[i].1)
    case None => None
  }

  /** `forms` is `None` when Ninja Forms is not active. */
  function FromTitle(formName: string, forms: Option<seq<FormInfo>>): Option<string> {
    if PhpEmpty(formName) || forms.None? then None
    else match FirstIndex(forms.value, TitleMatchesP(formName))
      case Some(i) => Some(forms.value[i].id)
      case None => None
  }

  /** `urlPath` stands for `parse_url($url, PHP_URL_PATH)`, '' when the URL has no path. */
  function FromUrl(currentUrl: string, urlPath: string -> string): Option<string> {
    if PhpEmpty(currentUrl) then None
    else match FirstIndex(UrlFormTable, UrlRowP(urlPath(currentUrl)))
      case Some(i) => Some(UrlFormTable[i].1)
      case None => None
  }

  function FromSingleMapping(mappings: seq<Mapping>): Option<string> {
    if |mappings| == 1 then Some(mappings[0].formId) else None
  }

  /** The detected form id: the first source that applies, else ''. */
  function DetectedFormId(formData: Assoc<string>, formName: string, currentUrl: string,
                          forms: Option<seq<FormInfo>>, urlPath: string -> string, mappings: seq<Mapping>): (r: string)
    ensures FromFormData(formData).Some? ==> r == FromFormData(formData).value
    ensures FromFormData(formData).None? && FromTitle(formName, forms).Some? ==> r == FromTitle(formName, forms).value
    ensures FromFormData(formData).None? && FromTitle(formName, forms).None? && FromUrl(currentUrl, urlPath).Some? ==> r == "17"
    ensures FromFormData(formData).None? && FromTitle(formName, forms).None? && FromUrl(currentUrl, urlPath).None? ==>
              r == (if |mappings| == 1 then mappings[0].formId else "")
  {
    if FromFormData(formData).Some? then FromFormData(formData).value
    else if FromTitle(formName, forms).Some? then FromTitle(formName, forms).value
    else if FromUrl(currentUrl, urlPath).Some? then FromUrl(currentUrl, urlPath).value
    else if FromSingleMapping(mappings).Some? then FromSingleMapping(mappings).value
    else ""
  }

  /** The detected id always comes from somewhere: a form-data value, a form's id, the URL
      table, the single mapping, or it is ''. */
  lemma DetectedFormIdOrigin(formData: Assoc<string>, formName: string, currentUrl: string,
                             forms: Option<seq<FormInfo>>, urlPath: string -> string, mappings: seq<Mapping>)
    ensures var r := DetectedFormId(formData, formName, currentUrl, forms, urlPath, mappings);
            (exists i :: 0 <= i < |formData| && FormIdEntry(formData[i]) && r == formData[i].1) ||
            (forms.Some? && exists i :: 0 <= i < |forms.value| && r == forms.value[i].id) ||
            r == "17" || (|mappings| == 1 && r == mappings[0].formId) || r == ""
  {
    if FromFormData(formData).None? && FromTitle(formName, forms).None? && FromUrl(currentUrl, urlPath).Some? {
      var i := FirstIndex(UrlFormTable, UrlRowP(urlPath(currentUrl))).value;
      assert UrlFormTable[i].1 == "17";
    }
  }

  /** `ga4_to_nutshell_detect_form_id`, with the Ninja Forms list, the URL path parser and the
      stored form-to-user mappings passed in. */
  method DetectFormId(formData: Assoc<string>, formName: string, currentUrl: string,
                      forms: Option<seq<FormInfo>>, urlPath: string -> string, mappings: seq<Mapping>)
    returns (r: string)
    ensures r == DetectedFormId(formData, formName, currentUrl, forms, urlPath, mappings)
  {
    for i := 0 to |formData|
      invariant forall k :: 0 <= k < i ==> !FormIdEntry(formData[k])
    {
      var (key, value) := formData[i];
      if (key == "form_id" || key == "formId") && !PhpEmpty(value) {
        assert FromFormData(formData) == Some(value);
        return value;
      }
    }
    assert FromFormData(formData) == None;

    if !PhpEmpty(formName) && forms.Some? {
      var list := forms.value;
      for i := 0 to |list|
        invariant forall k :: 0 <= k < i ==> !TitleMatches(list[k].title, formName)
      {
        var title := list[i].title;
        if Lower(title) == Lower(formName) || Contains(Lower(title), Lower(formName)) {
          assert FromTitle(formName, forms) == Some(list[i].id);
          return list[i].id;
        }
      }
    }
    assert FromTitle(formName, forms) == None;

    if !PhpEmpty(currentUrl) {
      var path := urlPath(currentUrl);
      for i := 0 to |UrlFormTable|
        invariant forall k :: 0 <= k < i ==> !Contains(path, UrlFormTable[k].0)
      {
        var (urlPrefix, formId) := UrlFormTable[i];
        if Contains(path, urlPrefix) {
          assert FromUrl(currentUrl, urlPath) == Some(formId);
          return formId;
        }
      }
    }
    assert FromUrl(currentUrl, urlPath) == None;

    if |mappings| == 1 {
      return mappings[0].formId;
    }
    return "";
  }

  // ----- assigned user -----

  function FormMatchesP(wp: Helpers, formId: string): Mapping -> bool {
    (m: Mapping) => wp.looseEquals(m.formId, formId)
  }

  /** The user a submission is assigned to: a caller-supplied non-empty user is kept; otherwise,
      for a non-empty form id, the user of the first mapping whose form id equals it (PHP `==`). */
  function AssignedUser(wp: Helpers, mappings: seq<Mapping>, formId: string, given: string): (r: string)
    ensures !PhpEmpty(given) ==> r == given
    ensures PhpEmpty(formId) ==> r == given
    ensures (forall i :: 0 <= i < |mappings| ==> !wp.looseEquals(mappings[i].formId, formId)) ==> r == given
    ensures !PhpEmpty(formId) && PhpEmpty(given) && (exists i :: 0 <= i < |mappings| && wp.looseEquals(mappings[i].formId, formId)) ==>
              exists i :: 0 <= i < |mappings| && wp.looseEquals(mappings[i].formId, formId) && r == mappings[i].userId &&
                          forall j :: 0 <= j < i ==> !wp.looseEquals(mappings[j].formId, formId)
    ensures r != given ==>
              exists i :: 0 <= i < |mappings| && wp.looseEquals(mappings[i].formId, formId) && r == mappings[i].userId &&
                          forall j :: 0 <= j < i ==> !wp.looseEquals(mappings[j].formId, formId)
  {
    if !PhpEmpty(formId) && PhpEmpty(given) then
      match FirstIndex(mappings, FormMatchesP(wp, formId))
      case Some(i) => mappings[i].userId
      case None => given
    else given
  }

  /** The lookup loop of `ga4_to_nutshell_send_to_nutshell` (first match, then `break`). */
  method FindAssignedUser(wp: Helpers, mappings: seq<Mapping>, formId: string, given: string) returns (r: string)
    ensures r == AssignedUser(wp, mappings, formId, given)
  {
    r := given;
    if !PhpEmpty(formId) && PhpEmpty(given) {
      var i := 0;
      while i < |mappings|
        invariant 0 <= i <= |mappings|
        invariant forall k :: 0 <= k < i ==> !wp.looseEquals(mappings[k].formId, formId)
      {
        if wp.looseEquals(mappings[i].formId, formId) {
          assert FirstIndex(mappings, FormMatchesP(wp, formId)) == Some(i);
          r := mappings[i].userId;
          break;
        }
        i := i + 1;
      }
    }
  }
}
