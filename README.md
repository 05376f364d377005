# ga4-to-nutshell in Dafny

A model of the decision logic of the WordPress plugin *GA4 to Nutshell CRM*. The plugin forwards
website form submissions (Ninja Forms, and form events pushed to the GA4 `dataLayer`) to the
Nutshell CRM as a contact and a lead. The model covers the data shaping between the form plugins
and the Nutshell API:

- `ContactExtraction`: the contact record (name, email, phone, company, address, country) taken
  from a loosely keyed form-data map. It uses configured field mappings (exact key first, then the
  first partial key with a value) or keyword patterns, then an email check with a fallback scan,
  and the name defaults to the email.
- `FormRouting`: the form-id fallback chain and the form → user mapping lookup.
- `NutshellRequests`: the new-contact and new-lead payloads, the search-or-create exchange, and the
  whole `ga4_to_nutshell_send_to_nutshell` over the replies it receives.
- `SettingsValidation`: `ga4_to_nutshell_validate_settings` (both mapping shapes, the field
  mappings, the defaults) and its re-validation behaviour.
- `Diagnostics`: the error recovery suggestion, the API response classification, and the log gate
  and truncation.
- `PluginHandlers`: the server-side Ninja Forms submission hook, the front-end AJAX endpoint and
  the two admin AJAX endpoints of the main plugin class.
- `TrafficSource`: the browser-side traffic source/medium classifier.
- `ClientForms`: the browser-side event field fallbacks, the Ninja Forms response and form element
  flattening, and the client-side mapping lookup.

Shared modules:

- `Wrappers`: `Option`, `Result` and first-match search.
- `Text`: PHP `empty`, JavaScript truthiness, substring tests, ASCII lower case and joining.
- `Assoc`: ordered key/value arrays in which a write to an existing key overwrites it in place and
  a new key is appended. It proves that the last write wins, including for loops that write a few
  keys per item (`FlatWrites`).
- `JsonValue`: decoded JSON.
- `WordPress`: the WordPress helpers `sanitize_text_field`, `sanitize_email`, `is_email`,
  `esc_html`, `esc_url_raw`, and PHP's loose `==` on strings. These are uninterpreted function
  values passed in as a `Helpers` record.

The source's loops are methods proved equal to a specification function. The properties the
plugin promises are proved about those functions as lemmas and postconditions.

## Model

| member | source | states |
|---|---|---|
| ContactExtraction.MappedValue | includes/ajax-handler.php:411-441 | a mapped id finds the exact form key first (its value sanitised); otherwise the first entry with a non-empty value whose key contains the id; otherwise nothing |
| ContactExtraction.MappingModeStep | includes/ajax-handler.php:398-443 | one mapping row updates only its contact field, and only when its id is non-empty and a value is found |
| ContactExtraction.MappingWritesLast | includes/ajax-handler.php:398-443 | with distinct contact fields, the last write to a field is the value found for its own mapped id |
| ContactExtraction.MappedField | includes/ajax-handler.php:398-443 | in mapping mode each contact field holds the value found for its mapped id, and unmatched fields stay '' |
| ContactExtraction.ValidatedEmail | includes/ajax-handler.php:483-503 | a pattern-found email passing `is_email` is kept; otherwise the result is `sanitize_email` of the first form value passing `is_email`, or '' when none does |
| ContactExtraction.PatternModeStep | includes/ajax-handler.php:450-481 | one pattern row fills its field from the first entry whose lower-cased key contains one of its patterns |
| ContactExtraction.PatternWritesLast | includes/ajax-handler.php:450-481 | with distinct fields, a field's last write is the value its own patterns find |
| ContactExtraction.PatternWritesOnlyTableKeys | includes/ajax-handler.php:450-481 | pattern mode writes no field outside the pattern table |
| ContactExtraction.PatternFoundValue | includes/ajax-handler.php:450-481 | after pattern mode a field holds the first matching value, or '' when none matches |
| ContactExtraction.FieldPatternsUnique | includes/ajax-handler.php:449-456 | the pattern table names each contact field once; email comes first; every field starts as '' |
| ContactExtraction.PatternField | includes/ajax-handler.php:450-481 | each contact field is filled from at most one entry: the first, in form-data order, with a non-empty value and a key containing one of its patterns |
| ContactExtraction.PatternEmailChecked | includes/ajax-handler.php:483-503 | in pattern mode the final email is the found email if it passes `is_email`, else the fallback scan's value |
| ContactExtraction.Finish | includes/ajax-handler.php:510-522 | null iff the email is empty; otherwise the name is non-empty (the email when it was empty) and every other field is unchanged |
| ContactExtraction.ContactHasAllFields | includes/ajax-handler.php:385-392 | the extracted record keeps every field of the initial record |
| ContactExtraction.FirstPatternMatch | includes/ajax-handler.php:459-479 | the scan over the form data returns the first entry that matches a pattern list |
| ContactExtraction.ExtractByMappings | includes/ajax-handler.php:398-443 | the mapping loop computes the mapping-mode contact |
| ContactExtraction.ExtractByPatterns | includes/ajax-handler.php:450-503 | the pattern loops and the email check compute the pattern-mode contact |
| ContactExtraction.EmailStepsAgree | includes/ajax-handler.php:483-503 | the in-place email clearing and rescan give the validated email |
| ContactExtraction.ExtractContact | includes/ajax-handler.php:377-523 | the extraction returns the finished contact; a returned contact has a non-empty email and a non-empty name |
| ContactExtraction.MappingModeContact | includes/ajax-handler.php:398-443 | the mapping-mode record: the initial record with each mapping row's found value written in turn (its properties are MappingModeStep, MappingWritesLast and MappedField) |
| ContactExtraction.PatternModeContact | includes/ajax-handler.php:450-503 | the pattern-mode record: the pattern rows' writes, then the email replaced by the validated email (its properties are PatternField and PatternEmailChecked) |
| ContactExtraction.ExtractedContact | includes/ajax-handler.php:393-503 | mapping mode when the form id is non-empty and has field mappings, pattern mode otherwise (every field of the initial record is present, ContactHasAllFields) |
| FormRouting.TitleMatchIsContainment | includes/ajax-handler.php:552-555 | the case-insensitive title test is the same as case-insensitive containment |
| FormRouting.DetectedFormId | includes/ajax-handler.php:527-599 | the form id comes from the first source that applies: a `form_id`/`formId` value, a title match, the URL table, the single mapping; '' otherwise |
| FormRouting.DetectedFormIdOrigin | includes/ajax-handler.php:527-599 | a detected id is a form-data value, a form's id, "17" from the URL table, the single mapping's form id, or '' |
| FormRouting.DetectFormId | includes/ajax-handler.php:527-599 | the loops with early returns compute the detected form id |
| FormRouting.AssignedUser | includes/ajax-handler.php:112-126 | a non-empty caller-supplied user is never replaced; an empty one takes the user of the first mapping whose form id equals the form id (PHP `==`) |
| FormRouting.FindAssignedUser | includes/ajax-handler.php:112-126 | the loop with `break` computes the assigned user |
| NutshellRequests.ContactDataFor | includes/ajax-handler.php:289-325 | the contact payload has the name and email; phone numbers iff the phone is non-empty; an address iff the address or the country is non-empty, the country joining the existing address |
| NutshellRequests.BuildContactData | includes/ajax-handler.php:289-325 | building `$contact_data` field by field gives the contact payload |
| NutshellRequests.LeadFor | includes/ajax-handler.php:156-187 | the lead names the contact and the source "Website"; the note gains a Country line iff the country is non-empty; `assignees` is present iff the user id is non-empty |
| NutshellRequests.BuildLead | includes/ajax-handler.php:156-187 | building `$lead` field by field gives the lead payload |
| NutshellRequests.CreationOutcome | includes/ajax-handler.php:349-370 | a creation reply is a connection error; with an `error` member, an `api_error` whose message is "Nutshell API error: " followed by `error.message`; otherwise `result.id` (null when `result` or its `id` is not set) |
| NutshellRequests.SearchHit | includes/ajax-handler.php:279-283 | a search reply reports a contact iff its `result` is set and non-empty; the contact is the id of its first element (FindOrCreateContact states the exchange over it) |
| NutshellRequests.FindOrCreateContact | includes/ajax-handler.php:237-371 | the search request is always sent first; a hit returns its id with no creation; a miss sends exactly one `newContact` with the contact payload |
| NutshellRequests.ExistingContactIgnoresCreation | includes/ajax-handler.php:279-283 | when the search finds a contact, the creation reply makes no difference |
| NutshellRequests.PreparedSubmission | includes/ajax-handler.php:99-133 | a submission goes ahead iff the contact extracted for the resolved form id has a non-empty email; it then carries the resolved form id, the assigned user and the finished contact (non-empty email and name); otherwise `invalid_contact` |
| NutshellRequests.ResolvedFormId | includes/ajax-handler.php:107-110 | a non-empty given form id is kept; an empty one is replaced by the detected form id |
| NutshellRequests.SendToNutshell | includes/ajax-handler.php:99-232 | without a valid contact, `invalid_contact` and no request sent; otherwise the contact exchange, then one `newLead` built from the contact id, and the lead reply's outcome |
| SettingsValidation.ParallelCandidates | includes/admin-functions.php:59-63 | the parallel arrays give one pair per index below the shorter length |
| SettingsValidation.KeptMappings | includes/admin-functions.php:59-88 | the kept mappings in input order (characterised by KeptMappingsMembers and KeptMappingsBounded) |
| SettingsValidation.KeptMappingsMembers | includes/admin-functions.php:59-88 | a mapping is kept iff both sides are set and non-empty, sanitised, in input order |
| SettingsValidation.KeptMappingsBounded | includes/admin-functions.php:59-88 | no more mappings come out than go in, and all are kept iff all have both sides |
| SettingsValidation.ValidateMappings | includes/admin-functions.php:54-89 | the loops over either input shape compute the kept mappings; the output list is always present |
| SettingsValidation.FieldWritesLast | includes/admin-functions.php:98-102 | a target is kept, sanitised, iff it is non-empty |
| SettingsValidation.FormWritesLast | includes/admin-functions.php:92-104 | each input form key appears in the output, with its filtered targets |
| SettingsValidation.FormWritesLastWrite | includes/admin-functions.php:92-104 | the last write to a form key is its filtered targets, and there is none for a key not in the input |
| SettingsValidation.FieldMappingsKept | includes/admin-functions.php:92-104 | a form key is in the output iff it is in the input; a target is in the output iff it was non-empty |
| SettingsValidation.FilteredFieldsStep | includes/admin-functions.php:98-102 | one target row adds its sanitised value only when it is non-empty |
| SettingsValidation.FilterFieldRow | includes/admin-functions.php:98-102 | the inner loop computes the filtered targets of one form |
| SettingsValidation.ValidateFieldMappings | includes/admin-functions.php:92-104 | the nested loops compute the field mappings output |
| SettingsValidation.ValidateSettings | includes/admin-functions.php:33-107 | the whole validation computes the validated settings: debug_mode is on iff the key is present; the form types and event triggers take their defaults when missing or not a list; field mappings are present iff the input has a table |
| SettingsValidation.Validated | includes/admin-functions.php:33-107 | the settings array the filter returns, field by field (its re-validation is characterised by AsWrittenRevalidation) |
| SettingsValidation.MappingItems | includes/admin-functions.php:78-88 | stored mappings are read back as list-shape items, one per mapping |
| SettingsValidation.AsWrittenRevalidationEnablesDebug | includes/admin-functions.php:41 | re-validating stored settings with debug off turns debug on under the `isset` rule |
| SettingsValidation.DebugRulesAgreeOnFormInput | includes/admin-functions.php:41 | on what the settings form submits (checkbox absent or "1") the `isset` rule and the corrected rule agree |
| SettingsValidation.FormWritesKeys | includes/admin-functions.php:92-104 | one write per input form key, in input order, with its filtered targets |
| SettingsValidation.ScalarStable | includes/admin-functions.php:37-38 | given an idempotent sanitiser that leaves '' alone, re-sanitising a stored credential gives it back |
| SettingsValidation.ListStable | includes/admin-functions.php:44-48 | given an idempotent sanitiser that leaves the defaults alone, re-validating a stored form-type or event-trigger list gives it back |
| SettingsValidation.KeptMappingsSanitized | includes/admin-functions.php:68-72 | given an idempotent sanitiser, both sides of every stored mapping are already sanitised |
| SettingsValidation.RereadMappings | includes/admin-functions.php:78-88 | sanitised mappings read back through the list branch: those with a blank side are dropped, the rest kept in order |
| SettingsValidation.FieldWritesValues | includes/admin-functions.php:98-102 | given an idempotent sanitiser, every stored target is already sanitised and belongs to an input field |
| SettingsValidation.FilteredFieldsStored | includes/admin-functions.php:95-102 | a filtered row holds distinct fields with already sanitised targets |
| SettingsValidation.RefilterFields | includes/admin-functions.php:98-102 | already sanitised targets filtered again: exactly the empty ones ('' or '0') are dropped |
| SettingsValidation.FilteredFieldsTwice | includes/admin-functions.php:98-102 | filtering a stored row again drops exactly its blank targets |
| SettingsValidation.FieldMappingsStored | includes/admin-functions.php:92-104 | the field-mappings output has distinct forms, distinct fields per form and sanitised targets |
| SettingsValidation.RefilterTable | includes/admin-functions.php:92-104 | a stored table validated again keeps every form, each row minus its blank targets |
| SettingsValidation.NonBlankTableStored | includes/admin-functions.php:92-104 | dropping blank targets keeps a table's distinct forms, distinct fields and sanitised targets |
| SettingsValidation.NonBlankMappings | includes/admin-functions.php:59-88 | the corrected mapping rule: exactly the mappings with no empty side (PHP `empty`) |
| SettingsValidation.NonBlankFields | includes/admin-functions.php:98-102 | the corrected target rule: exactly the targets that are not empty (PHP `empty`) |
| SettingsValidation.NonBlankFieldsUnique | includes/admin-functions.php:98-102 | dropping blank targets keeps the fields distinct |
| SettingsValidation.ValidatedCorrected | includes/admin-functions.php:33-107 | the corrected validation: debug on iff the key holds a non-empty value, and no stored mapping has an empty side |
| SettingsValidation.CorrectedMappingsMembers | includes/admin-functions.php:59-88 | under the corrected rule a mapping is stored iff some candidate has both sides set and both sanitised sides non-empty |
| SettingsValidation.AsWrittenBlankMappingDropped | includes/admin-functions.php:80-85 | as written, a mapping with form id " " is stored as ("", "u"), and a second validation drops it |
| SettingsValidation.AsWrittenRevalidation | includes/admin-functions.php:33-107 | as written, a second validation turns debug on and drops exactly the mappings and targets that sanitising left blank |
| SettingsValidation.RevalidationIsIdentity | includes/admin-functions.php:33-107 | under the corrected rules and an idempotent sanitiser, validating validated settings gives them back |
| Diagnostics.SuggestionIsFirstApplicableRule | includes/admin-functions.php:473-534 | the suggestion is the text of the first rule, in priority order, that applies |
| Diagnostics.RecoverySuggestion | includes/admin-functions.php:473-534 | the keyword checks in source order (characterised by SuggestionIsFirstApplicableRule and DefaultIffNothingMatches) |
| Diagnostics.AuthTakesPrecedence | includes/admin-functions.php:477-484 | authentication keywords or the `auth_error` code win over every other category |
| Diagnostics.NotFoundFallsThrough | includes/admin-functions.php:505-514 | "not found" with a context naming no contact, account or user falls through to the later rules |
| Diagnostics.MissingSuffixMissingWhole | includes/admin-functions.php:505-514 | a string without a keyword's tail ("found") cannot contain the keyword ("not found"), so the fall-through case is the only one left |
| Diagnostics.DefaultIffNothingMatches | includes/admin-functions.php:473-534 | the default text is returned exactly when no category matches |
| Diagnostics.HandleApiResponse | includes/admin-functions.php:408-464 | a transport error gives `api_request_failed`; a non-2xx status gives `api_http_error`; an undecodable 2xx body gives `api_invalid_json` with the decoder's reason; a body `error` gives an error with its code (default `api_error`), its data, and its message followed by the recovery suggestion; otherwise the decoded body |
| Diagnostics.StatusCheckedBeforeBody | includes/admin-functions.php:420-427 | with a non-2xx status the body makes no difference |
| Diagnostics.ShouldLogIff | includes/admin-functions.php:256-264 | a message is written iff debug mode is on or the level is error or warning |
| Diagnostics.ShouldLog | includes/admin-functions.php:256-269 | both gates of the logger; ShouldLogIff shows the second never rejects what the first lets through |
| Diagnostics.IsNinjaFormsData | includes/admin-functions.php:278-281 | an array is summarised as Ninja Forms data iff the message names Ninja Forms or the data has `response.data.form_id` |
| Diagnostics.DataText | includes/admin-functions.php:274-316 | the data part of a log line: the Ninja Forms summary, a truncated dump, or the scalar (bounded by LoggedDumpBounded) |
| Diagnostics.Truncated | includes/admin-functions.php:304-309 | dumps over 10000 characters keep their first 10000 followed by "... [truncated]"; shorter ones are unchanged (the source counts bytes, see "Left out") |
| Diagnostics.LogLine | includes/admin-functions.php:251-330 | a line is written iff the gate passes, and it starts with the timestamp, level and message |
| Diagnostics.LoggedDumpBounded | includes/admin-functions.php:278-309 | a non-Ninja data dump is at most 10000 characters plus the marker, and ends with the marker when it was cut (characters, not bytes) |
| PluginHandlers.NinjaFieldWritesKey | ga4-to-nutshell.php:554-573 | one field writes under a name iff it is a data field with that id or key, and writes its value |
| PluginHandlers.FlattenedFields | ga4-to-nutshell.php:554-573 | the flattened submission fields (characterised by FlattenStep, FlattenedKeys and FlattenedFieldStored) |
| PluginHandlers.FlattenStep | ga4-to-nutshell.php:554-573 | a layout field adds nothing; a data field writes its value under its id, then under its key |
| PluginHandlers.FlattenedKeys | ga4-to-nutshell.php:554-573 | a name is in the flattened map iff some non-layout field has it as id or key; html, submit, hr and divider fields contribute nothing |
| PluginHandlers.FlattenedFieldStored | ga4-to-nutshell.php:561-565 | a data field's value (default '') is stored under its id and its key (default the id) unless a later field writes that name |
| PluginHandlers.MappedUser | ga4-to-nutshell.php:537-549 | the user of the first mapping whose form id equals the form id; '' with no match or no mapping list |
| PluginHandlers.RefererHost | ga4-to-nutshell.php:582-588 | the referrer's host; '' without a referrer or a host |
| PluginHandlers.ProcessNinjaFormSubmission | ga4-to-nutshell.php:523-621 | the title defaults to "Ninja Form " + id; the user, the flattened fields and the traffic source are as above |
| PluginHandlers.RequestFrom | ga4-to-nutshell.php:656-662 | `formData` is passed on unchanged when set and is an empty array otherwise; `formId`, `formName`, `trafficSource` and `assignedUserId` are `sanitize_text_field` of their value and `referrerUrl`, `currentUrl` are `esc_url_raw` of theirs, each '' when not set |
| PluginHandlers.TextMember | ga4-to-nutshell.php:657-662 | a request field is '' when not set, otherwise its cleaned text |
| PluginHandlers.JsonFalsy | ga4-to-nutshell.php:646-650 | PHP falsiness of the decoded payload: null, '', "0", an empty array |
| PluginHandlers.AjaxGuards | ga4-to-nutshell.php:631-662 | rejection order: bad nonce, then empty data, then undecodable JSON; the request goes on iff all three pass |
| PluginHandlers.ProcessAjaxData | ga4-to-nutshell.php:625-699 | the guard answer, or the send's error message, or the success answer with the lead id |
| PluginHandlers.TestConnection | ga4-to-nutshell.php:796-857 | nonce, capability and credentials are checked first; with credentials: an unreachable server gives its transport message, an `error` member gives `error.message`, a `result` gives success, and neither gives "Invalid response from Nutshell API. Please check your credentials." |
| PluginHandlers.TestConnectionErrorFirst | ga4-to-nutshell.php:844-853 | a body with both `error` and `result` is reported as an error |
| PluginHandlers.ListedFields | ga4-to-nutshell.php:887-900 | the listed fields are exactly the form's fields whose type is not submit, html, hr, heading or divider |
| PluginHandlers.GetFormFields | ga4-to-nutshell.php:859-907 | nonce, capability, empty form id and inactive Ninja Forms are rejected in that order; otherwise the filtered field list or the load error |
| PluginHandlers.HeadingListedDifferently | ga4-to-nutshell.php:554-573 | in any lists, a heading field is never in the admin field list, while a submitted heading field is flattened under its id |
| TrafficSource.InferredMedium | assets/js/integration.js:784-802 | a `utm_source` gives "organic" iff it is a known search engine, "social" iff a known network, '' otherwise, ignoring case |
| TrafficSource.DirectNotInferred | assets/js/integration.js:784-802 | the source "direct" infers no medium |
| TrafficSource.ClassifyHost | assets/js/integration.js:806-846 | the referrer host takes the first rule that matches (google, bing, facebook/fb.com, twitter/x.com, linkedin), else it is the source with medium "referral" |
| TrafficSource.Classified | assets/js/integration.js:752-856 | a `utm_medium` is never overwritten; `utm_source` wins as source, and without `utm_medium` its medium is the inferred one ("direct" for the source "direct"); without `utm_source` a parsed referrer host gives exactly the host classification (unless `utm_medium` is set); with neither, a gtag value other than "direct" is the source with an empty medium, else the result is "direct"/"direct" |
| TrafficSource.ReferrerIgnoredWithUtmSource | assets/js/integration.js:806-850 | with a `utm_source`, the referrer and its parsing make no difference |
| TrafficSource.InferenceIgnoresCase | assets/js/integration.js:784-802 | without `utm_medium`, two sources equal up to case give the same medium |
| TrafficSource.UnknownSourceNoMedium | assets/js/integration.js:784-802 | an unrecognised `utm_source` with no `utm_medium` leaves the medium empty |
| TrafficSource.GoogleRuleFirst | assets/js/integration.js:812-826 | any host containing "google" is classified as Google, whatever later rules it also matches |
| TrafficSource.GoogleBeforeFacebook | assets/js/integration.js:812-826 | a host naming both Google and Facebook is classified as Google |
| TrafficSource.ClassifyReferrerHost | assets/js/integration.js:806-846 | the if-chain computes the host classification |
| TrafficSource.GetTrafficSource | assets/js/integration.js:752-856 | the step-by-step updates of `source` and `medium` compute the classification |
| ClientForms.OrElse | assets/js/integration.js:440-443 | a `||` chain yields its first truthy alternative, else the last |
| ClientForms.ObjectData | assets/js/integration.js:457-465 | the form data is `formData` if it is an object, else `form_data` if it is one, else an empty object |
| ClientForms.BookDemoDispatch | assets/js/integration.js:453-474 | a demo booking always dispatches an object as form data and a truthy name and type |
| ClientForms.FormSubmissionDispatch | assets/js/integration.js:432-448 | a generic event always dispatches a truthy form name and type |
| ClientForms.NinjaEventData | assets/js/integration.js:503-515 | the Ninja event's data is `formData` if it is an object, else `form_data` if it is one, else the `fields` list folded into an object, else an empty object |
| ClientForms.NinjaEventDispatch | assets/js/integration.js:479-519 | a Ninja event dispatches object data, a truthy name and the type "ninja_forms" |
| ClientForms.EventFieldsValue | assets/js/integration.js:509-514 | an entry of `fields` with a truthy id and a defined value leaves that value under its id unless a later entry writes the same id |
| ClientForms.Either | assets/js/integration.js:440-443 | the two-way fallback is the `||` chain |
| ClientForms.CollectEventFields | assets/js/integration.js:509-514 | the loop over `fields` computes the flattened event data |
| ClientForms.HandleNinjaFormSubmission | assets/js/integration.js:479-519 | the handler computes the Ninja event dispatch |
| ClientForms.DataLayerDispatch | assets/js/integration.js:432-448 | an event is handled iff it is `book_a_demo`, `ninjaFormSubmission` or `form_submission` |
| ClientForms.IdSpellingPreference | assets/js/integration.js:453-519 | for any event carrying truthy `formId` and `form_id`, the demo and generic handlers take `formId` and the Ninja handler takes `form_id` |
| ClientForms.FormDataObjectTest | assets/js/integration.js:453-474 | for any event whose `formData` is truthy but not an object, the generic handler passes it on and the demo handler does not |
| ClientForms.ResponseFieldWritesKey | assets/js/integration.js:535-555 | one response field writes a name iff it is a data field with an id and the name is its id, key or label |
| ClientForms.ResponseDataKeys | assets/js/integration.js:535-555 | a name is in the flattened response iff some data field with an id writes it; layout fields and fields without an id contribute nothing |
| ClientForms.ResponseDataValue | assets/js/integration.js:535-555 | a field's value is stored under a name it writes unless a later field writes that name |
| ClientForms.ResponseData | assets/js/integration.js:524-559 | the response fields folded into an object, empty without a field list (characterised by ResponseDataKeys and ResponseDataValue) |
| ClientForms.RecordResponseField | assets/js/integration.js:538-554 | one loop step writes the field's value under id, then key, then label |
| ClientForms.ExtractNinjaFormsData | assets/js/integration.js:524-559 | the loop computes the flattened response |
| ClientForms.SelectedValues | assets/js/integration.js:593-598 | exactly the values of the selected options |
| ClientForms.UnnamedOrButtonRecordsNothing | assets/js/integration.js:575-586 | an element with neither name nor id, or a submit/button whose name contains neither "email" nor "name", records nothing |
| ClientForms.SelectMultipleJoined | assets/js/integration.js:592-599 | a multiple select records its selected values joined by ", " |
| ClientForms.UncheckedNotRecorded | assets/js/integration.js:588-591 | an unchecked checkbox or radio writes nothing under its own name (its label text still receives its value) |
| ClientForms.FormDataValue | assets/js/integration.js:570-609 | the flattened form holds, for each name, the last element's write to it (its name or id, then its label text) |
| ClientForms.FormData | assets/js/integration.js:564-613 | the form's controls folded into an object, empty without a form (characterised by FormDataValue) |
| ClientForms.CollectSelected | assets/js/integration.js:593-598 | the option loop collects the selected values |
| ClientForms.RecordElement | assets/js/integration.js:572-608 | one loop step performs the element's writes |
| ClientForms.ExtractFormData | assets/js/integration.js:564-613 | the loop over the elements computes the flattened form |
| ClientForms.ClientAssignedUser | assets/js/integration.js:680-693 | the user of the first mapping whose `form_id` equals the form id; '' with no match or no mapping list |
| ClientForms.FindClientAssignedUser | assets/js/integration.js:680-693 | the scan with `break` computes the client-side assigned user |

## Left out

- HTTP and transport: `wp_remote_request`, `fetch`, the JSON-RPC 2.0 envelopes and the HTTP Basic
  `Authorization` header. Replies come in already decoded (`Reply`, `ApiResponse`). An undecodable
  body is modelled as null.
- WordPress runtime: `get_option`, hooks, `wp_send_json_*` and `admin_url` are left out. Nonce
  checks and `current_user_can` become boolean inputs. `sanitize_*`, `is_email`, `esc_*` and
  `parse_url` are uninterpreted functions. `Ninja_Forms()` lookups become input lists.
- `$_SERVER`: the current URL and the referrer are parameters.
- `print_r`, and the contents of the Ninja Forms summary in the log, are uninterpreted functions.
  The log file write, `error_log`, the timestamp source and `ga4_to_nutshell_display_logs` are
  left out.
- Values: form values, ids and user ids are strings. PHP integer array keys, JavaScript numbers
  and booleans are carried as text, so the falsiness of a numeric id 0 is not modelled.
- The model keeps JavaScript objects in insertion order; JavaScript enumerates integer-like keys
  first, in ascending order.
- SettingsValidation.ValidateMappings: the parallel `form_ids`/`user_ids` input is taken to be two
  lists. Non-array values, which PHP would index with warnings, are not modelled.
- NutshellRequests.FindOrCreateContact: a search `result` that is a non-empty scalar rather than
  a list counts as no hit. In the source, `count(...)` at includes/ajax-handler.php:279 throws a
  TypeError under PHP 8 for such a value; the model does not capture that exception.
- Error messages that are arrays rather than strings are not modelled.
- The copy of the AJAX handler at includes/ajax-handler.php:14-94 duplicates `process_ajax_data`
  and is not registered. Only the main plugin class's handler is modelled.
- Browser glue: DOM and event wiring, the `dataLayer.push` override, the plugin listeners, the
  `setTimeout`/`Date.now()` duplicate suppression, and assets/js/admin.js.
- TrafficSource.GetTrafficSource: models the source and medium computed up to
  assets/js/integration.js:856, not what callers receive. The function then calls
  `Object.defineProperty` on the source, which is a primitive string (lines 859-865). ECMAScript
  throws a TypeError when that call's first argument is not an object. So, read from the text,
  `getTrafficSource` never returns normally, and a `sendToNutshell` call without a traffic source
  (lines 695-697) throws before its request is sent. The model does not capture this exception.
- Diagnostics.Truncated and Diagnostics.LoggedDumpBounded count characters. PHP's `strlen` and
  `substr` at includes/admin-functions.php:307-308 count bytes, so for a dump with multibyte
  characters the source cuts at 10000 bytes, possibly inside a character, where the model cuts at
  10000 characters. Strings here are sequences of characters with no byte encoding.
- A null entry in the Ninja event's `fields`, which makes the browser code throw.
- Lower-casing (`strtolower`, `stripos`, `toLowerCase`) is ASCII only.
- Dead code: `processFormData` and `setupNinjaFormListeners`.
- Settings-page rendering, help tabs and test tools are UI.
- ClientForms.ClientAssignedUser: the form id comparison is `==` on strings. JavaScript's loose
  equality between a number and a string is not modelled.

## Findings

| source | as written | input that shows it | evidently intended | confidence | as-written member | corrected member |
|---|---|---|---|---|---|---|
| includes/admin-functions.php:41 | `debug_mode` is 1 whenever the key is set, and the stored settings hold the key with 0 when debug is off | validated settings with `debug_mode` 0, validated a second time. Validation is expected to be idempotent, and this input breaks that. No path in this source sends the stored settings back through the filter: line 108 filters the newly submitted value, and ga4-to-nutshell.php:129 registers no sanitize callback | debug stays off: `!empty(...)`, which agrees with the `isset` rule on everything the checkbox at ga4-to-nutshell.php:326-336 submits | not executed | SettingsValidation.AsWrittenRevalidationEnablesDebug | SettingsValidation.RevalidationIsIdentity |
| includes/admin-functions.php:68-72 | a mapping (and, at lines 99-100, a field target) is kept when its raw value is non-empty, and its sanitised value is stored | a mapping with form id " ": `sanitize_text_field` trims it to '', so ("", "u") is stored, and a second validation drops it. As with the row above, this breaks idempotence, but no path in this source re-validates stored settings | keep an entry only when its sanitised value is non-empty, so that nothing blank is stored | not executed | SettingsValidation.AsWrittenRevalidation | SettingsValidation.ValidatedCorrected |
