/** `ga4_to_nutshell_send_to_nutshell` and `ga4_to_nutshell_find_or_create_contact`: what is
    decided before any request, the payloads sent to Nutshell, and how each reply is read.
    The replies are inputs; the requests made are part of the result, in the order they are sent. */
module NutshellRequests {
  import opened Wrappers
  import opened Text
  import opened Assoc
  import opened WordPress
  import opened JsonValue
  import opened SettingsValidation
  import opened ContactExtraction
  import opened FormRouting
  import opened Diagnostics

  // ----- payloads -----

  datatype PostalAddress = PostalAddress(address1: Option<string>, country: Option<string>)

  /** The `contact` parameter of `newContact`. */
  datatype ContactData = ContactData(name: string, emails: seq<string>, phoneNumbers: Option<seq<string>>,
                                     address: Option<PostalAddress>)

  datatype Assignee = Assignee(entityType: string, id: string)

  /** The `lead` parameter of `newLead`. */
  datatype Lead = Lead(contacts: seq<Json>, note: string, description: string, sources: seq<string>,
                       assignees: Option<seq<Assignee>>)

  /** The requests the plugin sends, each a JSON-RPC call to the Nutshell API. */
  datatype Request = SearchContacts(query: string, limit: nat) | NewContact(contact: ContactData) | NewLead(lead: Lead)

  /** A reply: the transport failed, or the body was decoded (an undecodable body reads as null). */
  datatype Reply = Unreachable(message: string) | Replied(body: Json)

  function Field(c: Contact, k: string): string {
    Get(c, k).GetOr("")
  }

  /** The new-contact payload: name and email always; phone only when non-empty; an address
      when there is an address or a country, holding exactly the non-empty ones of the two. */
  function ContactDataFor(c: Contact): (d: ContactData)
    ensures d.name == Field(c, "name") && d.emails == [Field(c, "email")]
    ensures d.phoneNumbers.Some? <==> !PhpEmpty(Field(c, "phone"))
    ensures d.phoneNumbers.Some? ==> d.phoneNumbers.value == [Field(c, "phone")]
    ensures d.address.Some? <==> !PhpEmpty(Field(c, "address")) || !PhpEmpty(Field(c, "country"))
    ensures d.address.Some? ==>
              (d.address.value.address1.Some? <==> !PhpEmpty(Field(c, "address"))) &&
              (d.address.value.country.Some? <==> !PhpEmpty(Field(c, "country"))) &&
              d.address.value.address1.GetOr(Field(c, "address")) == Field(c, "address") &&
              d.address.value.country.GetOr(Field(c, "country")) == Field(c, "country")
  {
    var phone := if PhpEmpty(Field(c, "phone")) then None else Some([Field(c, "phone")]);
    var street := if PhpEmpty(Field(c, "address")) then None else Some(Field(c, "address"));
    var country := if PhpEmpty(Field(c, "country")) then None else Some(Field(c, "country"));
    var address := if street.None? && country.None? then None else Some(PostalAddress(street, country));
    ContactData(Field(c, "name"), [Field(c, "email")], phone, address)
  }

  /** `$contact_data` built step by step: the country goes into the address already built, or
      starts an address of its own. */
  method BuildContactData(c: Contact) returns (d: ContactData)
    ensures d == ContactDataFor(c)
  {
    d := ContactData(Field(c, "name"), [Field(c, "email")], None, None);
    if !PhpEmpty(Field(c, "phone")) {
      d := d.(phoneNumbers := Some([Field(c, "phone")]));
    }
    if !PhpEmpty(Field(c, "address")) {
      d := d.(address := Some(PostalAddress(Some(Field(c, "address")), None)));
    }
    if !PhpEmpty(Field(c, "country")) {
      if d.address.Some? {
        d := d.(address := Some(d.address.value.(country := Some(Field(c, "country")))));
      } else {
        d := d.(address := Some(PostalAddress(None, Some(Field(c, "country")))));
      }
    }
  }

  /** The four note lines every lead carries. */
  function LeadNote(wp: Helpers, formName: string, trafficSource: string, referrerUrl: string, currentUrl: string): string {
    "Lead created from " + wp.escHtml(formName) + " form submission.\n" +
    "Traffic source: " + wp.escHtml(trafficSource) + "\n" +
    "Referrer URL: " + wp.escHtml(referrerUrl) + "\n" +
    "Form URL: " + wp.escHtml(currentUrl)
  }

  /** The lead payload: the contact, the note (with a Country line only for a non-empty country),
      and assignees only for a non-empty user. */
  function LeadFor(wp: Helpers, contactId: Json, formName: string, trafficSource: string, referrerUrl: string,
                   currentUrl: string, c: Contact, assignedUserId: string): (lead: Lead)
    ensures lead.contacts == [contactId] && lead.sources == ["Website"]
    ensures lead.description == "Website form lead: " + wp.escHtml(formName)
    ensures PhpEmpty(Field(c, "country")) ==> lead.note == LeadNote(wp, formName, trafficSource, referrerUrl, currentUrl)
    ensures !PhpEmpty(Field(c, "country")) ==>
              lead.note == LeadNote(wp, formName, trafficSource, referrerUrl, currentUrl) + "\nCountry: " + wp.escHtml(Field(c, "country"))
    ensures lead.assignees.Some? <==> !PhpEmpty(assignedUserId)
    ensures lead.assignees.Some? ==> lead.assignees.value == [Assignee("Users", assignedUserId)]
  {
    var note := LeadNote(wp, formName, trafficSource, referrerUrl, currentUrl);
    var country := Field(c, "country");
    Lead([contactId],
         if PhpEmpty(country) then note else note + "\nCountry: " + wp.escHtml(country),
         "Website form lead: " + wp.escHtml(formName),
         ["Website"],
         if PhpEmpty(assignedUserId) then None else Some([Assignee("Users", assignedUserId)]))
  }

  /** `$lead` built step by step. */
  method BuildLead(wp: Helpers, contactId: Json, formName: string, trafficSource: string, referrerUrl: string,
                   currentUrl: string, c: Contact, assignedUserId: string) returns (lead: Lead)
    ensures lead == LeadFor(wp, contactId, formName, trafficSource, referrerUrl, currentUrl, c, assignedUserId)
  {
    lead := Lead([contactId], LeadNote(wp, formName, trafficSource, referrerUrl, currentUrl),
                 "Website form lead: " + wp.escHtml(formName), ["Website"], None);
    if !PhpEmpty(Field(c, "country")) {
      lead := lead.(note := lead.note + "\nCountry: " + wp.escHtml(Field(c, "country")));
    }
    if !PhpEmpty(assignedUserId) {
      lead := lead.(assignees := Some([Assignee("Users", assignedUserId)]));
    }
  }

  // ----- replies -----

  function ConnectionError(message: string): WpError {
    WpError("api_error", "Error connecting to Nutshell API: " + message, JNull)
  }

  /** `$j['id']`, null when it is not set. */
  function IdOf(j: Json): Json {
    if IsSet(j, "id") then Member(j, "id") else JNull
  }

  /** The contact a search reply reports: `result` non-empty, then the id of its first element. */
  function SearchHit(body: Json): Option<Json> {
    if !IsSet(body, "result") then None
    else match Member(body, "result")
      case JList(items) => if |items| > 0 then Some(IdOf(items[0])) else None
      case JObject(members) => if |members| > 0 then Some(IdOf(Get(members, "0").GetOr(JNull))) else None
      case _ => None
  }

  /** `$body['error']['message']`, '' when it is not set. */
  function ErrorMessageOf(body: Json): string
    requires IsSet(body, "error")
  {
    var info := Member(body, "error");
    if IsSet(info, "message") then PhpText(Member(info, "message")) else ""
  }

  /** A reply to `newContact` or `newLead`: its `error` member's message, or `result.id`. */
  function CreationOutcome(reply: Reply): (r: Result<Json, WpError>)
    ensures reply.Unreachable? ==> r == Failure(ConnectionError(reply.message))
    ensures reply.Replied? ==> (r.Failure? <==> IsSet(reply.body, "error"))
    ensures r.Failure? ==> r.error.code == "api_error"
    ensures reply.Replied? && IsSet(reply.body, "error") ==>
              r.error == WpError("api_error", "Nutshell API error: " + ErrorMessageOf(reply.body), JNull)
    ensures reply.Replied? && r.Success? ==>
              r.value == (if IsSet(reply.body, "result") then IdOf(Member(reply.body, "result")) else JNull)
  {
    match reply
    case Unreachable(message) => Failure(ConnectionError(message))
    case Replied(body) =>
      if IsSet(body, "error") then
        Failure(WpError("api_error", "Nutshell API error: " + ErrorMessageOf(body), JNull))
      else
        Success(if IsSet(body, "result") then IdOf(Member(body, "result")) else JNull)
  }

  /** `ga4_to_nutshell_find_or_create_contact`: search by email; the first hit's id, or else a
      `newContact` request built from the record. */
  function FindOrCreateContact(c: Contact, search: Reply, create: Reply): (out: (Result<Json, WpError>, seq<Request>))
    ensures |out.1| >= 1 && out.1[0] == SearchContacts(Field(c, "email"), 1)
    ensures search.Unreachable? ==> out == (Failure(ConnectionError(search.message)), [SearchContacts(Field(c, "email"), 1)])
    ensures search.Replied? && SearchHit(search.body).Some? ==>
              out == (Success(SearchHit(search.body).value), [SearchContacts(Field(c, "email"), 1)])
    ensures |out.1| == 2 <==> search.Replied? && SearchHit(search.body).None?
    ensures |out.1| == 2 ==> out.1[1] == NewContact(ContactDataFor(c)) && out.0 == CreationOutcome(create)
  {
    var searched := [SearchContacts(Field(c, "email"), 1)];
    match search
    case Unreachable(message) => (Failure(ConnectionError(message)), searched)
    case Replied(body) =>
      match SearchHit(body)
      case Some(id) => (Success(id), searched)
      case None => (CreationOutcome(create), searched + [NewContact(ContactDataFor(c))])
  }

  /** An existing contact is reused: the reply to a creation that is never sent does not matter. */
  lemma ExistingContactIgnoresCreation(c: Contact, search: Reply, create1: Reply, create2: Reply)
    requires search.Unreachable? || SearchHit(search.body).Some?
    ensures FindOrCreateContact(c, search, create1) == FindOrCreateContact(c, search, create2)
  {
  }

  // ----- the submission -----

  /** What `ga4_to_nutshell_send_to_nutshell` settles before talking to Nutshell. */
  datatype Prepared = Prepared(formId: string, assignedUserId: string, contact: Contact)

  const InvalidContact := WpError("invalid_contact", "No valid contact data found in form submission", JNull)

  function ResolvedFormId(formData: Assoc<string>, formName: string, currentUrl: string, formId: string,
                          forms: Option<seq<FormInfo>>, urlPath: string -> string, settings: Settings): string {
    if PhpEmpty(formId) then DetectedFormId(formData, formName, currentUrl, forms, urlPath, settings.formUserMappings)
    else formId
  }

  function PreparedSubmission(wp: Helpers, settings: Settings, formData: Assoc<string>, formName: string,
                              assignedUserId: string, currentUrl: string, formId: string,
                              forms: Option<seq<FormInfo>>, urlPath: string -> string): (r: Result<Prepared, WpError>)
    ensures var id := ResolvedFormId(formData, formName, currentUrl, formId, forms, urlPath, settings);
            r.Success? <==> !PhpEmpty(Field(ExtractedContact(wp, formData, id, settings.fieldMappings), "email"))
    ensures var id := ResolvedFormId(formData, formName, currentUrl, formId, forms, urlPath, settings);
            r.Success? ==>
              r.value == Prepared(id, AssignedUser(wp, settings.formUserMappings, id, assignedUserId),
                                  Finish(ExtractedContact(wp, formData, id, settings.fieldMappings)).value)
    ensures r.Success? ==> !PhpEmpty(Field(r.value.contact, "email")) && !PhpEmpty(Field(r.value.contact, "name"))
    ensures r.Failure? ==> r.error == InvalidContact
    ensures !PhpEmpty(assignedUserId) && r.Success? ==> r.value.assignedUserId == assignedUserId
    ensures !PhpEmpty(formId) && r.Success? ==> r.value.formId == formId
  {
    var id := ResolvedFormId(formData, formName, currentUrl, formId, forms, urlPath, settings);
    var user := AssignedUser(wp, settings.formUserMappings, id, assignedUserId);
    match Finish(ExtractedContact(wp, formData, id, settings.fieldMappings))
    case None => Failure(InvalidContact)
    case Some(c) => Success(Prepared(id, user, c))
  }

  /** The whole of `ga4_to_nutshell_send_to_nutshell` over the three replies it may receive:
      the lead id, or the first error met; and the requests sent, in order. */
  method SendToNutshell(wp: Helpers, settings: Settings, formData: Assoc<string>, formName: string,
                        assignedUserId: string, trafficSource: string, referrerUrl: string, currentUrl: string,
                        formId: string, forms: Option<seq<FormInfo>>, urlPath: string -> string,
                        search: Reply, create: Reply, leadReply: Reply)
    returns (r: Result<Json, WpError>, requests: seq<Request>)
    ensures var p := PreparedSubmission(wp, settings, formData, formName, assignedUserId, currentUrl, formId, forms, urlPath);
            p.Failure? ==> r == Failure(InvalidContact) && requests == []
    ensures var p := PreparedSubmission(wp, settings, formData, formName, assignedUserId, currentUrl, formId, forms, urlPath);
            p.Success? ==>
              var (contactResult, contactRequests) := FindOrCreateContact(p.value.contact, search, create);
              if contactResult.Failure? then r == contactResult && requests == contactRequests
              else
                var lead := LeadFor(wp, contactResult.value, formName, trafficSource, referrerUrl, currentUrl,
                                    p.value.contact, p.value.assignedUserId);
                requests == contactRequests + [NewLead(lead)] && r == CreationOutcome(leadReply)
  {
    var id := formId;
    if PhpEmpty(id) {
      id := DetectFormId(formData, formName, currentUrl, forms, urlPath, settings.formUserMappings);
    }
    var user := FindAssignedUser(wp, settings.formUserMappings, id, assignedUserId);
    var contact := ExtractContact(wp, formData, id, settings.fieldMappings);
    if contact.None? || PhpEmpty(Field(contact.value, "email")) {
      return Failure(InvalidContact), [];
    }
    var (contactResult, contactRequests) := FindOrCreateContact(contact.value, search, create);
    if contactResult.Failure? {
      return contactResult, contactRequests;
    }
    var lead := BuildLead(wp, contactResult.value, formName, trafficSource, referrerUrl, currentUrl, contact.value, user);
    requests := contactRequests + [NewLead(lead)];
    r := CreationOutcome(leadReply);
  }
}
