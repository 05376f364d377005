/** `ga4_to_nutshell_extract_contact_from_form_data`: turning loosely keyed form data into a
    contact record, by the configured field mappings of the form when there are any, and by
    keyword patterns on the field keys otherwise. */
module ContactExtraction {
  import opened Wrappers
  import opened Text
  import opened Assoc
  import opened WordPress

  /** Submitted form data: field key => value, in submission order. */
  type FormData = Assoc<string>

  /** The contact record: name, email, phone, company, address and country, plus any other
      Nutshell field a configured mapping names. */
  type Contact = Assoc<string>

  const InitialContact: Contact :=
    [("name", ""), ("email", ""), ("phone", ""), ("company", ""), ("address", ""), ("country", "")]

  // ----- mapping mode -----

  /** An entry that a mapping to form field `id` accepts when there is no entry under `id`
      itself: a non-empty value whose key contains `id` or ends with it. */
  predicate PartialHit(id: string, e: (string, string)) {
    !PhpEmpty(e.1) && (Contains(e.0, id) || EndsWith(e.0, id))
  }

  function PartialHitFor(id: string): ((string, string)) -> bool {
    e => PartialHit(id, e)
  }

  /** The value a mapping to form field `id` picks: the entry stored under `id` itself, even an
      empty one; otherwise the first non-empty entry whose key contains `id`; otherwise none. */
  function MappedValue(wp: Helpers, formData: FormData, id: string): (r: Option<string>)
    ensures HasKey(formData, id) ==> r == Some(wp.sanitizeText(Get(formData, id).value))
    ensures !HasKey(formData, id) ==>
              (r.None? <==> forall i :: 0 <= i < |formData| ==> PhpEmpty(formData[i].1) || !Contains(formData[i].0, id))
    ensures !HasKey(formData, id) && r.Some? ==>
              exists i :: 0 <= i < |formData| && !PhpEmpty(formData[i].1) && Contains(formData[i].0, id) &&
                          r.value == wp.sanitizeText(formData[i].1) &&
                          forall j :: 0 <= j < i ==> PhpEmpty(formData[j].1) || !Contains(formData[j].0, id)
  {
    if HasKey(formData, id) then Some(wp.sanitizeText(Get(formData, id).value))
    else
      match FirstIndex(formData, PartialHitFor(id))
      case Some(i) =>
        assert Contains(formData[i].0, id) by {
          if EndsWith(formData[i].0, id) {
            EndsWithContains(formData[i].0, id);
          }
        }
        Some(wp.sanitizeText(formData[i].1))
      case None => None
  }

  /** The writes the mapping loop makes: one per mapping with a non-empty form field id whose
      value was found. */
  function MappingWrites(wp: Helpers, formData: FormData, mappings: Assoc<string>): seq<(string, string)>
    decreases |mappings|
  {
    if mappings == [] then []
    else
      var (field, id) := mappings[|mappings| - 1];
      MappingWrites(wp, formData, mappings[..|mappings| - 1]) +
        if PhpEmpty(id) then []
        else match MappedValue(wp, formData, id)
          case Some(v) => [(field, v)]
          case None => []
  }

  function MappingModeContact(wp: Helpers, formData: FormData, mappings: Assoc<string>): Contact {
    PutAll(InitialContact, MappingWrites(wp, formData, mappings))
  }

  lemma MappingModeStep(wp: Helpers, formData: FormData, mappings: Assoc<string>, i: nat)
    requires i < |mappings|
    ensures MappingModeContact(wp, formData, mappings[..i + 1]) ==
            if PhpEmpty(mappings[i].1) || MappedValue(wp, formData, mappings[i].1).None?
            then MappingModeContact(wp, formData, mappings[..i])
            else Put(MappingModeContact(wp, formData, mappings[..i]), mappings[i].0, MappedValue(wp, formData, mappings[i].1).value)
  {
    assert mappings[..i + 1][..i] == mappings[..i];
    var ws := MappingWrites(wp, formData, mappings[..i]);
    var (field, id) := mappings[i];
    if PhpEmpty(id) || MappedValue(wp, formData, id).None? {
      assert MappingWrites(wp, formData, mappings[..i + 1]) == ws + [];
      assert ws + [] == ws;
    } else {
      assert MappingWrites(wp, formData, mappings[..i + 1]) == ws + [(field, MappedValue(wp, formData, id).value)];
      PutAllSnoc(InitialContact, ws, field, MappedValue(wp, formData, id).value);
    }
  }

  lemma {:induction false} MappingWritesLast(wp: Helpers, formData: FormData, mappings: Assoc<string>, field: string)
    requires UniqueKeys(mappings)
    ensures LastWrite(MappingWrites(wp, formData, mappings), field) ==
            if HasKey(mappings, field) && !PhpEmpty(Get(mappings, field).value)
            then MappedValue(wp, formData, Get(mappings, field).value)
            else None
    decreases |mappings|
  {
    if mappings != [] {
      var pre := mappings[..|mappings| - 1];
      var (g, id) := mappings[|mappings| - 1];
      assert UniqueKeys(pre);
      MappingWritesLast(wp, formData, pre, field);
      assert mappings == pre + [(g, id)];
      GetSnoc(pre, g, id, field);
      var ws := MappingWrites(wp, formData, pre);
      var extra := if PhpEmpty(id) then [] else match MappedValue(wp, formData, id)
        case Some(v) => [(g, v)]
        case None => [];
      assert MappingWrites(wp, formData, mappings) == ws + extra;
      if extra == [] {
        assert ws + extra == ws;
      } else {
        assert (ws + extra)[..|ws|] == ws;
      }
      if g == field {
        assert !HasKey(pre, field) by {
          forall i | 0 <= i < |pre| ensures pre[i].0 != field { assert pre[i] == mappings[i]; }
        }
      }
    }
  }

  /** In mapping mode each contact field holds the value its mapping found; a field without a
      usable mapping, or whose mapping found nothing, keeps its initial value (''). */
  lemma MappedField(wp: Helpers, formData: FormData, mappings: Assoc<string>, field: string)
    requires UniqueKeys(mappings)
    ensures var id := Get(mappings, field);
            var found := if id.Some? && !PhpEmpty(id.value) then MappedValue(wp, formData, id.value) else None;
            Get(MappingModeContact(wp, formData, mappings), field) ==
              if found.Some? then found else Get(InitialContact, field)
  {
    GetPutAll(InitialContact, MappingWrites(wp, formData, mappings), field);
    MappingWritesLast(wp, formData, mappings, field);
  }

  // ----- pattern mode -----

  /** The keywords looked for (in the lower-cased key) for each contact field, in the order the
      fields are tried. 'location' serves both country and address. */
  const FieldPatterns: seq<(string, seq<string>)> := [
    ("email", ["email", "e-mail", "mail", "email_address"]),
    ("name", ["name", "full_name", "fullname", "customer_name", "client_name"]),
    ("phone", ["phone", "telephone", "tel", "mobile", "phone_number"]),
    ("company", ["company", "business", "organization", "organisation", "company_name"]),
    ("country", ["country", "nation", "location", "region"]),
    ("address", ["address", "street", "location", "postal_address"])]

  predicate PatternHit(patterns: seq<string>, e: (string, string)) {
    !PhpEmpty(e.1) && exists p :: 0 <= p < |patterns| && Contains(Lower(e.0), patterns[p])
  }

  function PatternHitFor(patterns: seq<string>): ((string, string)) -> bool {
    e => PatternHit(patterns, e)
  }

  /** The writes of the pattern loop: for each contact field at most one, taken from the first
      entry that has a non-empty value and a key containing one of the field's keywords. */
  function PatternWrites(wp: Helpers, formData: FormData, table: seq<(string, seq<string>)>): seq<(string, string)>
    decreases |table|
  {
    if table == [] then []
    else
      var (field, patterns) := table[|table| - 1];
      PatternWrites(wp, formData, table[..|table| - 1]) +
        match FirstIndex(formData, PatternHitFor(patterns))
        case Some(i) => [(field, wp.sanitizeText(formData[i].1))]
        case None => []
  }

  /** The value the pattern loop gives a field with keywords `patterns`. */
  function PatternValue(wp: Helpers, formData: FormData, patterns: seq<string>): string {
    match FirstIndex(formData, PatternHitFor(patterns))
    case Some(i) => wp.sanitizeText(formData[i].1)
    case None => ""
  }

  predicate EmailHit(wp: Helpers, e: (string, string)) {
    wp.isEmail(e.1)
  }

  function EmailHitFor(wp: Helpers): ((string, string)) -> bool {
    e => EmailHit(wp, e)
  }

  /** The email after its check: a keyword-found email that fails `is_email` is dropped, and an
      empty one is replaced by the first form value that passes `is_email`. */
  function ValidatedEmail(wp: Helpers, formData: FormData, found: string): (r: string)
    ensures !PhpEmpty(found) && wp.isEmail(found) ==> r == found
    ensures !PhpEmpty(r) ==>
              (r == found && wp.isEmail(found)) ||
              exists i :: 0 <= i < |formData| && wp.isEmail(formData[i].1) && r == wp.sanitizeEmail(formData[i].1)
    ensures (PhpEmpty(found) || !wp.isEmail(found)) && FirstIndex(formData, EmailHitFor(wp)).Some? ==>
              r == wp.sanitizeEmail(formData[FirstIndex(formData, EmailHitFor(wp)).value].1)
  {
    var kept := if !PhpEmpty(found) && !wp.isEmail(found) then "" else found;
    if PhpEmpty(kept) then
      match FirstIndex(formData, EmailHitFor(wp))
      case Some(i) => wp.sanitizeEmail(formData[i].1)
      case None => kept
    else kept
  }

  function PatternModeContact(wp: Helpers, formData: FormData): Contact {
    var c := PutAll(InitialContact, PatternWrites(wp, formData, FieldPatterns));
    Put(c, "email", ValidatedEmail(wp, formData, Get(c, "email").GetOr("")))
  }

  lemma PatternModeStep(wp: Helpers, formData: FormData, table: seq<(string, seq<string>)>, t: nat)
    requires t < |table|
    ensures var before := PutAll(InitialContact, PatternWrites(wp, formData, table[..t]));
            var hit := FirstIndex(formData, PatternHitFor(table[t].1));
            PutAll(InitialContact, PatternWrites(wp, formData, table[..t + 1])) ==
              if hit.Some? then Put(before, table[t].0, wp.sanitizeText(formData[hit.value].1)) else before
  {
    assert table[..t + 1][..t] == table[..t];
    var ws := PatternWrites(wp, formData, table[..t]);
    var hit := FirstIndex(formData, PatternHitFor(table[t].1));
    if hit.Some? {
      var w := (table[t].0, wp.sanitizeText(formData[hit.value].1));
      assert PatternWrites(wp, formData, table[..t + 1]) == ws + [w];
      PutAllSnoc(InitialContact, ws, w.0, w.1);
    } else {
      assert PatternWrites(wp, formData, table[..t + 1]) == ws + [];
      assert ws + [] == ws;
    }
  }

  lemma {:induction false} PatternWritesLast(wp: Helpers, formData: FormData, table: seq<(string, seq<string>)>, t: nat)
    requires UniqueKeys(table) && t < |table|
    ensures LastWrite(PatternWrites(wp, formData, table), table[t].0) ==
            if FirstIndex(formData, PatternHitFor(table[t].1)).Some? then Some(PatternValue(wp, formData, table[t].1)) else None
    decreases |table|
  {
    var pre := table[..|table| - 1];
    var (g, patterns) := table[|table| - 1];
    var ws := PatternWrites(wp, formData, pre);
    var extra := match FirstIndex(formData, PatternHitFor(patterns))
      case Some(i) => [(g, wp.sanitizeText(formData[i].1))]
      case None => [];
    assert PatternWrites(wp, formData, table) == ws + extra;
    if extra == [] {
      assert ws + extra == ws;
    } else {
      assert (ws + extra)[..|ws|] == ws;
    }
    assert UniqueKeys(pre);
    if t < |table| - 1 {
      assert pre[t] == table[t];
      assert g != table[t].0;
      PatternWritesLast(wp, formData, pre, t);
    } else {
      assert !HasKey(pre, g) by {
        forall i | 0 <= i < |pre| ensures pre[i].0 != g { assert pre[i] == table[i]; }
      }
      PatternWritesOnlyTableKeys(wp, formData, pre, g);
    }
  }

  lemma {:induction false} PatternWritesOnlyTableKeys(wp: Helpers, formData: FormData, table: seq<(string, seq<string>)>, k: string)
    requires !HasKey(table, k)
    ensures LastWrite(PatternWrites(wp, formData, table), k) == None
    decreases |table|
  {
    if table != [] {
      var pre := table[..|table| - 1];
      assert !HasKey(pre, k) by {
        forall i | 0 <= i < |pre| ensures pre[i].0 != k { assert pre[i] == table[i]; }
      }
      PatternWritesOnlyTableKeys(wp, formData, pre, k);
      var ws := PatternWrites(wp, formData, pre);
      var (g, patterns) := table[|table| - 1];
      var extra := match FirstIndex(formData, PatternHitFor(patterns))
        case Some(i) => [(g, wp.sanitizeText(formData[i].1))]
        case None => [];
      assert PatternWrites(wp, formData, table) == ws + extra;
      if extra == [] {
        assert ws + extra == ws;
      } else {
        assert (ws + extra)[..|ws|] == ws;
      }
    }
  }

  /** Before the email check, each field of a table with distinct fields holds its pattern value. */
  lemma PatternFoundValue(wp: Helpers, formData: FormData, table: seq<(string, seq<string>)>, t: nat)
    requires UniqueKeys(table) && t < |table| && Get(InitialContact, table[t].0) == Some("")
    ensures Get(PutAll(InitialContact, PatternWrites(wp, formData, table)), table[t].0) ==
            Some(PatternValue(wp, formData, table[t].1))
  {
    var ws := PatternWrites(wp, formData, table);
    PatternWritesLast(wp, formData, table, t);
    GetPutAll(InitialContact, ws, table[t].0);
  }

  lemma FieldPatternsUnique()
    ensures UniqueKeys(FieldPatterns)
    ensures forall t :: 0 < t < |FieldPatterns| ==> FieldPatterns[t].0 != "email"
    ensures forall t :: 0 <= t < |FieldPatterns| ==> Get(InitialContact, FieldPatterns[t].0) == Some("")
  {
  }

  /** In pattern mode every contact field other than the email holds the sanitised value of the
      first entry, in form-data order, with a non-empty value and a key containing one of its
      keywords, and '' when there is none; the email is that value after the email check. */
  lemma PatternField(wp: Helpers, formData: FormData, t: nat)
    requires t < |FieldPatterns|
    ensures var field := FieldPatterns[t].0;
            var v := PatternValue(wp, formData, FieldPatterns[t].1);
            Get(PatternModeContact(wp, formData), field) ==
              Some(if field == "email" then ValidatedEmail(wp, formData, v) else v)
  {
    FieldPatternsUnique();
    PatternFoundValue(wp, formData, FieldPatterns, 0);
    assert FieldPatterns[0].0 == "email";
    if t != 0 {
      PatternFoundValue(wp, formData, FieldPatterns, t);
      assert FieldPatterns[t].0 != "email";
    }
  }

  /** A non-empty email that pattern mode produces has passed `is_email`: either it is the
      keyword-found value itself, or `sanitize_email` of a form value that passes. */
  lemma PatternEmailChecked(wp: Helpers, formData: FormData)
    ensures var email := Get(PatternModeContact(wp, formData), "email").value;
            !PhpEmpty(email) ==>
              wp.isEmail(email) ||
              exists i :: 0 <= i < |formData| && wp.isEmail(formData[i].1) && email == wp.sanitizeEmail(formData[i].1)
  {
    PatternField(wp, formData, 0);
  }

  // ----- the whole extraction -----

  /** Mapping mode applies when the form id is non-empty and the settings hold field mappings
      for it (even an empty set of them). */
  predicate UsesMappings(formId: string, fieldMappings: Option<Assoc<Assoc<string>>>) {
    !PhpEmpty(formId) && fieldMappings.Some? && HasKey(fieldMappings.value, formId)
  }

  /** The final step: no record without an email, and a missing name replaced by the email. */
  function Finish(c: Contact): (r: Option<Contact>)
    ensures r.None? <==> PhpEmpty(Get(c, "email").GetOr(""))
    ensures r.Some? ==> Get(r.value, "email") == Get(c, "email")
    ensures r.Some? ==> !PhpEmpty(Get(r.value, "name").GetOr(""))
    ensures r.Some? && PhpEmpty(Get(c, "name").GetOr("")) ==> Get(r.value, "name") == Get(c, "email")
    ensures r.Some? ==> forall k :: k != "name" ==> Get(r.value, k) == Get(c, k)
    ensures r.Some? && !PhpEmpty(Get(c, "name").GetOr("")) ==> r.value == c
  {
    var email := Get(c, "email").GetOr("");
    if PhpEmpty(email) then None
    else if PhpEmpty(Get(c, "name").GetOr("")) then Some(Put(c, "name", email))
    else Some(c)
  }

  function ExtractedContact(wp: Helpers, formData: FormData, formId: string,
                            fieldMappings: Option<Assoc<Assoc<string>>>): Contact {
    if UsesMappings(formId, fieldMappings)
    then MappingModeContact(wp, formData, Get(fieldMappings.value, formId).value)
    else PatternModeContact(wp, formData)
  }

  /** Every record carries the six contact fields. */
  lemma ContactHasAllFields(wp: Helpers, formData: FormData, formId: string,
                            fieldMappings: Option<Assoc<Assoc<string>>>, k: string)
    requires HasKey(InitialContact, k)
    ensures HasKey(ExtractedContact(wp, formData, formId, fieldMappings), k)
  {
    if UsesMappings(formId, fieldMappings) {
      HasKeyPutAll(InitialContact, MappingWrites(wp, formData, Get(fieldMappings.value, formId).value), k);
    } else {
      var c := PutAll(InitialContact, PatternWrites(wp, formData, FieldPatterns));
      HasKeyPutAll(InitialContact, PatternWrites(wp, formData, FieldPatterns), k);
      var email := ValidatedEmail(wp, formData, Get(c, "email").GetOr(""));
      assert Get(c, k).Some?;
      assert Get(Put(c, "email", email), k).Some?;
    }
  }

  /** The keyword scan for one contact field: the outer loop walks the form data, skipping
      empty values, and the inner loop tries the keywords; the first hit ends both loops. */
  method FirstPatternMatch(formData: FormData, patterns: seq<string>) returns (r: Option<nat>)
    ensures r == FirstIndex(formData, PatternHitFor(patterns))
  {
    for j := 0 to |formData|
      invariant forall k :: 0 <= k < j ==> !PatternHit(patterns, formData[k])
    {
      var (key, value) := formData[j];
      if PhpEmpty(value) {
        continue;
      }
      var keyLower := Lower(key);
      for p := 0 to |patterns|
        invariant forall q :: 0 <= q < p ==> !Contains(keyLower, patterns[q])
      {
        if Contains(keyLower, patterns[p]) {
          assert PatternHit(patterns, formData[j]);
          return Some(j);
        }
      }
    }
    return None;
  }

  /** The mapping loop: for each mapping with a non-empty form field id, the direct entry if
      there is one, else the first partial match. */
  method ExtractByMappings(wp: Helpers, formData: FormData, mappings: Assoc<string>) returns (contact: Contact)
    ensures contact == MappingModeContact(wp, formData, mappings)
  {
    contact := InitialContact;
    for i := 0 to |mappings|
      invariant contact == MappingModeContact(wp, formData, mappings[..i])
    {
      MappingModeStep(wp, formData, mappings, i);
      var (field, id) := mappings[i];
      if PhpEmpty(id) {
        continue;
      }
      if HasKey(formData, id) {
        contact := Put(contact, field, wp.sanitizeText(Get(formData, id).value));
        continue;
      }
      var hit := FindFirst(formData, PartialHitFor(id));
      if hit.Some? {
        contact := Put(contact, field, wp.sanitizeText(formData[hit.value].1));
      }
    }
    assert mappings[..|mappings|] == mappings;
  }

  /** The keyword loop over the six contact fields, then the email check and scan. */
  method ExtractByPatterns(wp: Helpers, formData: FormData) returns (contact: Contact)
    ensures contact == PatternModeContact(wp, formData)
  {
    contact := InitialContact;
    for t := 0 to |FieldPatterns|
      invariant contact == PutAll(InitialContact, PatternWrites(wp, formData, FieldPatterns[..t]))
    {
      PatternModeStep(wp, formData, FieldPatterns, t);
      var (field, patterns) := FieldPatterns[t];
      var hit := FirstPatternMatch(formData, patterns);
      if hit.Some? {
        contact := Put(contact, field, wp.sanitizeText(formData[hit.value].1));
      }
    }
    assert FieldPatterns[..|FieldPatterns|] == FieldPatterns;
    ghost var found := contact;
    FieldPatternsUnique();
    PatternFoundValue(wp, formData, FieldPatterns, 0);
    var email := Get(contact, "email").GetOr("");
    if !PhpEmpty(email) && !wp.isEmail(email) {
      contact := Put(contact, "email", "");
    }
    if PhpEmpty(Get(contact, "email").GetOr("")) {
      var hit := FindFirst(formData, EmailHitFor(wp));
      if hit.Some? {
        contact := Put(contact, "email", wp.sanitizeEmail(formData[hit.value].1));
      }
    }
    EmailStepsAgree(wp, formData, found);
  }

  /** `ga4_to_nutshell_extract_contact_from_form_data` with the settings' field mappings passed
      in: `None` when no email is found; otherwise a record with a non-empty email and name. */
  method ExtractContact(wp: Helpers, formData: FormData, formId: string,
                        fieldMappings: Option<Assoc<Assoc<string>>>) returns (r: Option<Contact>)
    ensures r == Finish(ExtractedContact(wp, formData, formId, fieldMappings))
    ensures r.Some? ==> !PhpEmpty(Get(r.value, "email").GetOr("")) && !PhpEmpty(Get(r.value, "name").GetOr(""))
  {
    var contact;
    if !PhpEmpty(formId) && fieldMappings.Some? && HasKey(fieldMappings.value, formId) {
      contact := ExtractByMappings(wp, formData, Get(fieldMappings.value, formId).value);
    } else {
      contact := ExtractByPatterns(wp, formData);
    }
    var email := Get(contact, "email").GetOr("");
    if PhpEmpty(email) {
      return None;
    }
    if PhpEmpty(Get(contact, "name").GetOr("")) {
      contact := Put(contact, "name", email);
    }
    r := Some(contact);
  }

  lemma EmailStepsAgree(wp: Helpers, formData: FormData, c: Contact)
    requires HasKey(c, "email")
    ensures var found := Get(c, "email").value;
            var cleared := if !PhpEmpty(found) && !wp.isEmail(found) then Put(c, "email", "") else c;
            var hit := FirstIndex(formData, EmailHitFor(wp));
            var final := if PhpEmpty(Get(cleared, "email").value) && hit.Some?
                         then Put(cleared, "email", wp.sanitizeEmail(formData[hit.value].1)) else cleared;
            final == Put(c, "email", ValidatedEmail(wp, formData, found))
  {
    var found := Get(c, "email").value;
    PutSame(c, "email", found);
    PutPut(c, "email", "", "");
    var hit := FirstIndex(formData, EmailHitFor(wp));
    if hit.Some? {
      PutPut(c, "email", "", wp.sanitizeEmail(formData[hit.value].1));
    }
  }
}
