/** The settings option of the plugin and `ga4_to_nutshell_validate_settings`, the filter that
    normalises what the settings page submits before it is stored. */
module SettingsValidation {
  import opened Wrappers
  import opened Text
  import opened Assoc
  import opened WordPress

  /** One form-to-user routing rule: submissions of form `formId` are assigned to `userId`. */
  datatype Mapping = Mapping(formId: string, userId: string)

  /** The stored (validated) settings. `fieldMappings` maps a form id to its
      Nutshell-field => form-field-id table and is absent when the input had none. */
  datatype Settings = Settings(
    username: string,
    apiKey: string,
    debugMode: bool,  // stored as 1 / 0
    enabledFormTypes: seq<string>,
    eventTriggers: seq<string>,
    customEventTrigger: string,
    formUserMappings: seq<Mapping>,
    fieldMappings: Option<Assoc<Assoc<string>>>)

  /** A settings value that should be a list: an array, or some scalar instead. */
  datatype ListInput = ListValue(items: seq<string>) | ScalarValue(text: string)

  /** One element of the list shape of `form_user_mappings`; `None` when the key is not set
      (an element that is not an array has neither key set). */
  datatype MappingItem = MappingItem(formId: Option<string>, userId: Option<string>)

  /** The two shapes in which form-to-user mappings arrive: parallel `form_id[]` and `user_id[]`
      arrays, or any other array, read as a list of mapping records; or a scalar. */
  datatype MappingsInput =
    | ParallelLists(formIds: seq<string>, userIds: seq<string>)
    | MappingList(items: seq<MappingItem>)
    | MappingScalar

  datatype FieldMappingsInput = FieldTable(forms: Assoc<Assoc<string>>) | FieldScalar

  /** The submitted settings array; `None` stands for a key that is not set. */
  datatype SettingsInput = SettingsInput(
    username: Option<string>,
    apiKey: Option<string>,
    debugMode: Option<string>,
    enabledFormTypes: Option<ListInput>,
    eventTriggers: Option<ListInput>,
    customEventTrigger: Option<string>,
    formUserMappings: Option<MappingsInput>,
    fieldMappings: Option<FieldMappingsInput>)

  const DefaultFormTypes: seq<string> := ["ninja_forms"]
  const DefaultEventTriggers: seq<string> := ["book_a_demo", "nfFormSubmitResponse"]

  function SanitizedOrEmpty(wp: Helpers, o: Option<string>): string {
    match o
    case Some(s) => wp.sanitizeText(s)
    case None => ""
  }

  /** `array_map('sanitize_text_field', ...)` when the value is an array, else the default list. */
  function ListOrDefault(wp: Helpers, o: Option<ListInput>, default: seq<string>): seq<string> {
    match o
    case Some(ListValue(items)) => seq(|items|, i requires 0 <= i < |items| => wp.sanitizeText(items[i]))
    case _ => default
  }

  /** debug_mode as the source computes it: on whenever the key is set, whatever its value. */
  function DebugModeAsWritten(input: SettingsInput): bool {
    input.debugMode.Some?
  }

  /** debug_mode as evidently intended: on when the key is set to a non-empty value. */
  function DebugModeCorrected(input: SettingsInput): bool {
    input.debugMode.Some? && !PhpEmpty(input.debugMode.value)
  }

  // ----- form-to-user mappings -----

  /** A mapping candidate survives iff both of its sides are set and non-empty. */
  predicate Keeps(c: MappingItem) {
    c.formId.Some? && !PhpEmpty(c.formId.value) && c.userId.Some? && !PhpEmpty(c.userId.value)
  }

  function SanitizedMapping(wp: Helpers, c: MappingItem): Mapping
    requires Keeps(c)
  {
    Mapping(wp.sanitizeText(c.formId.value), wp.sanitizeText(c.userId.value))
  }

  /** The parallel-array shape read pairwise, up to the shorter of the two arrays. */
  function ParallelCandidates(formIds: seq<string>, userIds: seq<string>): (cs: seq<MappingItem>)
    ensures |cs| == if |formIds| < |userIds| then |formIds| else |userIds|
  {
    var n := if |formIds| < |userIds| then |formIds| else |userIds|;
    seq(n, i requires 0 <= i < n => MappingItem(Some(formIds[i]), Some(userIds[i])))
  }

  /** The sanitised candidates that survive, in input order. */
  function KeptMappings(wp: Helpers, cs: seq<MappingItem>): seq<Mapping>
    decreases |cs|
  {
    if cs == [] then []
    else
      var c := cs[|cs| - 1];
      KeptMappings(wp, cs[..|cs| - 1]) + if Keeps(c) then [SanitizedMapping(wp, c)] else []
  }

  function MappingCandidates(m: Option<MappingsInput>): seq<MappingItem> {
    match m
    case Some(ParallelLists(formIds, userIds)) => ParallelCandidates(formIds, userIds)
    case Some(MappingList(items)) => items
    case _ => []
  }

  /** Output mappings are exactly the sanitised candidates whose two sides are non-empty. */
  lemma {:induction false} KeptMappingsMembers(wp: Helpers, cs: seq<MappingItem>, m: Mapping)
    ensures m in KeptMappings(wp, cs) <==> exists i :: 0 <= i < |cs| && Keeps(cs[i]) && m == SanitizedMapping(wp, cs[i])
    decreases |cs|
  {
    if cs != [] {
      var pre := cs[..|cs| - 1];
      KeptMappingsMembers(wp, pre, m);
      if exists i :: 0 <= i < |cs| && Keeps(cs[i]) && m == SanitizedMapping(wp, cs[i]) {
        var i :| 0 <= i < |cs| && Keeps(cs[i]) && m == SanitizedMapping(wp, cs[i]);
        if i < |cs| - 1 {
          assert pre[i] == cs[i];
        }
      }
    }
  }

  /** Filtering keeps order and never adds entries: the first output mapping comes from the
      first surviving candidate, and there are no more outputs than candidates. */
  lemma {:induction false} KeptMappingsBounded(wp: Helpers, cs: seq<MappingItem>)
    ensures |KeptMappings(wp, cs)| <= |cs|
    ensures |KeptMappings(wp, cs)| == |cs| <==> forall i :: 0 <= i < |cs| ==> Keeps(cs[i])
    decreases |cs|
  {
    if cs != [] {
      var pre := cs[..|cs| - 1];
      KeptMappingsBounded(wp, pre);
      if forall i :: 0 <= i < |pre| ==> Keeps(pre[i]) {
        assert forall i :: 0 <= i < |cs| - 1 ==> Keeps(cs[i]) by {
          forall i | 0 <= i < |cs| - 1 ensures Keeps(cs[i]) { assert pre[i] == cs[i]; }
        }
      } else {
        var i :| 0 <= i < |pre| && !Keeps(pre[i]);
        assert cs[i] == pre[i];
      }
    }
  }

  // ----- field mappings -----

  /** The writes `$out[$form][$field] = sanitize_text_field($v)` for the non-empty targets. */
  function FieldWrites(wp: Helpers, fields: Assoc<string>): seq<(string, string)>
    decreases |fields|
  {
    if fields == [] then []
    else
      var (f, v) := fields[|fields| - 1];
      FieldWrites(wp, fields[..|fields| - 1]) + if PhpEmpty(v) then [] else [(f, wp.sanitizeText(v))]
  }

  function FilteredFields(wp: Helpers, fields: Assoc<string>): Assoc<string> {
    PutAll([], FieldWrites(wp, fields))
  }

  function FormWrites(wp: Helpers, forms: Assoc<Assoc<string>>): seq<(string, Assoc<string>)>
    decreases |forms|
  {
    if forms == [] then []
    else
      var (form, fields) := forms[|forms| - 1];
      FormWrites(wp, forms[..|forms| - 1]) + [(form, FilteredFields(wp, fields))]
  }

  function FieldMappingsOut(wp: Helpers, f: Option<FieldMappingsInput>): Option<Assoc<Assoc<string>>> {
    match f
    case Some(FieldTable(forms)) => Some(PutAll([], FormWrites(wp, forms)))
    case _ => None
  }

  /** The last write FieldWrites makes to a field is the sanitised input target, when the input
      gives that field a non-empty target (keys of a PHP array are unique). */
  lemma {:induction false} FieldWritesLast(wp: Helpers, fields: Assoc<string>, f: string)
    requires UniqueKeys(fields)
    ensures LastWrite(FieldWrites(wp, fields), f) ==
            if HasKey(fields, f) && !PhpEmpty(Get(fields, f).value) then Some(wp.sanitizeText(Get(fields, f).value)) else None
    decreases |fields|
  {
    if fields != [] {
      var pre := fields[..|fields| - 1];
      var (g, v) := fields[|fields| - 1];
      assert UniqueKeys(pre);
      FieldWritesLast(wp, pre, f);
      assert fields == pre + [(g, v)];
      GetSnoc(pre, g, v, f);
      var ws := FieldWrites(wp, pre);
      var extra := if PhpEmpty(v) then [] else [(g, wp.sanitizeText(v))];
      assert FieldWrites(wp, fields) == ws + extra;
      LastWriteConcat(ws, extra, f);
      if g == f {
        assert !HasKey(pre, f) by {
          forall i | 0 <= i < |pre| ensures pre[i].0 != f { assert pre[i] == fields[i]; }
        }
        assert Get(fields, f) == Some(v);
        assert LastWrite(ws, f) == None;
      } else {
        assert LastWrite(extra, f) == None;
        assert Get(fields, f) == Get(pre, f);
      }
    }
  }

  /** Every form key of the input appears in the output, each target non-empty in the input
      appears sanitised, and nothing else does. */
  lemma FieldMappingsKept(wp: Helpers, forms: Assoc<Assoc<string>>, form: string, f: string)
    requires UniqueKeys(forms)
    requires forall i :: 0 <= i < |forms| ==> UniqueKeys(forms[i].1)
    ensures var out := PutAll([], FormWrites(wp, forms));
            HasKey(out, form) <==> HasKey(forms, form)
    ensures var out := PutAll([], FormWrites(wp, forms));
            HasKey(forms, form) ==>
              Get(Get(out, form).value, f) ==
                var fields := Get(forms, form).value;
                if HasKey(fields, f) && !PhpEmpty(Get(fields, f).value) then Some(wp.sanitizeText(Get(fields, f).value)) else None
  {
    FormWritesLast(wp, forms, form);
    if HasKey(forms, form) {
      var fields := Get(forms, form).value;
      var i :| 0 <= i < |forms| && forms[i] == (form, fields);
      GetPutAll([], FieldWrites(wp, fields), f);
      FieldWritesLast(wp, fields, f);
    }
  }

  lemma FormWritesLast(wp: Helpers, forms: Assoc<Assoc<string>>, form: string)
    requires UniqueKeys(forms)
    ensures Get(PutAll([], FormWrites(wp, forms)), form) ==
            match Get(forms, form)
            case Some(fields) => Some(FilteredFields(wp, fields))
            case None => None
  {
    GetPutAll([], FormWrites(wp, forms), form);
    FormWritesLastWrite(wp, forms, form);
  }

  lemma FormWritesLastWrite(wp: Helpers, forms: Assoc<Assoc<string>>, form: string)
    requires UniqueKeys(forms)
    ensures LastWrite(FormWrites(wp, forms), form) ==
            if HasKey(forms, form) then Some(FilteredFields(wp, Get(forms, form).value)) else None
  {
    var ws := FormWrites(wp, forms);
    FormWritesKeys(wp, forms);
    assert UniqueKeys(ws) by {
      forall i, j | 0 <= i < j < |ws| ensures ws[i].0 != ws[j].0 {
        assert ws[i].0 == forms[i].0 && ws[j].0 == forms[j].0;
      }
    }
    LastWriteUnique(ws, form);
    if HasKey(forms, form) {
      var i :| 0 <= i < |forms| && forms[i].0 == form;
      GetAt(forms, i);
      GetAt(ws, i);
    } else {
      assert !HasKey(ws, form) by {
        forall i | 0 <= i < |ws| ensures ws[i].0 != form { assert ws[i].0 == forms[i].0; }
      }
    }
  }

  // ----- the whole filter -----

  /** The settings array `ga4_to_nutshell_validate_settings` returns for `input`. */
  function Validated(wp: Helpers, input: SettingsInput): Settings {
    Settings(
      SanitizedOrEmpty(wp, input.username),
      SanitizedOrEmpty(wp, input.apiKey),
      DebugModeAsWritten(input),
      ListOrDefault(wp, input.enabledFormTypes, DefaultFormTypes),
      ListOrDefault(wp, input.eventTriggers, DefaultEventTriggers),
      SanitizedOrEmpty(wp, input.customEventTrigger),
      KeptMappings(wp, MappingCandidates(input.formUserMappings)),
      FieldMappingsOut(wp, input.fieldMappings))
  }

  /** The form-to-user mapping part of the filter: the parallel arrays are read pairwise up to
      the shorter one, any other array element by element; a pair is kept, sanitised, only
      when both of its sides are non-empty. */
  method ValidateMappings(wp: Helpers, m: Option<MappingsInput>) returns (mappings: seq<Mapping>)
    ensures mappings == KeptMappings(wp, MappingCandidates(m))
  {
    mappings := [];
    match m {
      case Some(ParallelLists(formIds, userIds)) =>
        var count := if |formIds| < |userIds| then |formIds| else |userIds|;
        ghost var cs := ParallelCandidates(formIds, userIds);
        for i := 0 to count
          invariant mappings == KeptMappings(wp, cs[..i])
        {
          assert cs[..i + 1][..i] == cs[..i];
          if !PhpEmpty(formIds[i]) && !PhpEmpty(userIds[i]) {
            mappings := mappings + [Mapping(wp.sanitizeText(formIds[i]), wp.sanitizeText(userIds[i]))];
          }
        }
        assert cs[..count] == cs;
      case Some(MappingList(items)) =>
        for i := 0 to |items|
          invariant mappings == KeptMappings(wp, items[..i])
        {
          assert items[..i + 1][..i] == items[..i];
          var item := items[i];
          if item.formId.Some? && !PhpEmpty(item.formId.value) && item.userId.Some? && !PhpEmpty(item.userId.value) {
            mappings := mappings + [Mapping(wp.sanitizeText(item.formId.value), wp.sanitizeText(item.userId.value))];
          }
        }
        assert items[..|items|] == items;
      case _ =>
    }
  }

  lemma FilteredFieldsStep(wp: Helpers, fields: Assoc<string>, j: nat)
    requires j < |fields|
    ensures FilteredFields(wp, fields[..j + 1]) ==
            if PhpEmpty(fields[j].1) then FilteredFields(wp, fields[..j])
            else Put(FilteredFields(wp, fields[..j]), fields[j].0, wp.sanitizeText(fields[j].1))
  {
    assert fields[..j + 1][..j] == fields[..j];
    var (field, target) := fields[j];
    var ws := FieldWrites(wp, fields[..j]);
    if PhpEmpty(target) {
      assert FieldWrites(wp, fields[..j + 1]) == ws + [];
      assert ws + [] == ws;
    } else {
      assert FieldWrites(wp, fields[..j + 1]) == ws + [(field, wp.sanitizeText(target))];
      PutAllSnoc([], ws, field, wp.sanitizeText(target));
    }
  }

  /** One form's row of field mappings: each non-empty target is written, sanitised, under its
      Nutshell field. */
  method FilterFieldRow(wp: Helpers, fields: Assoc<string>) returns (row: Assoc<string>)
    ensures row == FilteredFields(wp, fields)
  {
    row := [];
    for j := 0 to |fields|
      invariant row == FilteredFields(wp, fields[..j])
    {
      FilteredFieldsStep(wp, fields, j);
      var (field, target) := fields[j];
      if !PhpEmpty(target) {
        row := Put(row, field, wp.sanitizeText(target));
      }
    }
    assert fields[..|fields|] == fields;
  }

  /** The field-mapping part of the filter: every submitted form gets a (possibly empty) row. */
  method ValidateFieldMappings(wp: Helpers, f: Option<FieldMappingsInput>) returns (out: Option<Assoc<Assoc<string>>>)
    ensures out == FieldMappingsOut(wp, f)
  {
    out := None;
    if f.Some? && f.value.FieldTable? {
      var forms := f.value.forms;
      var table: Assoc<Assoc<string>> := [];
      for i := 0 to |forms|
        invariant table == PutAll([], FormWrites(wp, forms[..i]))
      {
        assert forms[..i + 1][..i] == forms[..i];
        var (formId, fields) := forms[i];
        ghost var before := table;
        table := Put(table, formId, []);
        var row := FilterFieldRow(wp, fields);
        PutPut(before, formId, [], row);
        PutAllSnoc([], FormWrites(wp, forms[..i]), formId, row);
        table := Put(table, formId, row);
      }
      assert forms[..|forms|] == forms;
      out := Some(table);
    }
  }

  /** `ga4_to_nutshell_validate_settings`: credentials and the custom trigger sanitised (''
      when missing), the two list settings sanitised or defaulted, form-to-user mappings and
      field mappings filtered as above. */
  method ValidateSettings(wp: Helpers, input: SettingsInput) returns (out: Settings)
    ensures out == Validated(wp, input)
    ensures out.debugMode <==> input.debugMode.Some?
    ensures input.enabledFormTypes.None? || input.enabledFormTypes.value.ScalarValue? ==> out.enabledFormTypes == DefaultFormTypes
    ensures input.eventTriggers.None? || input.eventTriggers.value.ScalarValue? ==> out.eventTriggers == DefaultEventTriggers
    ensures out.fieldMappings.Some? <==> input.fieldMappings.Some? && input.fieldMappings.value.FieldTable?
  {
    var username := if input.username.Some? then wp.sanitizeText(input.username.value) else "";
    var apiKey := if input.apiKey.Some? then wp.sanitizeText(input.apiKey.value) else "";
    var debugMode := input.debugMode.Some?;
    var formTypes := ListOrDefault(wp, input.enabledFormTypes, DefaultFormTypes);
    var triggers := ListOrDefault(wp, input.eventTriggers, DefaultEventTriggers);
    var custom := if input.customEventTrigger.Some? then wp.sanitizeText(input.customEventTrigger.value) else "";
    var mappings := ValidateMappings(wp, input.formUserMappings);
    var fieldMappings := ValidateFieldMappings(wp, input.fieldMappings);
    out := Settings(username, apiKey, debugMode, formTypes, triggers, custom, mappings, fieldMappings);
  }

  // ----- re-validation -----

  /** The stored settings read back as the input of another validation (the stored list of
      mappings takes the list branch; debug_mode is stored as 1 or 0). */
  function AsInput(s: Settings): SettingsInput {
    SettingsInput(
      Some(s.username),
      Some(s.apiKey),
      Some(if s.debugMode then "1" else "0"),
      Some(ListValue(s.enabledFormTypes)),
      Some(ListValue(s.eventTriggers)),
      Some(s.customEventTrigger),
      Some(MappingList(MappingItems(s.formUserMappings))),
      match s.fieldMappings
      case Some(t) => Some(FieldTable(t))
      case None => None)
  }

  /** Stored mappings read back as the list shape. */
  function MappingItems(ms: seq<Mapping>): (items: seq<MappingItem>)
    ensures |items| == |ms|
    ensures forall i :: 0 <= i < |ms| ==> items[i] == MappingItem(Some(ms[i].formId), Some(ms[i].userId))
  {
    seq(|ms|, i requires 0 <= i < |ms| => MappingItem(Some(ms[i].formId), Some(ms[i].userId)))
  }

  /** What re-validation needs of sanitize_text_field, all of which the real function does:
      applying it twice changes nothing, and it leaves '' and the default list entries alone. */
  ghost predicate SanitizerAssumptions(wp: Helpers) {
    && SanitizerStable(wp)
    && wp.sanitizeText("") == ""
    && DefaultsSanitized(wp)
  }

  ghost predicate DefaultsSanitized(wp: Helpers) {
    forall s :: s in DefaultFormTypes + DefaultEventTriggers ==> wp.sanitizeText(s) == s
  }

  /** A stored mapping with an empty side: the raw value was non-empty, its sanitised form is not. */
  predicate BlankMapping(m: Mapping) {
    PhpEmpty(m.formId) || PhpEmpty(m.userId)
  }

  /** The mappings without a blank side, in order. */
  function NonBlankMappings(ms: seq<Mapping>): (r: seq<Mapping>)
    ensures forall m :: m in r <==> m in ms && !BlankMapping(m)
    decreases |ms|
  {
    if ms == [] then []
    else
      var last := ms[|ms| - 1];
      var pre := ms[..|ms| - 1];
      assert forall m :: m in ms <==> m in pre || m == last;
      NonBlankMappings(pre) + if BlankMapping(last) then [] else [last]
  }

  lemma {:induction false} NonBlankMappingsNoop(ms: seq<Mapping>)
    requires forall m :: m in ms ==> !BlankMapping(m)
    ensures NonBlankMappings(ms) == ms
    decreases |ms|
  {
    if ms != [] {
      var pre := ms[..|ms| - 1];
      var last := ms[|ms| - 1];
      assert last in ms;
      forall m | m in pre ensures !BlankMapping(m) {
        var i :| 0 <= i < |pre| && pre[i] == m;
        assert ms[i] == m;
      }
      NonBlankMappingsNoop(pre);
      assert NonBlankMappings(ms) == NonBlankMappings(pre) + [last];
      assert ms == pre + [last];
    }
  }

  /** The targets of a row that are not PHP-empty, in order. */
  function NonBlankFields(fields: Assoc<string>): (r: Assoc<string>)
    ensures forall e :: e in r <==> e in fields && !PhpEmpty(e.1)
    decreases |fields|
  {
    if fields == [] then []
    else
      var last := fields[|fields| - 1];
      var pre := fields[..|fields| - 1];
      assert forall e :: e in fields <==> e in pre || e == last;
      NonBlankFields(pre) + if PhpEmpty(last.1) then [] else [last]
  }

  lemma {:induction false} NonBlankFieldsNoop(fields: Assoc<string>)
    requires forall e :: e in fields ==> !PhpEmpty(e.1)
    ensures NonBlankFields(fields) == fields
    decreases |fields|
  {
    if fields != [] {
      var pre := fields[..|fields| - 1];
      assert forall e :: e in pre ==> e in fields;
      NonBlankFieldsNoop(pre);
      assert fields == pre + [fields[|fields| - 1]];
    }
  }

  lemma {:induction false} NonBlankFieldsUnique(fields: Assoc<string>)
    requires UniqueKeys(fields)
    ensures UniqueKeys(NonBlankFields(fields))
    decreases |fields|
  {
    if fields != [] {
      var pre := fields[..|fields| - 1];
      var last := fields[|fields| - 1];
      assert UniqueKeys(pre);
      NonBlankFieldsUnique(pre);
      var r := NonBlankFields(pre);
      forall i | 0 <= i < |r| ensures r[i].0 != last.0 {
        assert r[i] in r;
        var j :| 0 <= j < |pre| && pre[j] == r[i];
        assert pre[j] == fields[j];
      }
    }
  }

  /** Every row of a stored table reduced to its non-blank targets. */
  function NonBlankTable(t: Assoc<Assoc<string>>): (r: Assoc<Assoc<string>>)
    ensures |r| == |t|
    ensures forall i :: 0 <= i < |t| ==> r[i] == (t[i].0, NonBlankFields(t[i].1))
  {
    seq(|t|, i requires 0 <= i < |t| => (t[i].0, NonBlankFields(t[i].1)))
  }

  /** A row whose targets are already sanitised. */
  ghost predicate SanitizedRow(wp: Helpers, row: Assoc<string>) {
    forall e :: e in row ==> wp.sanitizeText(e.1) == e.1
  }

  /** What a validated field-mappings table looks like: distinct forms, distinct fields per
      form, sanitised targets. */
  ghost predicate StoredTable(wp: Helpers, t: Assoc<Assoc<string>>) {
    && UniqueKeys(t)
    && (forall i :: 0 <= i < |t| ==> UniqueKeys(t[i].1) && SanitizedRow(wp, t[i].1))
  }

  /** Every stored mapping has sanitised sides. */
  lemma KeptMappingsSanitized(wp: Helpers, cs: seq<MappingItem>)
    requires SanitizerStable(wp)
    ensures forall m :: m in KeptMappings(wp, cs) ==>
              wp.sanitizeText(m.formId) == m.formId && wp.sanitizeText(m.userId) == m.userId
  {
    forall m | m in KeptMappings(wp, cs)
      ensures wp.sanitizeText(m.formId) == m.formId && wp.sanitizeText(m.userId) == m.userId
    {
      KeptMappingsMembers(wp, cs, m);
    }
  }

  /** Mappings with sanitised sides, read back through the list branch: those with a blank side
      are dropped, the others kept as they are. */
  lemma {:induction false} RereadMappings(wp: Helpers, ms: seq<Mapping>)
    requires forall m :: m in ms ==> wp.sanitizeText(m.formId) == m.formId && wp.sanitizeText(m.userId) == m.userId
    ensures KeptMappings(wp, MappingItems(ms)) == NonBlankMappings(ms)
    decreases |ms|
  {
    if ms != [] {
      var pre := ms[..|ms| - 1];
      var items := MappingItems(ms);
      assert items[..|items| - 1] == MappingItems(pre);
      assert forall m :: m in pre ==> m in ms;
      RereadMappings(wp, pre);
      assert ms[|ms| - 1] in ms;
    }
  }

  /** Sanitised targets filtered again: exactly the PHP-empty ones are dropped. */
  lemma {:induction false} RefilterFields(wp: Helpers, fields: Assoc<string>)
    requires SanitizedRow(wp, fields)
    ensures FieldWrites(wp, fields) == NonBlankFields(fields)
    decreases |fields|
  {
    if fields != [] {
      var pre := fields[..|fields| - 1];
      assert forall e :: e in pre ==> e in fields;
      RefilterFields(wp, pre);
      assert fields[|fields| - 1] in fields;
    }
  }

  /** Every write of the target filter stores an already sanitised value. */
  lemma {:induction false} FieldWritesValues(wp: Helpers, fields: Assoc<string>)
    requires SanitizerStable(wp)
    ensures forall e :: e in FieldWrites(wp, fields) ==> wp.sanitizeText(e.1) == e.1 && exists i :: 0 <= i < |fields| && e.0 == fields[i].0
    decreases |fields|
  {
    if fields != [] {
      var pre := fields[..|fields| - 1];
      var (g, v) := fields[|fields| - 1];
      FieldWritesValues(wp, pre);
      var extra := if PhpEmpty(v) then [] else [(g, wp.sanitizeText(v))];
      assert FieldWrites(wp, fields) == FieldWrites(wp, pre) + extra;
      forall e | e in FieldWrites(wp, pre) ensures exists i :: 0 <= i < |fields| && e.0 == fields[i].0 {
        var i :| 0 <= i < |pre| && e.0 == pre[i].0;
        assert pre[i] == fields[i];
      }
    }
  }

  /** The filtered row of a form holds distinct fields with sanitised targets. */
  lemma FilteredFieldsStored(wp: Helpers, fields: Assoc<string>)
    requires SanitizerStable(wp)
    ensures UniqueKeys(FilteredFields(wp, fields)) && SanitizedRow(wp, FilteredFields(wp, fields))
  {
    PutAllUnique([], FieldWrites(wp, fields));
    PutAllEntries([], FieldWrites(wp, fields));
    FieldWritesValues(wp, fields);
  }

  /** Filtering a stored row again drops exactly its blank targets. */
  lemma FilteredFieldsTwice(wp: Helpers, fields: Assoc<string>)
    requires SanitizerStable(wp)
    ensures FilteredFields(wp, FilteredFields(wp, fields)) == NonBlankFields(FilteredFields(wp, fields))
  {
    var once := FilteredFields(wp, fields);
    FilteredFieldsStored(wp, fields);
    RefilterFields(wp, once);
    NonBlankFieldsUnique(once);
    PutAllFresh(NonBlankFields(once));
  }

  lemma {:induction false} FormWritesKeys(wp: Helpers, forms: Assoc<Assoc<string>>)
    ensures |FormWrites(wp, forms)| == |forms|
    ensures forall i :: 0 <= i < |forms| ==> FormWrites(wp, forms)[i] == (forms[i].0, FilteredFields(wp, forms[i].1))
    decreases |forms|
  {
    if forms != [] {
      FormWritesKeys(wp, forms[..|forms| - 1]);
    }
  }

  /** The field-mappings output is a stored table. */
  lemma FieldMappingsStored(wp: Helpers, forms: Assoc<Assoc<string>>)
    requires SanitizerStable(wp)
    ensures StoredTable(wp, PutAll([], FormWrites(wp, forms)))
  {
    var ws := FormWrites(wp, forms);
    var t := PutAll([], ws);
    PutAllUnique([], ws);
    PutAllEntries([], ws);
    FormWritesKeys(wp, forms);
    forall i | 0 <= i < |t| ensures UniqueKeys(t[i].1) && SanitizedRow(wp, t[i].1) {
      assert t[i] in ws;
      var j :| 0 <= j < |ws| && ws[j] == t[i];
      FilteredFieldsStored(wp, forms[j].1);
    }
  }

  /** A stored table reduced to its non-blank targets is still a stored table. */
  lemma NonBlankTableStored(wp: Helpers, t: Assoc<Assoc<string>>)
    requires StoredTable(wp, t)
    ensures StoredTable(wp, NonBlankTable(t))
  {
    var r := NonBlankTable(t);
    forall i, j | 0 <= i < j < |r| ensures r[i].0 != r[j].0 {
      assert r[i].0 == t[i].0 && r[j].0 == t[j].0;
    }
    forall i | 0 <= i < |r| ensures UniqueKeys(r[i].1) && SanitizedRow(wp, r[i].1) {
      NonBlankFieldsUnique(t[i].1);
    }
  }

  /** A stored table validated again: every form keeps its row, minus the blank targets. */
  lemma RefilterTable(wp: Helpers, t: Assoc<Assoc<string>>)
    requires StoredTable(wp, t)
    ensures PutAll([], FormWrites(wp, t)) == NonBlankTable(t)
  {
    var ws := FormWrites(wp, t);
    FormWritesKeys(wp, t);
    forall i | 0 <= i < |t| ensures ws[i] == NonBlankTable(t)[i] {
      RefilterFields(wp, t[i].1);
      NonBlankFieldsUnique(t[i].1);
      PutAllFresh(NonBlankFields(t[i].1));
    }
    assert ws == NonBlankTable(t);
    NonBlankTableStored(wp, t);
    PutAllFresh(ws);
  }

  lemma NonBlankTableTwice(t: Assoc<Assoc<string>>)
    ensures NonBlankTable(NonBlankTable(t)) == NonBlankTable(t)
  {
    var r := NonBlankTable(t);
    forall i | 0 <= i < |t| ensures NonBlankTable(r)[i] == r[i] {
      NonBlankFieldsNoop(NonBlankFields(t[i].1));
    }
  }

  lemma ScalarStable(wp: Helpers, o: Option<string>)
    requires SanitizerStable(wp) && wp.sanitizeText("") == ""
    ensures SanitizedOrEmpty(wp, Some(SanitizedOrEmpty(wp, o))) == SanitizedOrEmpty(wp, o)
  {
  }

  lemma ListStable(wp: Helpers, o: Option<ListInput>, default: seq<string>)
    requires SanitizerStable(wp) && DefaultsSanitized(wp)
    requires default == DefaultFormTypes || default == DefaultEventTriggers
    ensures ListOrDefault(wp, Some(ListValue(ListOrDefault(wp, o, default))), default) == ListOrDefault(wp, o, default)
  {
    var l := ListOrDefault(wp, o, default);
    if !(o.Some? && o.value.ListValue?) {
      forall i | 0 <= i < |l| ensures wp.sanitizeText(l[i]) == l[i] {
        assert l[i] in DefaultFormTypes + DefaultEventTriggers;
      }
    }
  }

  /** The settings as evidently intended: debug_mode read with `!empty`, and no mapping or
      target stored whose sanitised value is blank. */
  function ValidatedCorrected(wp: Helpers, input: SettingsInput): (s: Settings)
    ensures forall m :: m in s.formUserMappings ==> !BlankMapping(m)
    ensures s.debugMode <==> input.debugMode.Some? && !PhpEmpty(input.debugMode.value)
  {
    var s := Validated(wp, input);
    s.(debugMode := DebugModeCorrected(input),
       formUserMappings := NonBlankMappings(s.formUserMappings),
       fieldMappings := match s.fieldMappings
                        case Some(t) => Some(NonBlankTable(t))
                        case None => None)
  }

  /** Dropping blanks after validating is testing the sanitised values: a mapping is stored
      iff it is some candidate with both sides set and both sanitised sides non-empty
      (sanitize_text_field leaves '' and '0' alone). */
  lemma CorrectedMappingsMembers(wp: Helpers, cs: seq<MappingItem>, m: Mapping)
    requires wp.sanitizeText("") == "" && wp.sanitizeText("0") == "0"
    ensures m in NonBlankMappings(KeptMappings(wp, cs)) <==>
              exists i :: 0 <= i < |cs| && cs[i].formId.Some? && cs[i].userId.Some? &&
                m == Mapping(wp.sanitizeText(cs[i].formId.value), wp.sanitizeText(cs[i].userId.value)) &&
                !BlankMapping(m)
  {
    KeptMappingsMembers(wp, cs, m);
    if exists i :: 0 <= i < |cs| && cs[i].formId.Some? && cs[i].userId.Some? &&
                m == Mapping(wp.sanitizeText(cs[i].formId.value), wp.sanitizeText(cs[i].userId.value)) &&
                !BlankMapping(m) {
      var i :| 0 <= i < |cs| && cs[i].formId.Some? && cs[i].userId.Some? &&
                m == Mapping(wp.sanitizeText(cs[i].formId.value), wp.sanitizeText(cs[i].userId.value)) &&
                !BlankMapping(m);
      assert Keeps(cs[i]);
    }
  }

  /** As written, re-validating stored settings whose debug mode is off turns it on:
      isset() is true for the stored 0. */
  lemma AsWrittenRevalidationEnablesDebug(s: Settings)
    requires !s.debugMode
    ensures DebugModeAsWritten(AsInput(s)) != s.debugMode
  {
  }

  /** The corrected rule agrees with the source on every input the settings form produces:
      the checkbox is either not submitted or submitted with value "1". */
  lemma DebugRulesAgreeOnFormInput(input: SettingsInput)
    requires input.debugMode == None || input.debugMode == Some("1")
    ensures DebugModeCorrected(input) == DebugModeAsWritten(input)
  {
  }

  /** As written, a mapping whose form id is a single space is stored (the raw value is not
      empty) with form id '', and the next validation drops it. */
  lemma AsWrittenBlankMappingDropped(wp: Helpers)
    requires wp.sanitizeText(" ") == "" && wp.sanitizeText("u") == "u"
    ensures var input := SettingsInput(None, None, None, None, None, None,
                                       Some(MappingList([MappingItem(Some(" "), Some("u"))])), None);
            Validated(wp, input).formUserMappings == [Mapping("", "u")] &&
            Validated(wp, AsInput(Validated(wp, input))).formUserMappings == []
  {
    var input := SettingsInput(None, None, None, None, None, None,
                               Some(MappingList([MappingItem(Some(" "), Some("u"))])), None);
    var cs := [MappingItem(Some(" "), Some("u"))];
    assert cs[..0] == [];
    assert KeptMappings(wp, cs) == [Mapping("", "u")];
    var items := MappingItems([Mapping("", "u")]);
    assert items == [MappingItem(Some(""), Some("u"))];
    assert items[..0] == [];
  }

  /** What a second validation does to validated settings, as written: debug mode comes out
      on, and exactly the mappings and targets that sanitising left blank are dropped. */
  lemma AsWrittenRevalidation(wp: Helpers, input: SettingsInput)
    requires SanitizerAssumptions(wp)
    ensures Validated(wp, AsInput(Validated(wp, input))) == ValidatedCorrected(wp, input).(debugMode := true)
  {
    var s := Validated(wp, input);
    ScalarStable(wp, input.username);
    ScalarStable(wp, input.apiKey);
    ScalarStable(wp, input.customEventTrigger);
    ListStable(wp, input.enabledFormTypes, DefaultFormTypes);
    ListStable(wp, input.eventTriggers, DefaultEventTriggers);
    KeptMappingsSanitized(wp, MappingCandidates(input.formUserMappings));
    RereadMappings(wp, s.formUserMappings);
    if input.fieldMappings.Some? && input.fieldMappings.value.FieldTable? {
      FieldMappingsStored(wp, input.fieldMappings.value.forms);
      RefilterTable(wp, s.fieldMappings.value);
    }
  }

  /** With the corrected rules, validating validated settings gives them back unchanged. */
  lemma RevalidationIsIdentity(wp: Helpers, input: SettingsInput)
    requires SanitizerAssumptions(wp)
    ensures ValidatedCorrected(wp, AsInput(ValidatedCorrected(wp, input))) == ValidatedCorrected(wp, input)
  {
    var s := Validated(wp, input);
    var c := ValidatedCorrected(wp, input);
    ScalarStable(wp, input.username);
    ScalarStable(wp, input.apiKey);
    ScalarStable(wp, input.customEventTrigger);
    ListStable(wp, input.enabledFormTypes, DefaultFormTypes);
    ListStable(wp, input.eventTriggers, DefaultEventTriggers);
    KeptMappingsSanitized(wp, MappingCandidates(input.formUserMappings));
    RereadMappings(wp, c.formUserMappings);
    NonBlankMappingsNoop(c.formUserMappings);
    NonBlankMappingsNoop(NonBlankMappings(c.formUserMappings));
    if input.fieldMappings.Some? && input.fieldMappings.value.FieldTable? {
      var t := s.fieldMappings.value;
      FieldMappingsStored(wp, input.fieldMappings.value.forms);
      NonBlankTableStored(wp, t);
      RefilterTable(wp, NonBlankTable(t));
      NonBlankTableTwice(t);
      NonBlankTableTwice(NonBlankTable(t));
    }
    var again := ValidatedCorrected(wp, AsInput(c));
    assert again.debugMode == c.debugMode;
    assert again.formUserMappings == c.formUserMappings;
    assert again.fieldMappings == c.fieldMappings;
  }
}
