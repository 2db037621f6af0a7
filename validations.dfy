/** The zod schemas (src/lib/validations.ts) as validators: each takes the
    raw record, reports every broken rule as an issue, and yields the typed
    value when there is none. Date parsing (`new Date(d).getTime()`, `None`
    for NaN) and the current time are parameters. */
module Validations {
  import opened Wrappers
  import opened Seqs
  import opened Types

  /** One broken rule. */
  datatype Issue = BadId | TitleTooShort | TitleTooLong | BadStatus | BadPriority
                 | DueDateNotFuture | BadDateFormat

  /** The messages the schemas set themselves; the other issues carry zod's
      built-in messages. */
  function CustomMessage(i: Issue): Option<string> {
    match i
    case TitleTooShort => Some("Title is required")
    case TitleTooLong => Some("Title must be less than 100 characters")
    case DueDateNotFuture => Some("Due date must be in the future")
    case BadDateFormat => Some("Invalid date format")
    case _ => None
  }

  /** Each custom message names one rule: no two issues share a message. */
  lemma CustomMessagesDistinct(i: Issue, j: Issue)
    requires CustomMessage(i).Some? && CustomMessage(i) == CustomMessage(j)
    ensures i == j
  {
  }

  /** A task-form submission as the form hands it over: status and priority
      as entered strings. */
  datatype RawForm = RawForm(
    title: string,
    description: Option<string>,
    status: string,
    priority: string,
    dueDate: Option<string>,
    assignee: Option<string>)

  /** A task record as received, before it is known to be well formed. */
  datatype RawTask = RawTask(
    id: string,
    title: string,
    description: Option<string>,
    status: string,
    priority: string,
    dueDate: Option<string>,
    assignee: Option<string>,
    createdAt: string,
    updatedAt: string)

  /** A filter record as received. */
  datatype RawFilters = RawFilters(
    status: Option<seq<string>>,
    priority: Option<seq<string>>,
    search: Option<string>)

  // ---------------------------------------------------------------------
  // The field rules

  /** `.min(1).max(100)`: 100 characters are still accepted. */
  predicate TitleOk(t: string) {
    1 <= |t| <= 100
  }

  /** `!date`: absent or the empty string. */
  predicate Blank(d: Option<string>) {
    d.None? || d.value == ""
  }

  /** The form's due-date refinement: blank, or a valid date not before now. */
  predicate FormDueOk(d: Option<string>, parse: string -> Option<int>, now: int) {
    Blank(d) || (parse(d.value).Some? && parse(d.value).value >= now)
  }

  /** The task schema's due-date refinement: blank, or a valid date. */
  predicate SchemaDueOk(d: Option<string>, parse: string -> Option<int>) {
    Blank(d) || parse(d.value).Some?
  }

  /** A due date the form admits is one the task schema admits. */
  lemma FormDueImpliesSchemaDue(d: Option<string>, parse: string -> Option<int>, now: int)
    requires FormDueOk(d, parse, now)
    ensures SchemaDueOk(d, parse)
  {
  }

  /** The form rule is strictly stronger: a valid date in the past passes
      the task schema but not the form. */
  lemma PastDateOnlyInSchema(d: string, parse: string -> Option<int>, now: int)
    requires d != "" && parse(d).Some? && parse(d).value < now
    ensures SchemaDueOk(Some(d), parse) && !FormDueOk(Some(d), parse, now)
  {
  }

  predicate IsHexDigit(c: char) {
    ('0' <= c <= '9') || ('a' <= c <= 'f') || ('A' <= c <= 'F')
  }

  /** `.uuid()`: five groups of 8, 4, 4, 4 and 12 hex digits joined by '-',
      letters in either case. */
  predicate IsUuid(s: string) {
    && |s| == 36
    && (forall i :: i in {8, 13, 18, 23} ==> s[i] == '-')
    && (forall i :: 0 <= i < 36 && i !in {8, 13, 18, 23} ==> IsHexDigit(s[i]))
  }

  // ---------------------------------------------------------------------
  // TaskFormSchema

  /** When `iss` is a broken rule of the form. */
  predicate FormBreaks(f: RawForm, parse: string -> Option<int>, now: int, iss: Issue) {
    match iss
    case TitleTooShort => |f.title| < 1
    case TitleTooLong => |f.title| > 100
    case BadStatus => ParseStatus(f.status).None?
    case BadPriority => ParsePriority(f.priority).None?
    case DueDateNotFuture => !FormDueOk(f.dueDate, parse, now)
    case _ => false
  }

  /** The form's issues, in field order. */
  function FormIssues(f: RawForm, parse: string -> Option<int>, now: int): (r: seq<Issue>)
    ensures forall iss: Issue :: iss in r <==> FormBreaks(f, parse, now, iss)
  {
    (if |f.title| < 1 then [TitleTooShort] else [])
    + (if |f.title| > 100 then [TitleTooLong] else [])
    + (if ParseStatus(f.status).None? then [BadStatus] else [])
    + (if ParsePriority(f.priority).None? then [BadPriority] else [])
    + (if !FormDueOk(f.dueDate, parse, now) then [DueDateNotFuture] else [])
  }

  /** `TaskFormSchema.safeParse`. */
  function ValidateForm(f: RawForm, parse: string -> Option<int>, now: int): (r: Result<TaskFormData, seq<Issue>>)
    ensures r.Ok? <==> (TitleOk(f.title) && ParseStatus(f.status).Some? && ParsePriority(f.priority).Some?
                        && FormDueOk(f.dueDate, parse, now))
    ensures r.Ok? ==> && r.value.title == f.title && r.value.description == f.description
                      && r.value.status.Name() == f.status && r.value.priority.Name() == f.priority
                      && r.value.dueDate == f.dueDate && r.value.assignee == f.assignee
    ensures r.Err? ==> r.error != [] && forall iss: Issue :: iss in r.error <==> FormBreaks(f, parse, now, iss)
  {
    var issues := FormIssues(f, parse, now);
    if issues != [] then Err(issues)
    else
      assert !FormBreaks(f, parse, now, BadStatus) && !FormBreaks(f, parse, now, BadPriority);
      Ok(TaskFormData(f.title, f.description, ParseStatus(f.status).value, ParsePriority(f.priority).value,
                      f.dueDate, f.assignee))
  }

  // ---------------------------------------------------------------------
  // TaskSchema

  predicate TaskBreaks(t: RawTask, parse: string -> Option<int>, iss: Issue) {
    match iss
    case BadId => !IsUuid(t.id)
    case TitleTooShort => |t.title| < 1
    case TitleTooLong => |t.title| > 100
    case BadStatus => ParseStatus(t.status).None?
    case BadPriority => ParsePriority(t.priority).None?
    case BadDateFormat => !SchemaDueOk(t.dueDate, parse)
    case _ => false
  }

  function TaskIssues(t: RawTask, parse: string -> Option<int>): (r: seq<Issue>)
    ensures forall iss: Issue :: iss in r <==> TaskBreaks(t, parse, iss)
  {
    (if !IsUuid(t.id) then [BadId] else [])
    + (if |t.title| < 1 then [TitleTooShort] else [])
    + (if |t.title| > 100 then [TitleTooLong] else [])
    + (if ParseStatus(t.status).None? then [BadStatus] else [])
    + (if ParsePriority(t.priority).None? then [BadPriority] else [])
    + (if !SchemaDueOk(t.dueDate, parse) then [BadDateFormat] else [])
  }

  /** `TaskSchema.safeParse`. */
  function ValidateTask(t: RawTask, parse: string -> Option<int>): (r: Result<Task, seq<Issue>>)
    ensures r.Ok? <==> (IsUuid(t.id) && TitleOk(t.title) && ParseStatus(t.status).Some?
                        && ParsePriority(t.priority).Some? && SchemaDueOk(t.dueDate, parse))
    ensures r.Ok? ==> RawTaskOf(r.value) == t
    ensures r.Err? ==> r.error != [] && forall iss: Issue :: iss in r.error <==> TaskBreaks(t, parse, iss)
  {
    var issues := TaskIssues(t, parse);
    if issues != [] then Err(issues)
    else
      assert !TaskBreaks(t, parse, BadStatus) && !TaskBreaks(t, parse, BadPriority);
      Ok(Task(t.id, t.title, t.description, ParseStatus(t.status).value, ParsePriority(t.priority).value,
              t.dueDate, t.assignee, t.createdAt, t.updatedAt))
  }

  /** A task as a raw record: its enums as their strings. */
  function RawTaskOf(t: Task): RawTask {
    RawTask(t.id, t.title, t.description, t.status.Name(), t.priority.Name(),
            t.dueDate, t.assignee, t.createdAt, t.updatedAt)
  }

  /** A task the store builds from an accepted form, with a well-formed id,
      passes the task schema unchanged. */
  lemma AcceptedFormMakesValidTask(f: RawForm, parse: string -> Option<int>, now: int,
                                   id: string, createdAt: string, updatedAt: string)
    requires ValidateForm(f, parse, now).Ok?
    requires IsUuid(id)
    ensures ValidateTask(RawTaskOf(Task(id, f.title, f.description,
                                        ValidateForm(f, parse, now).value.status,
                                        ValidateForm(f, parse, now).value.priority,
                                        f.dueDate, f.assignee, createdAt, updatedAt)), parse)
         == Ok(Task(id, f.title, f.description,
                    ValidateForm(f, parse, now).value.status,
                    ValidateForm(f, parse, now).value.priority,
                    f.dueDate, f.assignee, createdAt, updatedAt))
  {
    var data := ValidateForm(f, parse, now).value;
    FormDueImpliesSchemaDue(f.dueDate, parse, now);
    StatusesExactlyThree();
    PrioritiesExactlyThree();
    assert ParseStatus(data.status.Name()) == Some(data.status);
    assert ParsePriority(data.priority.Name()) == Some(data.priority);
  }

  // ---------------------------------------------------------------------
  // TaskFiltersSchema

  /** Every element of an optional list parses. */
  predicate AllParse<T>(xs: Option<seq<string>>, parse: string -> Option<T>) {
    xs.None? || forall i :: 0 <= i < |xs.value| ==> parse(xs.value[i]).Some?
  }

  function ParseAll<T>(xs: seq<string>, parse: string -> Option<T>): (r: Option<seq<T>>)
    ensures r.Some? <==> forall i :: 0 <= i < |xs| ==> parse(xs[i]).Some?
    ensures r.Some? ==> |r.value| == |xs| && forall i :: 0 <= i < |xs| ==> Some(r.value[i]) == parse(xs[i])
  {
    if xs == [] then Some([])
    else if parse(xs[0]).None? then None
    else
      var rest := ParseAll(xs[1..], parse);
      assert forall i :: 1 <= i < |xs| ==> xs[i] == xs[1..][i - 1];
      if rest.None? then None else Some([parse(xs[0]).value] + rest.value)
  }

  /** `TaskFiltersSchema.safeParse`: the lists, when present, must consist of
      enum strings; the search string is unconstrained. */
  function ValidateFilters(f: RawFilters): (r: Result<TaskFilters, seq<Issue>>)
    ensures r.Ok? <==> AllParse(f.status, ParseStatus) && AllParse(f.priority, ParsePriority)
    ensures r.Ok? ==> r.value.search == f.search
    ensures r.Ok? ==> RawFiltersOf(r.value) == f
    ensures r.Err? ==>
      && (BadStatus in r.error <==> !AllParse(f.status, ParseStatus))
      && (BadPriority in r.error <==> !AllParse(f.priority, ParsePriority))
    ensures r.Err? ==> forall iss :: iss in r.error ==> iss == BadStatus || iss == BadPriority
  {
    var st := if f.status.None? then Some(None) else if ParseAll(f.status.value, ParseStatus).None? then None
              else Some(Some(ParseAll(f.status.value, ParseStatus).value));
    var pr := if f.priority.None? then Some(None) else if ParseAll(f.priority.value, ParsePriority).None? then None
              else Some(Some(ParseAll(f.priority.value, ParsePriority).value));
    if st.None? || pr.None? then
      Err((if st.None? then [BadStatus] else []) + (if pr.None? then [BadPriority] else []))
    else
      ParsedNamesBack(f.status, ParseStatus, StatusName);
      ParsedNamesBack(f.priority, ParsePriority, PriorityName);
      Ok(TaskFilters(st.value, pr.value, f.search))
  }

  function StatusName(s: TaskStatus): string { s.Name() }

  function PriorityName(p: TaskPriority): string { p.Name() }

  /** Naming the parsed values of a list gives back the list, when every
      parsed value carries the name it was parsed from. */
  lemma ParsedNamesBack<T>(xs: Option<seq<string>>, parse: string -> Option<T>, name: T -> string)
    requires forall s :: parse(s).Some? ==> name(parse(s).value) == s
    ensures xs.Some? && ParseAll(xs.value, parse).Some? ==>
      Map(ParseAll(xs.value, parse).value, name) == xs.value
  {
    if xs.Some? && ParseAll(xs.value, parse).Some? {
      var ys := ParseAll(xs.value, parse).value;
      assert forall i :: 0 <= i < |ys| ==> Map(ys, name)[i] == name(parse(xs.value[i]).value);
    }
  }

  /** A filter record as raw data: its enums as their strings. */
  function RawFiltersOf(f: TaskFilters): RawFilters {
    RawFilters(if f.status.None? then None else Some(Map(f.status.value, StatusName)),
               if f.priority.None? then None else Some(Map(f.priority.value, PriorityName)),
               f.search)
  }

  /** Every typed filter record passes the schema and comes back unchanged. */
  lemma FiltersRoundTrip(f: TaskFilters)
    ensures ValidateFilters(RawFiltersOf(f)) == Ok(f)
  {
    StatusesExactlyThree();
    PrioritiesExactlyThree();
    var raw := RawFiltersOf(f);
    if f.status.Some? {
      var names := raw.status.value;
      assert forall i :: 0 <= i < |names| ==> ParseStatus(names[i]) == Some(f.status.value[i]);
      assert ParseAll(names, ParseStatus).value == f.status.value;
    }
    if f.priority.Some? {
      var names := raw.priority.value;
      assert forall i :: 0 <= i < |names| ==> ParsePriority(names[i]) == Some(f.priority.value[i]);
      assert ParseAll(names, ParsePriority).value == f.priority.value;
    }
  }
}
