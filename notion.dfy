/**
 * Writing to Notion: the per-record feedback loops of `insertToNotion`
 * (expenses) and `insertToNotion_gongzi` (salaries), and the add-or-update
 * decision of `insertToNotionConfig`.  Every HTTP exchange is an outcome the
 * caller supplies; what the model fixes is which requests are made, with
 * what, and which feedback line each outcome becomes.
 */
module Notion {
  import opened Wrappers
  import opened Json
  import opened Shaping
  import Validation

  const PagesUrl: string := "https://api.notion.com/v1/pages"
  const StatusOK: int := 200

  const NameField: string := "名称"
  const DescriptionField: string := "说明"
  const KindField: string := "开支类型"
  const UnitField: string := "单位"

  /** One request to the Notion pages endpoint: where it goes, whose key it carries, and its body. */
  datatype Request = Request(url: string, apiKey: string, payload: Value)

  /** What became of a request. */
  datatype PostOutcome =
    | RequestError(err: string)       // `http.NewRequest` failed
    | SendError(err: string)          // `client.Do` failed
    | Responded(code: int, status: string, body: Result<string, string>)
      // a response arrived; `body` is what reading it gave

  /** `fmt`'s `%v` rendering of a value and of a whole record. */
  datatype Printer = Printer(value: Value -> string, record: Record -> string)

  /** The feedback lines of an insert helper, or a panic from a failed type assertion. */
  datatype Insertion = Done(feedback: seq<string>) | Panicked

  /**
   * The feedback after the first `n` entries of a loop that ends at the
   * first panic: `steps[i]` is the lines entry `i` adds, None for a panic.
   */
  function Accumulated(steps: seq<Option<seq<string>>>, n: nat): Insertion
    requires n <= |steps|
    decreases n
  {
    if n == 0 then Done([])
    else
      match Accumulated(steps, n - 1)
      case Panicked => Panicked
      case Done(feedback) =>
        match steps[n - 1]
        case None => Panicked
        case Some(lines) => Done(feedback + lines)
  }

  /** A panic ends the loop: nothing after it is sent. */
  lemma {:induction false} PanicSticks(steps: seq<Option<seq<string>>>, n: nat, m: nat)
    requires n <= m <= |steps| && Accumulated(steps, n).Panicked?
    ensures Accumulated(steps, m).Panicked?
    decreases m
  {
    if m > n {
      PanicSticks(steps, n, m - 1);
    }
  }

  /** The loop panics exactly when one of its entries does. */
  lemma {:induction false} PanickedIffSomePanics(steps: seq<Option<seq<string>>>, n: nat)
    requires n <= |steps|
    ensures Accumulated(steps, n).Panicked? <==> exists i :: 0 <= i < n && steps[i].None?
    decreases n
  {
    if n > 0 {
      PanickedIffSomePanics(steps, n - 1);
      if Accumulated(steps, n - 1).Panicked? {
        var j :| 0 <= j < n - 1 && steps[j].None?;
        assert 0 <= j < n && steps[j].None?;
      } else if steps[n - 1].None? {
        assert 0 <= n - 1 < n && steps[n - 1].None?;
      } else {
        assert forall i | 0 <= i < n :: steps[i].Some?;
      }
    }
  }

  /** When every entry adds exactly one line, the feedback is those lines, in order. */
  lemma {:induction false} OneLineEach(steps: seq<Option<seq<string>>>, n: nat)
    requires n <= |steps|
    requires forall i | 0 <= i < n :: steps[i].Some? && |steps[i].value| == 1
    ensures Accumulated(steps, n).Done?
    ensures |Accumulated(steps, n).feedback| == n
    ensures forall i | 0 <= i < n :: Accumulated(steps, n).feedback[i] == steps[i].value[0]
    decreases n
  {
    if n > 0 {
      OneLineEach(steps, n - 1);
      var prev := Accumulated(steps, n - 1).feedback;
      var feedback := prev + steps[n - 1].value;
      assert Accumulated(steps, n) == Done(feedback);
      assert forall i | 0 <= i < n - 1 :: feedback[i] == prev[i];
    }
  }

  // ---------------------------------------------------------------------
  // Payload pieces

  /** `[]map[string]interface{}{{"text": {"content": s}}}`: a Notion title or rich text. */
  function RichText(s: string): Value {
    RecordList([map["text" := Object(map["content" := Str(s)])]])
  }

  /** The text a title or rich-text value carries. */
  function ContentOf(v: Value): Option<string> {
    if v.RecordList? && |v.records| == 1 && "text" in v.records[0]
       && v.records[0]["text"].Object? && "content" in v.records[0]["text"].fields
       && v.records[0]["text"].fields["content"].Str?
    then Some(v.records[0]["text"].fields["content"].s)
    else None
  }

  lemma ContentOfRichText(s: string)
    ensures ContentOf(RichText(s)) == Some(s)
  {
  }

  /** `{"select": {"name": s}}`. */
  function Select(s: string): Value {
    Object(map["select" := Object(map["name" := Str(s)])])
  }

  /** The feedback line for the outcome of inserting the record named `name`. */
  function PostLine(name: string, outcome: PostOutcome): string {
    match outcome
    case RequestError(err) => "Error creating request for " + name + ": " + err
    case SendError(err) => "Error inserting " + name + ": " + err
    case Responded(code, status, _) =>
      if code == StatusOK then "Successfully added: " + name
      else "Failed to add " + name + ": " + status
  }

  /** Only a 200 response is reported as added. */
  lemma PostLineAddedIffOk(name: string, outcome: PostOutcome)
    ensures PostLine(name, outcome) == "Successfully added: " + name <==>
      outcome.Responded? && outcome.code == StatusOK
  {
    var added := "Successfully added: " + name;
    assert added[0] == 'S';
    if outcome.RequestError? {
      assert PostLine(name, outcome)[0] == 'E';
    } else if outcome.SendError? {
      assert PostLine(name, outcome)[0] == 'E';
    } else if outcome.code != StatusOK {
      assert PostLine(name, outcome)[0] == 'F';
    }
  }

  // ---------------------------------------------------------------------
  // Expenses: insertToNotion

  /** "Missing required field: %s in entry: %v". */
  function MissingLine(field: string, entry: Record, pr: Printer): string {
    "Missing required field: " + field + " in entry: " + pr.record(entry)
  }

  /** "Invalid 说明 field in entry: %v" and the same for 备注. */
  function InvalidLine(field: string, entry: Record, pr: Printer): string {
    "Invalid " + field + " field in entry: " + pr.record(entry)
  }

  /** One line for every field of `fields` that is absent from `entry`, in order. */
  function MissingLines(entry: Record, fields: seq<string>, pr: Printer): (lines: seq<string>)
    ensures |lines| <= |fields|
    decreases |fields|
  {
    if fields == [] then []
    else
      var last := fields[|fields| - 1];
      MissingLines(entry, fields[..|fields| - 1], pr) + (if last !in entry then [MissingLine(last, entry, pr)] else [])
  }

  /** The fields of `fields` absent from `entry`. */
  function Absent(entry: Record, fields: seq<string>): seq<string>
    decreases |fields|
  {
    if fields == [] then []
    else
      var last := fields[|fields| - 1];
      Absent(entry, fields[..|fields| - 1]) + (if last !in entry then [last] else [])
  }

  /** The missing-field lines name exactly the absent fields, in order, and there are none when all are present. */
  lemma {:induction false} MissingLinesNameAbsent(entry: Record, fields: seq<string>, pr: Printer)
    ensures |MissingLines(entry, fields, pr)| == |Absent(entry, fields)|
    ensures forall i | 0 <= i < |Absent(entry, fields)| ::
      MissingLines(entry, fields, pr)[i] == MissingLine(Absent(entry, fields)[i], entry, pr)
    decreases |fields|
  {
    if fields != [] {
      var init := fields[..|fields| - 1];
      MissingLinesNameAbsent(entry, init, pr);
      var a := Absent(entry, init);
      var m := MissingLines(entry, init, pr);
      assert forall i | 0 <= i < |a| :: m[i] == MissingLine(a[i], entry, pr);
    }
  }

  /** There are no missing-field lines exactly when every field is present. */
  lemma {:induction false} NoMissingLinesIffPresent(entry: Record, fields: seq<string>, pr: Printer)
    ensures (forall f | f in fields :: f in entry) <==> MissingLines(entry, fields, pr) == []
    decreases |fields|
  {
    if fields != [] {
      var init := fields[..|fields| - 1];
      NoMissingLinesIffPresent(entry, init, pr);
      assert forall f | f in fields :: f in init || f == fields[|fields| - 1];
      assert forall f | f in init :: f in fields;
    }
  }

  /** An optional text field: "" when absent or nil, its text when a string, None when it is anything else. */
  function OptionalText(entry: Record, field: string): Option<string> {
    if PresentNonNull(entry, field) then
      (if entry[field].Str? then Some(entry[field].s) else None)
    else Some("")
  }

  /** The page `insertToNotion` creates, or None when one of its type assertions fails. */
  function ExpensePayload(databaseId: string, entry: Record, description: string, remark: string): Option<Value> {
    var name := Lookup(entry, NameField);
    var amount := Lookup(entry, Validation.AmountField);
    var tag := Lookup(entry, TagField);
    var date := Lookup(entry, Validation.DateField);
    var payment := Lookup(entry, Validation.PaymentField);
    var kind := Lookup(entry, KindField);
    if name.Str? && amount.Number? && tag.Str? && date.Str? && payment.Str? && kind.Str? then
      Some(Object(map[
        "parent" := Object(map["database_id" := Str(databaseId)]),
        "properties" := Object(map[
          NameField := Object(map["title" := RichText(name.s)]),
          Validation.AmountField := Object(map["number" := amount]),
          TagField := Select(tag.s),
          Validation.DateField := Object(map["date" := Object(map["start" := date])]),
          Validation.PaymentField := Select(payment.s),
          KindField := Select(kind.s),
          DescriptionField := Object(map["rich_text" := RichText(description)]),
          Validation.RemarkField := Object(map["rich_text" := RichText(remark)])
        ])
      ]))
    else None
  }

  /**
   * The lines one entry adds: a line per absent required field (the loop's
   * `continue` only ends the inner loop), then either an invalid-field line
   * that skips the entry, a panic, or the line for the outcome of its request.
   */
  function ExpenseLines(databaseId: string, apiKey: string, entry: Record, i: nat, pr: Printer,
                        post: (nat, Request) -> PostOutcome): Option<seq<string>>
  {
    var missing := MissingLines(entry, Validation.RequiredExpenseFields, pr);
    var description := OptionalText(entry, DescriptionField);
    var remark := OptionalText(entry, Validation.RemarkField);
    if description.None? then Some(missing + [InvalidLine(DescriptionField, entry, pr)])
    else if remark.None? then Some(missing + [InvalidLine(Validation.RemarkField, entry, pr)])
    else
      match ExpensePayload(databaseId, entry, description.value, remark.value)
      case None => None
      case Some(payload) =>
        Some(missing + [PostLine(pr.value(Lookup(entry, NameField)), post(i, Request(PagesUrl, apiKey, payload)))])
  }

  /** What each of the first `n` entries of the flat list adds, in order. */
  function ExpenseSteps(databaseId: string, apiKey: string, flat: seq<Record>, n: nat, pr: Printer,
                        post: (nat, Request) -> PostOutcome): (steps: seq<Option<seq<string>>>)
    requires n <= |flat|
    ensures |steps| == n
    ensures forall i | 0 <= i < n :: steps[i] == ExpenseLines(databaseId, apiKey, flat[i], i, pr, post)
    decreases n
  {
    if n == 0 then []
    else ExpenseSteps(databaseId, apiKey, flat, n - 1, pr, post) + [ExpenseLines(databaseId, apiKey, flat[n - 1], n - 1, pr, post)]
  }

  /** What `insertToNotion` returns for a batch. */
  function ExpenseInsertion(databaseId: string, apiKey: string, expenses: seq<Record>, pr: Printer,
                            post: (nat, Request) -> PostOutcome): Insertion
  {
    var flat := Flattened(expenses);
    Accumulated(ExpenseSteps(databaseId, apiKey, flat, |flat|, pr, post), |flat|)
  }

  /** The body of the entry loop of `insertToNotion`: None is a panic. */
  method InsertExpense(databaseId: string, apiKey: string, entry: Record, i: nat, pr: Printer,
                       post: (nat, Request) -> PostOutcome) returns (lines: Option<seq<string>>)
    ensures lines == ExpenseLines(databaseId, apiKey, entry, i, pr, post)
  {
    var feedback: seq<string> := [];
    var fields := Validation.RequiredExpenseFields;
    for k := 0 to |fields|
      invariant feedback == MissingLines(entry, fields[..k], pr)
    {
      assert fields[..k + 1][..k] == fields[..k];
      if fields[k] !in entry {
        feedback := feedback + [MissingLine(fields[k], entry, pr)];
      }
    }
    assert fields[..|fields|] == fields;
    var description := "";
    if DescriptionField in entry && entry[DescriptionField] != Null {
      if entry[DescriptionField].Str? {
        description := entry[DescriptionField].s;
      } else {
        return Some(feedback + [InvalidLine(DescriptionField, entry, pr)]);
      }
    }
    var remark := "";
    if Validation.RemarkField in entry && entry[Validation.RemarkField] != Null {
      if entry[Validation.RemarkField].Str? {
        remark := entry[Validation.RemarkField].s;
      } else {
        return Some(feedback + [InvalidLine(Validation.RemarkField, entry, pr)]);
      }
    }
    var payload := ExpensePayload(databaseId, entry, description, remark);
    if payload.None? {
      return None;
    }
    var outcome := post(i, Request(PagesUrl, apiKey, payload.value));
    return Some(feedback + [PostLine(pr.value(Lookup(entry, NameField)), outcome)]);
  }

  /** `insertToNotion`: flatten, then one request per entry, collecting feedback. */
  method InsertExpenses(databaseId: string, apiKey: string, expenses: seq<Record>, pr: Printer,
                        post: (nat, Request) -> PostOutcome) returns (r: Insertion)
    ensures r == ExpenseInsertion(databaseId, apiKey, expenses, pr, post)
  {
    var flat := Flatten(expenses);
    ghost var steps := ExpenseSteps(databaseId, apiKey, flat, |flat|, pr, post);
    var feedback: seq<string> := [];
    for i := 0 to |flat|
      invariant Accumulated(steps, i) == Done(feedback)
    {
      var lines := InsertExpense(databaseId, apiKey, flat[i], i, pr, post);
      assert steps[i] == lines;
      if lines.None? {
        PanicSticks(steps, i + 1, |flat|);
        return Panicked;
      }
      feedback := feedback + lines.value;
    }
    return Done(feedback);
  }

  /** The checks a validated entry has not already passed: its name, tag and kind are strings and its 说明 is text. */
  predicate Insertable(entry: Record) {
    && Lookup(entry, NameField).Str? && Lookup(entry, TagField).Str? && Lookup(entry, KindField).Str?
    && OptionalText(entry, DescriptionField).Some?
  }

  /** A record that passed validation, and whose remaining fields are text, yields exactly the line for its request. */
  lemma ValidatedEntryLines(databaseId: string, apiKey: string, e: Record, i: nat, pr: Printer,
                            post: (nat, Request) -> PostOutcome)
    requires Validation.ValidExpense(e) && Insertable(e)
    ensures var entry := Validation.NormaliseRemark(e);
      ExpenseLines(databaseId, apiKey, entry, i, pr, post).Some? &&
      |ExpenseLines(databaseId, apiKey, entry, i, pr, post).value| == 1
  {
    var entry := Validation.NormaliseRemark(e);
    var fs := Validation.RequiredExpenseFields;
    assert forall f | f in fs :: f in entry;
    NoMissingLinesIffPresent(entry, fs, pr);
  }

  /**
   * The expense loop panics exactly when an entry fails a type assertion;
   * when each entry yields one line, line `i` is entry `i`'s own line.
   */
  lemma ExpensesOneGroupEach(databaseId: string, apiKey: string, flat: seq<Record>, pr: Printer,
                             post: (nat, Request) -> PostOutcome)
    ensures Accumulated(ExpenseSteps(databaseId, apiKey, flat, |flat|, pr, post), |flat|).Panicked? <==>
      exists i :: 0 <= i < |flat| && ExpenseLines(databaseId, apiKey, flat[i], i, pr, post).None?
    ensures (forall i | 0 <= i < |flat| :: ExpenseLines(databaseId, apiKey, flat[i], i, pr, post).Some? &&
               |ExpenseLines(databaseId, apiKey, flat[i], i, pr, post).value| == 1) ==>
      var r := Accumulated(ExpenseSteps(databaseId, apiKey, flat, |flat|, pr, post), |flat|);
      r.Done? && |r.feedback| == |flat| &&
      forall i | 0 <= i < |flat| :: ExpenseLines(databaseId, apiKey, flat[i], i, pr, post) == Some([r.feedback[i]])
  {
    var steps := ExpenseSteps(databaseId, apiKey, flat, |flat|, pr, post);
    PanickedIffSomePanics(steps, |flat|);
    if forall i | 0 <= i < |flat| :: ExpenseLines(databaseId, apiKey, flat[i], i, pr, post).Some? &&
         |ExpenseLines(databaseId, apiKey, flat[i], i, pr, post).value| == 1 {
      OneLineEach(steps, |flat|);
      forall i | 0 <= i < |flat|
        ensures steps[i] == Some([steps[i].value[0]])
      {
        assert steps[i].value == [steps[i].value[0]];
      }
    }
  }

  /**
   * A batch that passed validation, decoded from JSON, whose names, tags,
   * kinds and 说明 are text, gets exactly one feedback line per record:
   * line `i` is the one line of record `i`, its remark defaulted.
   */
  lemma ValidatedBatchOneLineEach(databaseId: string, apiKey: string, es: seq<Record>, pr: Printer,
                                  post: (nat, Request) -> PostOutcome)
    requires Validation.ValidatedExpenses(es).Success?
    requires forall i | 0 <= i < |es| :: DecodedRecord(es[i]) && Insertable(es[i])
    ensures var r := ExpenseInsertion(databaseId, apiKey, Validation.ValidatedExpenses(es).value, pr, post);
      r.Done? && |r.feedback| == |es| &&
      forall i | 0 <= i < |es| ::
        ExpenseLines(databaseId, apiKey, Validation.NormaliseRemark(es[i]), i, pr, post) == Some([r.feedback[i]])
  {
    Validation.ExpensesAllOrNothing(es);
    var flat := Validation.NormaliseAll(es);
    forall i | 0 <= i < |flat|
      ensures DecodedRecord(flat[i])
      ensures ExpenseLines(databaseId, apiKey, flat[i], i, pr, post).Some?
      ensures |ExpenseLines(databaseId, apiKey, flat[i], i, pr, post).value| == 1
    {
      ValidatedEntryLines(databaseId, apiKey, es[i], i, pr, post);
    }
    FlattenDecodedIsIdentity(flat);
    ExpensesOneGroupEach(databaseId, apiKey, flat, pr, post);
  }

  /** A failed type assertion panics only after the entry passed the 说明 and 备注 checks. */
  lemma ExpensePanicIffUnassertable(databaseId: string, apiKey: string, entry: Record, i: nat, pr: Printer,
                                    post: (nat, Request) -> PostOutcome)
    ensures ExpenseLines(databaseId, apiKey, entry, i, pr, post).None? <==>
      var description := OptionalText(entry, DescriptionField);
      var remark := OptionalText(entry, Validation.RemarkField);
      description.Some? && remark.Some? && ExpensePayload(databaseId, entry, description.value, remark.value).None?
  {
  }

  /**
   * The inner `continue` only leaves the field loop: an entry missing a
   * required field still gets one line per absent field, and then it is
   * either skipped for an invalid 说明 or 备注 or panics; it is never sent.
   */
  lemma MissingFieldNeverSent(databaseId: string, apiKey: string, entry: Record, i: nat, pr: Printer,
                              post: (nat, Request) -> PostOutcome, f: string)
    requires f in Validation.RequiredExpenseFields && f !in entry
    ensures var lines := ExpenseLines(databaseId, apiKey, entry, i, pr, post);
      lines.None? ||
      (var missing := MissingLines(entry, Validation.RequiredExpenseFields, pr);
       missing != [] && (lines.value == missing + [InvalidLine(DescriptionField, entry, pr)] ||
                         lines.value == missing + [InvalidLine(Validation.RemarkField, entry, pr)]))
  {
    var fs := Validation.RequiredExpenseFields;
    NoMissingLinesIffPresent(entry, fs, pr);
    assert fs[0] == NameField && fs[1] == Validation.AmountField && fs[2] == TagField;
    assert fs[3] == Validation.DateField && fs[4] == Validation.PaymentField && fs[5] == KindField;
  }

  // ---------------------------------------------------------------------
  // Salaries: insertToNotion_gongzi

  /** The page `insertToNotion_gongzi` creates, or None when one of its type assertions fails. */
  function SalaryPayload(databaseId: string, entry: Record, tags: seq<Record>): Option<Value> {
    var name := Lookup(entry, NameField);
    var date := Lookup(entry, Validation.DateField);
    var amount := Lookup(entry, Validation.AmountField);
    var unit := Lookup(entry, UnitField);
    if name.Str? && date.Str? && amount.Number? && unit.Str? then
      Some(Object(map[
        "parent" := Object(map["database_id" := Str(databaseId)]),
        "properties" := Object(map[
          NameField := Object(map["title" := RichText(name.s)]),
          TagField := Object(map["multi_select" := RecordList(tags)]),
          Validation.DateField := Object(map["date" := Object(map["start" := date])]),
          Validation.AmountField := Object(map["number" := amount]),
          "工作单位" := Select(unit.s)
        ])
      ]))
    else None
  }

  /** The one line a salary entry adds, or None for a panic. */
  function SalaryLine(databaseId: string, apiKey: string, entry: Record, i: nat, pr: Printer,
                      post: (nat, Request) -> PostOutcome): Option<string>
  {
    match SalaryPayload(databaseId, entry, TagObjects(Lookup(entry, TagField)))
    case None => None
    case Some(payload) => Some(PostLine(pr.value(Lookup(entry, NameField)), post(i, Request(PagesUrl, apiKey, payload))))
  }

  /** A salary entry's line as the lines it adds, None for a panic. */
  function AsLines(line: Option<string>): (lines: Option<seq<string>>)
    ensures lines.None? <==> line.None?
    ensures lines.Some? ==> lines.value == [line.value]
  {
    match line
    case None => None
    case Some(l) => Some([l])
  }

  /** What each of the first `n` salary entries adds: its one line, or a panic. */
  function SalarySteps(databaseId: string, apiKey: string, flat: seq<Record>, n: nat, pr: Printer,
                       post: (nat, Request) -> PostOutcome): (steps: seq<Option<seq<string>>>)
    requires n <= |flat|
    ensures |steps| == n
    ensures forall i | 0 <= i < n :: steps[i] == AsLines(SalaryLine(databaseId, apiKey, flat[i], i, pr, post))
    decreases n
  {
    if n == 0 then []
    else SalarySteps(databaseId, apiKey, flat, n - 1, pr, post) + [AsLines(SalaryLine(databaseId, apiKey, flat[n - 1], n - 1, pr, post))]
  }

  /** What `insertToNotion_gongzi` returns for a batch. */
  function SalaryInsertion(databaseId: string, apiKey: string, expenses: seq<Record>, pr: Printer,
                           post: (nat, Request) -> PostOutcome): Insertion
  {
    var flat := Flattened(expenses);
    Accumulated(SalarySteps(databaseId, apiKey, flat, |flat|, pr, post), |flat|)
  }

  /** `insertToNotion_gongzi`: flatten, shape the tags, one request per entry. */
  method InsertSalaries(databaseId: string, apiKey: string, expenses: seq<Record>, pr: Printer,
                        post: (nat, Request) -> PostOutcome) returns (r: Insertion)
    ensures r == SalaryInsertion(databaseId, apiKey, expenses, pr, post)
  {
    var flat := Flatten(expenses);
    ghost var steps := SalarySteps(databaseId, apiKey, flat, |flat|, pr, post);
    var feedback: seq<string> := [];
    for i := 0 to |flat|
      invariant Accumulated(steps, i) == Done(feedback)
    {
      var entry := flat[i];
      var tags := ShapeTags(entry);
      var payload := SalaryPayload(databaseId, entry, tags);
      if payload.None? {
        assert steps[i].None?;
        PanicSticks(steps, i + 1, |flat|);
        return Panicked;
      }
      var outcome := post(i, Request(PagesUrl, apiKey, payload.value));
      var line := PostLine(pr.value(Lookup(entry, NameField)), outcome);
      assert steps[i] == Some([line]);
      feedback := feedback + [line];
    }
    return Done(feedback);
  }

  /**
   * A salary batch gets exactly one line per entry, the line for its
   * request's outcome, unless some entry fails a type assertion, and then
   * the whole call panics.
   */
  lemma SalaryLinePerEntry(databaseId: string, apiKey: string, flat: seq<Record>, pr: Printer,
                           post: (nat, Request) -> PostOutcome)
    ensures Accumulated(SalarySteps(databaseId, apiKey, flat, |flat|, pr, post), |flat|).Panicked? <==>
      exists i :: 0 <= i < |flat| && SalaryLine(databaseId, apiKey, flat[i], i, pr, post).None?
    ensures Accumulated(SalarySteps(databaseId, apiKey, flat, |flat|, pr, post), |flat|).Done? ==>
      var feedback := Accumulated(SalarySteps(databaseId, apiKey, flat, |flat|, pr, post), |flat|).feedback;
      |feedback| == |flat| &&
      forall i | 0 <= i < |flat| :: SalaryLine(databaseId, apiKey, flat[i], i, pr, post) == Some(feedback[i])
  {
    var steps := SalarySteps(databaseId, apiKey, flat, |flat|, pr, post);
    PanickedIffSomePanics(steps, |flat|);
    if Accumulated(steps, |flat|).Done? {
      assert forall i | 0 <= i < |flat| :: steps[i].Some? && |steps[i].value| == 1;
      OneLineEach(steps, |flat|);
    }
  }

  /** The multi-select sent for a salary entry holds its tags, in order. */
  lemma SalaryTagsSent(databaseId: string, entry: Record)
    requires SalaryPayload(databaseId, entry, TagObjects(Lookup(entry, TagField))).Some?
    ensures var p := SalaryPayload(databaseId, entry, TagObjects(Lookup(entry, TagField))).value;
      var tags := p.fields["properties"].fields[TagField].fields["multi_select"].records;
      TagNames(tags) == (if Lookup(entry, TagField).Array? then Lookup(entry, TagField).items else [Lookup(entry, TagField)])
  {
    TagNamesRecovered(Lookup(entry, TagField));
  }

  // ---------------------------------------------------------------------
  // Bindings: insertToNotionConfig

  /** The two environment variables the binding store needs. */
  datatype Env = Env(configDatabaseId: string, configApiKey: string)

  /** The page that records a binding of `userId` to a database. */
  function ConfigPayload(configDatabaseId: string, userId: string, apiKey: string, databaseId: string,
                         databaseType: string): Value
  {
    Object(map[
      "parent" := Object(map["database_id" := Str(configDatabaseId)]),
      "properties" := Object(map[
        "用户id" := Object(map["title" := RichText(userId)]),
        "NOTION_API_KEY" := Object(map["rich_text" := RichText(apiKey)]),
        "DATABASE_ID" := Object(map["rich_text" := RichText(databaseId)]),
        "数据库类型" := Select(databaseType)
      ])
    ])
  }

  /** The URL the binding is posted to: the existing page's own, or the pages collection. */
  function UpsertUrl(existingPageId: string): string {
    if existingPageId != "" then PagesUrl + "/" + existingPageId else PagesUrl
  }

  /**
   * `insertToNotionConfig`: the reply lines for binding `userId` to a
   * database, given the environment, the lookup of an existing page for
   * (user, type), and what became of the request.
   */
  function ConfigReply(userId: string, apiKey: string, databaseId: string, databaseType: string, env: Env,
                       existingPage: (string, string) -> Result<string, string>,
                       post: Request -> PostOutcome): (lines: seq<string>)
    ensures |lines| == 1
  {
    if env.configDatabaseId == "" then ["NOTION_CONFIG_DATABASE_ID 未设置"]
    else if env.configApiKey == "" then ["NOTION_API_KEY 未设置"]
    else
      match existingPage(userId, databaseType)
      case Failure(err) => ["Error querying existing page: " + err]
      case Success(pageId) =>
        var payload := ConfigPayload(env.configDatabaseId, userId, apiKey, databaseId, databaseType);
        match post(Request(UpsertUrl(pageId), env.configApiKey, payload))
        case RequestError(err) => ["Error creating request: " + err]
        case SendError(err) => ["Error sending request: " + err]
        case Responded(code, _, body) =>
          if body.Failure? then ["Error reading response: " + body.error]
          else if code == StatusOK then
            (if pageId != "" then ["Successfully updated: " + userId] else ["Successfully added: " + userId])
          else ["Failed to add/update " + userId + ": " + body.value]
  }

  /** The existing page's URL is used exactly when a page id was found; the pages collection otherwise. */
  lemma UpsertTarget(pageId: string)
    ensures UpsertUrl(pageId) == PagesUrl <==> pageId == ""
    ensures pageId != "" ==> UpsertUrl(pageId) == PagesUrl + "/" + pageId
  {
    if pageId != "" {
      assert |PagesUrl + "/" + pageId| == |PagesUrl| + 1 + |pageId|;
    }
  }

  /** With both variables set and a page id found, a 200 reply reports an update exactly when the id is non-empty. */
  lemma {:induction false} UpsertReportsUpdate(userId: string, apiKey: string, databaseId: string, databaseType: string,
                                               env: Env, existingPage: (string, string) -> Result<string, string>,
                                               post: Request -> PostOutcome)
    requires env.configDatabaseId != "" && env.configApiKey != ""
    requires existingPage(userId, databaseType).Success?
    requires var pageId := existingPage(userId, databaseType).value;
      var payload := ConfigPayload(env.configDatabaseId, userId, apiKey, databaseId, databaseType);
      var outcome := post(Request(UpsertUrl(pageId), env.configApiKey, payload));
      outcome.Responded? && outcome.code == StatusOK && outcome.body.Success?
    ensures var pageId := existingPage(userId, databaseType).value;
      ConfigReply(userId, apiKey, databaseId, databaseType, env, existingPage, post) ==
        [(if pageId != "" then "Successfully updated: " else "Successfully added: ") + userId]
  {
  }

  /** The page posted for a binding stores the user id, the key, the database id and the type given. */
  lemma ConfigPayloadStoresBinding(configDatabaseId: string, userId: string, apiKey: string, databaseId: string,
                                   databaseType: string)
    ensures var props := ConfigPayload(configDatabaseId, userId, apiKey, databaseId, databaseType).fields["properties"].fields;
      && ContentOf(props["用户id"].fields["title"]) == Some(userId)
      && ContentOf(props["NOTION_API_KEY"].fields["rich_text"]) == Some(apiKey)
      && ContentOf(props["DATABASE_ID"].fields["rich_text"]) == Some(databaseId)
      && props["数据库类型"].fields["select"].fields["name"] == Str(databaseType)
  {
    ContentOfRichText(userId);
    ContentOfRichText(apiKey);
    ContentOfRichText(databaseId);
  }
}
