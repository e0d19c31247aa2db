/**
 * Checking the records the language model returned before anything is
 * written to Notion: `processRequest` for expenses and
 * `processRequest_gongzi` for salaries.  A batch is accepted whole or not
 * at all.
 */
module Validation {
  import opened Wrappers
  import opened Json

  /** The fields every expense must carry, in the order they are checked. */
  const RequiredExpenseFields: seq<string> := ["名称", "金额", "标签", "日期", "支付方式", "开支类型"]

  const AmountField: string := "金额"
  const PaymentField: string := "支付方式"
  const DateField: string := "日期"
  const RemarkField: string := "备注"

  /** The accepted payment methods. */
  const PaymentMethods: seq<string> := ["支付宝", "微信", "银行卡"]

  /** The keys every salary record must have, in the order they are checked. */
  const SalaryFields: seq<string> := ["名称", "标签", "日期", "金额", "单位"]

  /** Why a batch was refused. */
  datatype ValidationError =
    | MissingOrNil(field: string)         // "missing or nil field: %s"
    | InvalidAmount(value: Value)         // "invalid amount: %v"
    | InvalidPaymentMethod(value: Value)  // "invalid payment method: %v"
    | InvalidDate(value: Value)           // "invalid date format: %v"
    | InvalidRemark(value: Value)         // "invalid remark field: %v"
    | MissingField(field: string)         // salary records: "missing required field: %s"

  /** The error's text, as `fmt.Errorf` words it; `render` is `%v`. */
  function ErrorText(err: ValidationError, render: Value -> string): string {
    match err
    case MissingOrNil(field) => "missing or nil field: " + field
    case InvalidAmount(v) => "invalid amount: " + render(v)
    case InvalidPaymentMethod(v) => "invalid payment method: " + render(v)
    case InvalidDate(v) => "invalid date format: " + render(v)
    case InvalidRemark(v) => "invalid remark field: " + render(v)
    case MissingField(field) => "missing required field: " + field
  }

  /** `contains`: a linear scan for `m`. */
  method Contains(valid: seq<string>, m: string) returns (found: bool)
    ensures found <==> m in valid
  {
    for i := 0 to |valid|
      invariant m !in valid[..i]
    {
      if valid[i] == m {
        return true;
      }
    }
    return false;
  }

  // ---------------------------------------------------------------------
  // Expenses

  /** What one pass of the inner loop finds wrong with `field`, if anything. */
  function FieldFailure(e: Record, field: string): Option<ValidationError> {
    if !PresentNonNull(e, field) then Some(MissingOrNil(field))
    else
      var v := e[field];
      if field == AmountField then
        (if v.Number? && v.x > 0.0 then None else Some(InvalidAmount(v)))
      else if field == PaymentField then
        (if v.Str? && v.s in PaymentMethods then None else Some(InvalidPaymentMethod(v)))
      else if field == DateField then
        (if v.Str? then None else Some(InvalidDate(v)))
      else None
  }

  /** The failure of the first field in `fields` that fails. */
  function FirstFailure(e: Record, fields: seq<string>): Option<ValidationError>
    decreases |fields|
  {
    if fields == [] then None
    else if FieldFailure(e, fields[0]).Some? then FieldFailure(e, fields[0])
    else FirstFailure(e, fields[1..])
  }

  /** A remark that is present and not nil must be a string. */
  function RemarkFailure(e: Record): Option<ValidationError> {
    if PresentNonNull(e, RemarkField) && !e[RemarkField].Str? then Some(InvalidRemark(e[RemarkField]))
    else None
  }

  /** The error one expense raises: its first failing required field, else its remark. */
  function ExpenseFailure(e: Record): Option<ValidationError> {
    match FirstFailure(e, RequiredExpenseFields)
    case Some(err) => Some(err)
    case None => RemarkFailure(e)
  }

  /** `expense["备注"] = ""` when the remark is absent or nil. */
  function NormaliseRemark(e: Record): Record {
    if PresentNonNull(e, RemarkField) then e else e[RemarkField := Str("")]
  }

  function NormaliseAll(es: seq<Record>): (r: seq<Record>)
    ensures |r| == |es| && forall i :: 0 <= i < |es| ==> r[i] == NormaliseRemark(es[i])
  {
    seq(|es|, i requires 0 <= i < |es| => NormaliseRemark(es[i]))
  }

  /** The result of the validation loop: every record normalised, or the first error. */
  function ValidatedExpenses(es: seq<Record>): Result<seq<Record>, ValidationError>
    decreases |es|
  {
    if es == [] then Success([])
    else
      match ExpenseFailure(es[0])
      case Some(err) => Failure(err)
      case None =>
        match ValidatedExpenses(es[1..])
        case Failure(err) => Failure(err)
        case Success(rest) => Success([NormaliseRemark(es[0])] + rest)
  }

  /** An acceptable expense, stated field by field. */
  predicate ValidExpense(e: Record) {
    && (forall f | f in RequiredExpenseFields :: PresentNonNull(e, f))
    && Lookup(e, AmountField).Number? && Lookup(e, AmountField).x > 0.0
    && Lookup(e, PaymentField).Str? && Lookup(e, PaymentField).s in PaymentMethods
    && Lookup(e, DateField).Str?
    && (PresentNonNull(e, RemarkField) ==> Lookup(e, RemarkField).Str?)
  }

  /** `prefix` put in front of an accepted batch; an error passes through. */
  function Prepend(prefix: seq<Record>, r: Result<seq<Record>, ValidationError>): Result<seq<Record>, ValidationError> {
    match r
    case Failure(err) => Failure(err)
    case Success(rest) => Success(prefix + rest)
  }

  lemma PrependTwice(a: seq<Record>, b: seq<Record>, r: Result<seq<Record>, ValidationError>)
    ensures Prepend(a, Prepend(b, r)) == Prepend(a + b, r)
  {
    if r.Success? {
      assert a + (b + r.value) == (a + b) + r.value;
    }
  }

  lemma PrependNothing(r: Result<seq<Record>, ValidationError>)
    ensures Prepend([], r) == r
  {
    if r.Success? {
      assert [] + r.value == r.value;
    }
  }

  lemma ValidatedCons(es: seq<Record>)
    requires es != [] && ExpenseFailure(es[0]).None?
    ensures ValidatedExpenses(es) == Prepend([NormaliseRemark(es[0])], ValidatedExpenses(es[1..]))
  {
  }

  lemma NormalisePrefixCons(es: seq<Record>, i: nat)
    requires 0 < i <= |es|
    ensures NormaliseAll(es[..i]) == [NormaliseRemark(es[0])] + NormaliseAll(es[1..][..i - 1])
  {
    assert es[1..][..i - 1] == es[1..i];
  }

  /** Validation of a batch whose first `i` records pass continues with the rest. */
  lemma {:induction false} ValidatedAfterPrefix(es: seq<Record>, i: nat)
    requires i <= |es|
    requires forall j :: 0 <= j < i ==> ExpenseFailure(es[j]).None?
    ensures ValidatedExpenses(es) == Prepend(NormaliseAll(es[..i]), ValidatedExpenses(es[i..]))
    decreases i
  {
    if i == 0 {
      assert es[0..] == es;
      assert NormaliseAll(es[..0]) == [];
      PrependNothing(ValidatedExpenses(es));
    } else {
      var tail := es[1..];
      ValidatedAfterPrefix(tail, i - 1);
      assert tail[i - 1..] == es[i..];
      ValidatedCons(es);
      var head := [NormaliseRemark(es[0])];
      NormalisePrefixCons(es, i);
      PrependTwice(head, NormaliseAll(tail[..i - 1]), ValidatedExpenses(es[i..]));
    }
  }

  /** The inner loop over the required fields of one expense, then the remark. */
  method CheckExpense(expense: Record) returns (err: Option<ValidationError>)
    ensures err == ExpenseFailure(expense)
  {
    var k := 0;
    while k < |RequiredExpenseFields|
      invariant 0 <= k <= |RequiredExpenseFields|
      invariant FirstFailure(expense, RequiredExpenseFields) == FirstFailure(expense, RequiredExpenseFields[k..])
    {
      var field := RequiredExpenseFields[k];
      assert RequiredExpenseFields[k..][1..] == RequiredExpenseFields[k + 1..];
      if field !in expense || expense[field] == Null {
        return Some(MissingOrNil(field));
      }
      var value := expense[field];
      if field == AmountField {
        if !(value.Number? && value.x > 0.0) {
          return Some(InvalidAmount(value));
        }
      } else if field == PaymentField {
        var ok := value.Str?;
        if ok {
          ok := Contains(PaymentMethods, value.s);
        }
        if !ok {
          return Some(InvalidPaymentMethod(value));
        }
      } else if field == DateField {
        if !value.Str? {
          return Some(InvalidDate(value));
        }
      }
      k := k + 1;
    }
    if RemarkField in expense && expense[RemarkField] != Null {
      if !expense[RemarkField].Str? {
        return Some(InvalidRemark(expense[RemarkField]));
      }
    }
    return None;
  }

  /** Validation from a record that passes goes on with the next one. */
  lemma ValidatedStep(es: seq<Record>, i: nat)
    requires i < |es| && ExpenseFailure(es[i]).None?
    ensures ValidatedExpenses(es[i..]) == Prepend([NormaliseRemark(es[i])], ValidatedExpenses(es[i + 1..]))
  {
    assert es[i..][0] == es[i] && es[i..][1..] == es[i + 1..];
    ValidatedCons(es[i..]);
  }

  /** Validation from a record that fails stops with its error. */
  lemma ValidatedStops(es: seq<Record>, i: nat)
    requires i < |es| && ExpenseFailure(es[i]).Some?
    ensures ValidatedExpenses(es[i..]) == Failure(ExpenseFailure(es[i]).value)
  {
    assert es[i..][0] == es[i];
  }

  /** The validation loop of `processRequest`, defaulting absent remarks in place. */
  method ValidateExpenses(expenses: seq<Record>) returns (r: Result<seq<Record>, ValidationError>)
    ensures r == ValidatedExpenses(expenses)
  {
    var out := expenses;
    assert out[..0] == [] && expenses[0..] == expenses;
    PrependNothing(ValidatedExpenses(expenses));
    for i := 0 to |expenses|
      invariant |out| == |expenses| && out[i..] == expenses[i..]
      invariant ValidatedExpenses(expenses) == Prepend(out[..i], ValidatedExpenses(expenses[i..]))
    {
      var expense := out[i];
      assert expense == expenses[i];
      var err := CheckExpense(expense);
      if err.Some? {
        ValidatedStops(expenses, i);
        return Failure(err.value);
      }
      ValidatedStep(expenses, i);
      PrependTwice(out[..i], [NormaliseRemark(expense)], ValidatedExpenses(expenses[i + 1..]));
      var prefix := out[..i];
      if !(RemarkField in expense && expense[RemarkField] != Null) {
        out := out[i := expense[RemarkField := Str("")]];
      }
      assert out[..i + 1] == prefix + [NormaliseRemark(expense)];
      assert out[i + 1..] == expenses[i + 1..];
    }
    assert out[..|expenses|] == out && expenses[|expenses|..] == [];
    assert out + [] == out;
    return Success(out);
  }

  /** The first failure in a list of checks is the failure of its first failing field. */
  lemma {:induction false} FirstFailureIsFirst(e: Record, fields: seq<string>)
    ensures FirstFailure(e, fields).None? <==> forall k :: 0 <= k < |fields| ==> FieldFailure(e, fields[k]).None?
    ensures FirstFailure(e, fields).Some? ==>
      exists k :: 0 <= k < |fields| && FieldFailure(e, fields[k]) == FirstFailure(e, fields) &&
        (forall j :: 0 <= j < k ==> FieldFailure(e, fields[j]).None?)
    decreases |fields|
  {
    if fields != [] {
      FirstFailureIsFirst(e, fields[1..]);
      if FieldFailure(e, fields[0]).None? && FirstFailure(e, fields[1..]).Some? {
        var k :| 0 <= k < |fields[1..]| && FieldFailure(e, fields[1..][k]) == FirstFailure(e, fields[1..]) &&
          (forall j :: 0 <= j < k ==> FieldFailure(e, fields[1..][j]).None?);
        assert FieldFailure(e, fields[k + 1]) == FirstFailure(e, fields);
        assert forall j :: 0 <= j < k + 1 ==> FieldFailure(e, fields[j]).None? by {
          forall j | 0 <= j < k + 1 ensures FieldFailure(e, fields[j]).None? {
            if j > 0 {
              assert fields[j] == fields[1..][j - 1];
            }
          }
        }
      }
      if FieldFailure(e, fields[0]).None? {
        assert forall k :: 0 <= k < |fields[1..]| ==> fields[1..][k] == fields[k + 1];
      }
    }
  }

  /** A valid expense passes every check. */
  lemma ValidIsAccepted(e: Record)
    requires ValidExpense(e)
    ensures ExpenseFailure(e).None?
  {
    var fs := RequiredExpenseFields;
    FirstFailureIsFirst(e, fs);
    forall k | 0 <= k < |fs| ensures FieldFailure(e, fs[k]).None? {
      assert fs[k] in fs;
    }
  }

  /** An expense that passes every check is valid. */
  lemma AcceptedIsValid(e: Record)
    requires ExpenseFailure(e).None?
    ensures ValidExpense(e)
  {
    var fs := RequiredExpenseFields;
    FirstFailureIsFirst(e, fs);
    forall f | f in fs ensures PresentNonNull(e, f) {
      var k :| 0 <= k < |fs| && fs[k] == f;
      assert FieldFailure(e, fs[k]).None?;
    }
    assert FieldFailure(e, fs[1]).None? && FieldFailure(e, fs[3]).None? && FieldFailure(e, fs[4]).None?;
  }

  /** An expense passes exactly when every stated requirement holds. */
  lemma ExpenseAcceptedIffValid(e: Record)
    ensures ExpenseFailure(e).None? <==> ValidExpense(e)
  {
    if ValidExpense(e) {
      ValidIsAccepted(e);
    }
    if ExpenseFailure(e).None? {
      AcceptedIsValid(e);
    }
  }

  /** A passing first record followed by `i` passing records of the rest makes `i + 1` passing records. */
  lemma PassingPrefixShifts(es: seq<Record>, i: nat)
    requires i < |es| - 1 && ExpenseFailure(es[0]).None?
    requires forall j :: 0 <= j < i ==> ExpenseFailure(es[1..][j]).None?
    ensures forall j :: 0 <= j < i + 1 ==> ExpenseFailure(es[j]).None?
  {
    forall j | 0 < j < i + 1
      ensures ExpenseFailure(es[j]).None?
    {
      assert es[j] == es[1..][j - 1];
    }
  }

  /** The reported error is the first failure of the first record that fails. */
  lemma {:induction false} ReportedErrorIsFirst(es: seq<Record>, err: ValidationError)
    requires ValidatedExpenses(es) == Failure(err)
    ensures exists i :: (0 <= i < |es| && ExpenseFailure(es[i]) == Some(err) &&
      (forall j :: 0 <= j < i ==> ExpenseFailure(es[j]).None?))
    decreases |es|
  {
    RefusedHead(es, err);
    if ExpenseFailure(es[0]).None? {
      ReportedErrorIsFirst(es[1..], err);
      var i :| 0 <= i < |es[1..]| && ExpenseFailure(es[1..][i]) == Some(err) &&
        (forall j :: 0 <= j < i ==> ExpenseFailure(es[1..][j]).None?);
      PassingPrefixShifts(es, i);
      assert ExpenseFailure(es[i + 1]) == Some(err);
    } else {
      assert 0 <= 0 < |es| && ExpenseFailure(es[0]) == Some(err);
    }
  }

  /** A refused batch is refused by its first record, or by the rest after an accepted first record. */
  lemma RefusedHead(es: seq<Record>, err: ValidationError)
    requires ValidatedExpenses(es) == Failure(err)
    ensures es != []
    ensures ExpenseFailure(es[0]) == Some(err) ||
      (ExpenseFailure(es[0]).None? && ValidatedExpenses(es[1..]) == Failure(err))
  {
  }

  /** All or nothing: a batch is accepted exactly when every record is valid, and then each comes back with its remark defaulted. */
  lemma {:induction false} ExpensesAllOrNothing(es: seq<Record>)
    ensures ValidatedExpenses(es).Success? <==> forall i :: 0 <= i < |es| ==> ValidExpense(es[i])
    ensures ValidatedExpenses(es).Success? ==> ValidatedExpenses(es).value == NormaliseAll(es)
  {
    forall i | 0 <= i < |es| {
      ExpenseAcceptedIffValid(es[i]);
    }
    if forall i :: 0 <= i < |es| ==> ValidExpense(es[i]) {
      ValidatedAfterPrefix(es, |es|);
      assert es[..|es|] == es;
      assert es[|es|..] == [];
    } else {
      var i :| 0 <= i < |es| && !ValidExpense(es[i]);
      if ValidatedExpenses(es).Success? {
        AcceptedMeansEachAccepted(es, i);
      }
    }
    if ValidatedExpenses(es).Success? {
      forall i | 0 <= i < |es| ensures ValidExpense(es[i]) {
        AcceptedMeansEachAccepted(es, i);
      }
      ValidatedAfterPrefix(es, |es|);
      assert es[..|es|] == es;
      assert es[|es|..] == [];
    }
  }

  lemma {:induction false} AcceptedMeansEachAccepted(es: seq<Record>, i: nat)
    requires i < |es| && ValidatedExpenses(es).Success?
    ensures ExpenseFailure(es[i]).None?
    decreases i
  {
    ValidatedHead(es);
    if i > 0 {
      AcceptedMeansEachAccepted(es[1..], i - 1);
      assert es[1..][i - 1] == es[i];
    }
  }

  /** An accepted batch has an accepted first record and an accepted rest. */
  lemma ValidatedHead(es: seq<Record>)
    requires es != [] && ValidatedExpenses(es).Success?
    ensures ExpenseFailure(es[0]).None? && ValidatedExpenses(es[1..]).Success?
  {
  }

  /** Normalising touches only the remark: it becomes "" when absent or nil and is kept otherwise. */
  lemma RemarkDefaulted(e: Record)
    ensures NormaliseRemark(e).Keys == e.Keys + {RemarkField}
    ensures forall k | k in e && k != RemarkField :: NormaliseRemark(e)[k] == e[k]
    ensures NormaliseRemark(e)[RemarkField] == if PresentNonNull(e, RemarkField) then e[RemarkField] else Str("")
  {
  }

  // ---------------------------------------------------------------------
  // Salaries

  /** The five key checks of `processRequest_gongzi`: presence only, nil is accepted. */
  function SalaryFailure(e: Record): Option<ValidationError> {
    if "名称" !in e then Some(MissingField("名称"))
    else if "标签" !in e then Some(MissingField("标签"))
    else if "日期" !in e then Some(MissingField("日期"))
    else if "金额" !in e then Some(MissingField("金额"))
    else if "单位" !in e then Some(MissingField("单位"))
    else None
  }

  /** The salary batch unchanged, or the first missing key. */
  function ValidatedSalaries(es: seq<Record>): Result<seq<Record>, ValidationError>
    decreases |es|
  {
    if es == [] then Success([])
    else
      match SalaryFailure(es[0])
      case Some(err) => Failure(err)
      case None =>
        match ValidatedSalaries(es[1..])
        case Failure(err) => Failure(err)
        case Success(rest) => Success([es[0]] + rest)
  }

  lemma SalariesCons(es: seq<Record>)
    requires es != [] && SalaryFailure(es[0]).None?
    ensures ValidatedSalaries(es) == Prepend([es[0]], ValidatedSalaries(es[1..]))
  {
  }

  /** Validation of a salary batch whose first `i` records pass continues with the rest. */
  lemma {:induction false} SalariesAfterPrefix(es: seq<Record>, i: nat)
    requires i <= |es|
    requires forall j :: 0 <= j < i ==> SalaryFailure(es[j]).None?
    ensures ValidatedSalaries(es) == Prepend(es[..i], ValidatedSalaries(es[i..]))
    decreases i
  {
    if i == 0 {
      assert es[0..] == es;
      PrependNothing(ValidatedSalaries(es));
    } else {
      var tail := es[1..];
      SalariesAfterPrefix(tail, i - 1);
      assert tail[i - 1..] == es[i..];
      SalariesCons(es);
      assert es[..i] == [es[0]] + tail[..i - 1];
      PrependTwice([es[0]], tail[..i - 1], ValidatedSalaries(es[i..]));
    }
  }

  /** The validation loop of `processRequest_gongzi`. */
  method ValidateSalaries(expenses: seq<Record>) returns (r: Result<seq<Record>, ValidationError>)
    ensures r == ValidatedSalaries(expenses)
  {
    var i := 0;
    while i < |expenses|
      invariant 0 <= i <= |expenses|
      invariant forall j :: 0 <= j < i ==> SalaryFailure(expenses[j]).None?
    {
      var err := SalaryFailure(expenses[i]);
      if err.Some? {
        SalariesAfterPrefix(expenses, i);
        return Failure(err.value);
      }
      i := i + 1;
    }
    SalariesAfterPrefix(expenses, i);
    assert expenses[..i] == expenses;
    assert expenses[i..] == [];
    assert expenses + [] == expenses;
    return Success(expenses);
  }

  /** A salary batch is accepted exactly when every record has all five keys, and then it comes back unchanged. */
  lemma {:induction false} SalariesAllOrNothing(es: seq<Record>)
    ensures ValidatedSalaries(es).Success? <==>
      forall i, f :: 0 <= i < |es| && f in SalaryFields ==> f in es[i]
    ensures ValidatedSalaries(es).Success? ==> ValidatedSalaries(es).value == es
    decreases |es|
  {
    if es != [] {
      SalariesAllOrNothing(es[1..]);
      assert forall i :: 1 <= i < |es| ==> es[i] == es[1..][i - 1];
      assert [es[0]] + es[1..] == es;
      if SalaryFailure(es[0]).None? {
        SalariesCons(es);
        assert forall f :: f in SalaryFields ==> f in es[0];
      } else {
        assert exists f :: f in SalaryFields && f !in es[0];
      }
    }
  }

  /** The reported salary error is the first missing key of the first record that lacks one. */
  lemma {:induction false} SalaryErrorIsFirst(es: seq<Record>, err: ValidationError)
    requires ValidatedSalaries(es) == Failure(err)
    ensures exists i :: (0 <= i < |es| && SalaryFailure(es[i]) == Some(err) &&
      (forall j :: 0 <= j < i ==> SalaryFailure(es[j]).None?))
    decreases |es|
  {
    assert es != [];
    if SalaryFailure(es[0]).None? {
      SalariesCons(es);
      SalaryErrorIsFirst(es[1..], err);
      var i :| 0 <= i < |es[1..]| && SalaryFailure(es[1..][i]) == Some(err) &&
        (forall j :: 0 <= j < i ==> SalaryFailure(es[1..][j]).None?);
      forall j | 0 < j < i + 1
        ensures SalaryFailure(es[j]).None?
      {
        assert es[j] == es[1..][j - 1];
      }
      assert SalaryFailure(es[i + 1]) == Some(err);
    } else {
      assert 0 <= 0 < |es| && SalaryFailure(es[0]) == Some(err);
    }
  }
}
