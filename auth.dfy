/**
 * `CheckTimeout`: the authorization-code check.  A request names a code;
 * the answer says whether the code is known, whether it has expired, and
 * otherwise how many whole days it has left.  Times are integers counting
 * nanoseconds, as Go's `time.Duration` does.
 */
module Auth {
  import opened Wrappers

  const NanosPerDay: int := 86400 * 1000000000

  const MethodOptions: string := "OPTIONS"
  const MethodPost: string := "POST"
  const StatusOK: int := 200
  const StatusBadRequest: int := 400
  const StatusMethodNotAllowed: int := 405

  const PostOnly: string := "仅支持POST请求"
  const BadFormat: string := "无效的请求格式"
  const UnknownCode: string := "无效的授权码"
  const ExpiredCode: string := "授权码已过期"
  const ValidCode: string := "授权有效"

  /** A request: its HTTP method and the `code` its JSON body decodes to, None when the body does not decode. */
  datatype Request = Request(verb: string, code: Option<string>)

  /** The answer. */
  datatype Response =
    | Preflight                                   // 200 with no body
    | HttpError(status: int, message: string)     // `http.Error`
    | Answer(valid: bool, message: string, expiry: Option<int>, daysRemaining: int)
      // the JSON `AuthResponse`; `daysRemaining` is 0 unless the code is valid

  /** Go's integer conversion of a quotient: division truncated toward zero. */
  function TruncDiv(a: int, b: int): (q: int)
    requires b > 0
    ensures a >= 0 ==> q >= 0
    ensures -b < a < 0 ==> q == 0
  {
    if a >= 0 then a / b else -((-a) / b)
  }

  /**
   * The decision of `CheckTimeout` over the code table.  The clock is read
   * twice: `checkedAt` when testing for expiry, `measuredAt` (no earlier)
   * when counting the days left.
   */
  function CheckTimeout(req: Request, authCodes: map<string, int>, checkedAt: int, measuredAt: int): Response {
    if req.verb == MethodOptions then Preflight
    else if req.verb != MethodPost then HttpError(StatusMethodNotAllowed, PostOnly)
    else if req.code.None? then HttpError(StatusBadRequest, BadFormat)
    else if req.code.value !in authCodes then Answer(false, UnknownCode, None, 0)
    else
      var expiry := authCodes[req.code.value];
      if expiry < checkedAt then Answer(false, ExpiredCode, None, 0)
      else Answer(true, ValidCode, Some(expiry), TruncDiv(expiry - measuredAt, NanosPerDay))
  }

  /** The demonstration table, built when the program starts at `start`; month arithmetic on the calendar is given. */
  function DemoCodes(start: int, oneMonthLater: int, threeMonthsLater: int): map<string, int> {
    map["ABC123-DEF456" := oneMonthLater, "TEST-CODE-999" := threeMonthsLater, "TRIAL-VERSION" := start + 7 * NanosPerDay]
  }

  /** Truncated division is within one divisor of the quotient, on the side of zero. */
  lemma TruncDivBounds(a: int, b: int)
    requires b > 0
    ensures a >= 0 ==> TruncDiv(a, b) * b <= a < (TruncDiv(a, b) + 1) * b
    ensures a < 0 ==> (TruncDiv(a, b) - 1) * b < a <= TruncDiv(a, b) * b
  {
    if a < 0 {
      var q := (-a) / b;
      assert q * b <= -a < (q + 1) * b;
    }
  }

  /** OPTIONS gets the preflight answer, any other method but POST gets 405, an undecodable POST body 400. */
  lemma MethodGate(req: Request, authCodes: map<string, int>, checkedAt: int, measuredAt: int)
    ensures CheckTimeout(req, authCodes, checkedAt, measuredAt) == Preflight <==> req.verb == MethodOptions
    ensures CheckTimeout(req, authCodes, checkedAt, measuredAt) == HttpError(StatusMethodNotAllowed, PostOnly) <==>
      req.verb != MethodOptions && req.verb != MethodPost
    ensures CheckTimeout(req, authCodes, checkedAt, measuredAt) == HttpError(StatusBadRequest, BadFormat) <==>
      req.verb == MethodPost && req.code.None?
    ensures CheckTimeout(req, authCodes, checkedAt, measuredAt).Answer? <==>
      req.verb == MethodPost && req.code.Some?
  {
  }

  /** A code not in the table is invalid, with no expiry date and no days. */
  lemma UnknownCodeRefused(code: string, authCodes: map<string, int>, checkedAt: int, measuredAt: int)
    requires code !in authCodes
    ensures CheckTimeout(Request(MethodPost, Some(code)), authCodes, checkedAt, measuredAt) ==
      Answer(false, UnknownCode, None, 0)
  {
  }

  /** A known code is reported expired exactly when its expiry is strictly before the clock. */
  lemma ExpiredIffBefore(code: string, authCodes: map<string, int>, checkedAt: int, measuredAt: int)
    requires code in authCodes
    ensures (CheckTimeout(Request(MethodPost, Some(code)), authCodes, checkedAt, measuredAt) ==
             Answer(false, ExpiredCode, None, 0)) <==> authCodes[code] < checkedAt
  {
  }

  /** A code is valid exactly when it is known and not yet expired; then the answer carries its expiry. */
  lemma ValidIff(req: Request, authCodes: map<string, int>, checkedAt: int, measuredAt: int)
    ensures var r := CheckTimeout(req, authCodes, checkedAt, measuredAt);
      r.Answer? && r.valid <==>
        req.verb == MethodPost && req.code.Some? && req.code.value in authCodes && checkedAt <= authCodes[req.code.value]
    ensures var r := CheckTimeout(req, authCodes, checkedAt, measuredAt);
      r.Answer? ==> ((r.valid <==> r.message == ValidCode) && (r.valid <==> r.expiry.Some?) &&
                     (r.valid ==> r.expiry == Some(authCodes[req.code.value])))
  {
  }

  /**
   * With one clock reading, the days left are the whole days from now to
   * the expiry: never negative, and 0 when the expiry is now.
   */
  lemma {:induction false} WholeDaysLeft(code: string, authCodes: map<string, int>, now: int)
    requires code in authCodes && now <= authCodes[code]
    ensures var r := CheckTimeout(Request(MethodPost, Some(code)), authCodes, now, now);
      && r.valid
      && r.daysRemaining >= 0
      && r.daysRemaining * NanosPerDay <= authCodes[code] - now < (r.daysRemaining + 1) * NanosPerDay
      && (authCodes[code] == now ==> r.daysRemaining == 0)
  {
    TruncDivBounds(authCodes[code] - now, NanosPerDay);
  }

  /** The days left are never negative when the second reading follows the first by less than a day. */
  lemma {:induction false} DaysNeverNegative(code: string, authCodes: map<string, int>, checkedAt: int, measuredAt: int)
    requires checkedAt <= measuredAt < checkedAt + NanosPerDay
    ensures var r := CheckTimeout(Request(MethodPost, Some(code)), authCodes, checkedAt, measuredAt);
      r.Answer? && r.daysRemaining >= 0
  {
    if code in authCodes && checkedAt <= authCodes[code] {
      assert -NanosPerDay < authCodes[code] - measuredAt;
    }
  }

  /** The answer depends only on the code's own table entry: the rest of the table never matters. */
  lemma OnlyOwnEntryMatters(req: Request, t1: map<string, int>, t2: map<string, int>, checkedAt: int, measuredAt: int)
    requires req.code.Some?
    requires req.code.value in t1 <==> req.code.value in t2
    requires req.code.value in t1 ==> t1[req.code.value] == t2[req.code.value]
    ensures CheckTimeout(req, t1, checkedAt, measuredAt) == CheckTimeout(req, t2, checkedAt, measuredAt)
  {
  }

  /** The trial code answered at start-up has seven days left, and it stays valid for exactly seven days. */
  lemma {:induction false} TrialWeek(start: int, oneMonthLater: int, threeMonthsLater: int, now: int)
    ensures var table := DemoCodes(start, oneMonthLater, threeMonthsLater);
      CheckTimeout(Request(MethodPost, Some("TRIAL-VERSION")), table, start, start) == Answer(true, ValidCode, Some(start + 7 * NanosPerDay), 7)
    ensures var table := DemoCodes(start, oneMonthLater, threeMonthsLater);
      CheckTimeout(Request(MethodPost, Some("TRIAL-VERSION")), table, now, now).valid <==> now <= start + 7 * NanosPerDay
  {
    var table := DemoCodes(start, oneMonthLater, threeMonthsLater);
    assert "TRIAL-VERSION" in table && table["TRIAL-VERSION"] == start + 7 * NanosPerDay;
  }
}
