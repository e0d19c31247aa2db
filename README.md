# aiwechat-vercel: chat commands and authorization codes, in Dafny

This project models the deterministic core of a WeChat bot, written in Go,
that keeps a ledger and a salary book in Notion. It also models the
authorization-code check the same deployment serves.

**The WeChat handler (`api/wx.go`).** `handleWxMessage` routes an incoming
message:

- A non-text message goes to the media handler.
- Text is tested against five prefixes in a fixed order:
  - `删除记账账号` deletes a binding;
  - `添加记账账号` and `添加工资记账` bind a user to a Notion database;
  - `"1 "` records salaries and `"0 "` records expenses.
- Anything else goes to the chat bot.

A record message travels in four steps:

1. The handler asks a language model to turn the text into JSON.
2. It strips a Markdown fence from the reply, in two slightly different ways.
3. It validates the decoded records, all or nothing.
4. It flattens them, shapes the tags, and posts one Notion page per record.

A failure in steps 1 to 3 gets a single reply: a fixed prefix followed by
the error. Step 4 gives feedback per entry, usually the one line for its
request. An expense entry missing required fields is never sent: it gets
one line per missing field, then either a line about an invalid `说明` or
`备注`, or a panic at a type assertion.

A binding command has three lines. Line 1 is the command itself, and
lines 2 and 3 are `name = 'value'` assignments holding the key and the
database id. The binding is then stored as an add or an update, depending
on whether a page for that user and database type already exists.

**The authorization-code check (`api/check_timeout.go`).** `CheckTimeout`
answers a request naming a code:

- preflight, 405 or 400;
- unknown or expired;
- valid, with the whole days left before expiry.

Module by module:

- `Wrappers`: `Option` and `Result`.
- `Json`: decoded JSON values and records (`map<string, Value>`). A `RecordList` is Go's typed `[]map[string]interface{}`, which JSON decoding never produces.
- `GoStrings`: the parts of Go's `strings` package used here, with their laws. These are `HasPrefix`, `TrimPrefix`, `TrimSuffix`, `Trim` with a cutset, `TrimSpace` with `unicode.IsSpace`, `Split` and `Join`.
- `Routing`: the prefix chain.
- `Binding`: reading the key and the database id.
- `Fence`: the two fence cleaners.
- `Validation`: `contains`, the validation loops and their specifications.
- `Shaping`: flattening and tag shaping.
- `Notion`: the two insert loops, and the add-or-update decision for bindings.
- `Handler`: the reply builder, `processRequest` and `processRequest_gongzi`, and `handleWxMessage` itself.
- `Auth`: `CheckTimeout`.

Everything outside the code is a parameter of the model:

- the network: Notion, Gemini and the WeChat SDK;
- the chat bots;
- JSON decoding;
- `fmt`'s `%v`;
- environment variables;
- the clock.

A Go panic is modelled as an outcome, never as a precondition:

- an index out of range when a binding line has no `=`;
- a failed type assertion in an insert loop.

## Model

| member | source | states |
|---|---|---|
| Routing.Classify | api/wx.go:80-243 | the first matching test picks the action: media for a non-text message, then the delete, bind-ledger and bind-salary commands and the `"1 "` and `"0 "` markers in that order, else chat; `CommandIffPrefix` and `ChatIffNoCommand` characterise it |
| Routing.MediaIffNotText | api/wx.go:239-243 | a message goes to the media handler exactly when it is not text |
| Routing.PrefixesExclusive | api/wx.go:82-195 | no two of the five command prefixes start the same text |
| Routing.CommandsExclusive | api/wx.go:82-195 | no text starts with two of the five command prefixes, so their order never changes the action |
| Routing.CommandIffPrefix | api/wx.go:82-204 | each command is chosen exactly when its own prefix starts the text; a record command passes on the content with the two-character marker removed |
| Routing.ChatIffNoCommand | api/wx.go:236-238 | the chat bot gets the whole text exactly when no command prefix starts it |
| Routing.DatabaseTypeFixedPerCommand | api/wx.go:84-197 | deletion, `添加记账账号` and `"0 "` use database type "0"; `添加工资记账` and `"1 "` use "1" |
| Routing.Code | api/wx.go:111-154 | the select value is "0" exactly for the ledger, "1" otherwise |
| Routing.MarkerTest | api/wx.go:152 | the `len >= 2 && s[:2] == m` test is the prefix test |
| Binding.ValueAfterEquals | api/wx.go:105-108 | None exactly when the line has no `=`; otherwise the value has no `=`, does not start or end with a quote, and is drawn from the line |
| Binding.ParseBinding | api/wx.go:98-108 | a format error when there are fewer than three lines, a panic when line 2 or 3 has no `=`, otherwise the key and id read from those lines; `FormatErrorIffShort`, `IndexPanicIffNoEquals` and `DocumentedFormatRoundTrip` state these |
| Binding.SegmentAfterFirstEquals | api/wx.go:105-108 | the value read is the segment between the first and the second `=`, trimmed; a key or id containing `=` is cut there |
| Binding.FormatErrorIffShort | api/wx.go:98-102 | the format error is returned exactly when the command has fewer than two line breaks |
| Binding.IndexPanicIffNoEquals | api/wx.go:105-108 | reading panics exactly when there are three lines and line 2 or 3 has no `=` |
| Binding.ParsedValuesClean | api/wx.go:133-136 | extracted key and id contain no `=` and no line break, and carry no outer quotes |
| Binding.DocumentedFormatRoundTrip | api/wx.go:98-108 | a command written as `head`, `k = 'key'`, `i = 'id'` reads back exactly `key` and `id` |
| Binding.ReadAssignment | api/wx.go:105-106 | one `name = 'value'` line yields `value` |
| Binding.FormatExampleParses | api/wx.go:100 | the example the format-error reply shows is itself a command that parses to its placeholders |
| GoStrings.TrimLeft | api/wx.go:105-106 | the result is the longest suffix whose first character is not in the cutset |
| GoStrings.TrimRight | api/wx.go:105-106 | the result is the longest prefix whose last character is not in the cutset |
| GoStrings.TrimPadded | api/wx.go:105-106 | trimming removes exactly the cut characters around an unpadded core |
| GoStrings.TrimIdempotent | api/wx.go:1015-1021 | trimming twice is trimming once |
| GoStrings.Split | api/wx.go:98 | a split has at least one piece and no piece contains the separator |
| GoStrings.SplitCount | api/wx.go:98-99 | a split has one more piece than there are separators |
| GoStrings.JoinSplit | api/wx.go:98 | joining the pieces of a split gives back the string |
| GoStrings.SplitJoin | api/wx.go:98 | splitting a join of separator-free pieces gives back the pieces |
| Fence.CleanExpenseReply | api/wx.go:1015-1021 | the cleaned expense reply never starts or ends with whitespace |
| Fence.ExpenseJsonFence | api/wx.go:1015-1021 | a ```` ```json ```` block surrounded by whitespace, whose inner text does not start with a backtick, yields its trimmed inner text |
| Fence.ExpenseBareFence | api/wx.go:1015-1021 | a bare ```` ``` ```` block yields its trimmed inner text unless that text starts with `json` |
| Fence.ExpenseUnfenced | api/wx.go:1015-1021 | a reply without fences is only trimmed |
| Fence.CleanSalaryReply | api/wx.go:334-337 | trims whitespace, drops a leading ```` ```json ```` and a trailing ```` ``` ````, with no second prefix and no final trim; `SalaryJsonFence` and `SalaryBareFence` state what that yields |
| Fence.SalaryJsonFence | api/wx.go:334-337 | the salary cleaner yields the untrimmed inner text of a ```` ```json ```` block |
| Fence.SalaryBareFence | api/wx.go:334-337 | the salary cleaner keeps the opening ```` ``` ```` of a bare block, so the two cleaners disagree on it |
| Validation.Contains | api/wx.go:1073-1080 | true exactly when the method is in the list |
| Validation.ValidatedExpenses | api/wx.go:1033-1069 | every record normalised, or the first error; `ExpensesAllOrNothing`, `ReportedErrorIsFirst` and `ValidatedAfterPrefix` state this |
| Validation.CheckExpense | api/wx.go:1036-1067 | the error is the first failing required field in order, then an invalid remark, else none |
| Validation.ValidateExpenses | api/wx.go:1033-1069 | the result is every record with its remark defaulted, or the first failing record's first error |
| Validation.FirstFailureIsFirst | api/wx.go:1036-1057 | no failure exactly when every field passes; a failure is that of a field with all earlier fields passing |
| Validation.ExpenseAcceptedIffValid | api/wx.go:1035-1064 | a record passes exactly when its six fields are non-nil, the amount is a number above 0, the payment method is one of 支付宝, 微信 and 银行卡, the date is a string, and a present non-nil remark is a string |
| Validation.ReportedErrorIsFirst | api/wx.go:1033-1064 | the reported error is the failure of the first failing record, all earlier records passing |
| Validation.ExpensesAllOrNothing | api/wx.go:1033-1069 | a batch is accepted exactly when every record is valid, and then it comes back with each remark defaulted |
| Validation.ValidatedAfterPrefix | api/wx.go:1033-1069 | validating a batch whose first `i` records pass is their normalised forms put before the validation of the rest |
| Validation.RemarkDefaulted | api/wx.go:1061-1067 | normalising adds or keeps only `备注`: "" when absent or nil, the old value otherwise; no other field changes |
| Validation.ValidatedSalaries | api/wx.go:347-366 | the batch unchanged, or the first missing key; `SalariesAllOrNothing` and `SalaryErrorIsFirst` state this |
| Validation.ValidateSalaries | api/wx.go:347-366 | the salary batch unchanged, or the first missing key |
| Validation.SalariesAfterPrefix | api/wx.go:347-366 | validating a salary batch whose first `i` records pass keeps them unchanged before the rest |
| Validation.SalariesAllOrNothing | api/wx.go:347-366 | a salary batch is accepted exactly when every record has the five keys, and then comes back unchanged |
| Validation.SalaryErrorIsFirst | api/wx.go:347-366 | the reported salary error is the first missing key of the first record lacking one, all earlier records having every key |
| Shaping.Flatten | api/wx.go:384-393 | the flat list is the flattening of the batch |
| Shaping.FlattenedAppend | api/wx.go:1101-1110 | flattening a concatenation flattens each part |
| Shaping.FlattenedSplices | api/wx.go:1103-1109 | a record with a nested record list is replaced by those records in order; any other record stays in place |
| Shaping.FlattenDecodedIsIdentity | api/wx.go:1103 | records decoded from JSON are left as they are |
| Shaping.ShapeTags | api/wx.go:398-406 | the tag objects built for the entry's `标签` |
| Shaping.TagNamesRecovered | api/wx.go:398-406 | the names read back are the list's elements in order, or the single non-list value |
| Shaping.TagObjectsShape | api/wx.go:401-405 | each tag object has only the key `name` |
| Notion.ExpenseLines | api/wx.go:1113-1233 | one entry's lines: its missing-field lines, then an invalid-field line, a panic (None), or its request's line; `MissingLinesNameAbsent`, `ExpensePanicIffUnassertable` and `MissingFieldNeverSent` state this |
| Notion.ExpensePayload | api/wx.go:1144-1200 | the page for an entry, or None when one of the six type assertions fails; `ExpensePanicIffUnassertable` states when that happens |
| Notion.PostLine | api/wx.go:1207-1233 | the line for one request's outcome; `PostLineAddedIffOk` states that it reports the entry added exactly on status 200 |
| Notion.InsertExpense | api/wx.go:1113-1233 | one entry's lines are its missing-field lines, then an invalid-field line, a panic, or the line for its request's outcome |
| Notion.InsertExpenses | api/wx.go:1087-1237 | the feedback is that of every flat entry in order, or a panic |
| Notion.MissingLinesNameAbsent | api/wx.go:1115-1121 | one missing-field line per absent required field, in order, each naming its field |
| Notion.NoMissingLinesIffPresent | api/wx.go:1115-1121 | no missing-field line exactly when every required field is present |
| Notion.ExpensesOneGroupEach | api/wx.go:1112-1234 | the loop panics exactly when some entry fails a type assertion; when every entry yields one line, the feedback has one line per entry and line `i` is entry `i`'s own line |
| Notion.PanicSticks | api/wx.go:1146-1175 | a panic ends the loop: the feedback after any later entry is still a panic, so nothing more is sent |
| Notion.PanickedIffSomePanics | api/wx.go:1112-1234 | an insert loop panics exactly when one of its entries does |
| Notion.OneLineEach | api/wx.go:395-473 | when every entry adds exactly one line, the feedback is those lines, one per entry, in order |
| Notion.ExpensePanicIffUnassertable | api/wx.go:1123-1175 | an entry panics exactly when it passes the 说明 and 备注 checks and then fails a type assertion |
| Notion.MissingFieldNeverSent | api/wx.go:1116-1120 | an entry missing a required field still gets a line per absent field, then is skipped or panics; it is never sent |
| Notion.ValidatedEntryLines | api/wx.go:1113-1233 | a validated record with text name, tag, kind and 说明 yields exactly one line |
| Notion.ValidatedBatchOneLineEach | api/wx.go:1087-1237 | a validated batch of such records gets exactly one feedback line per record, line `i` being record `i`'s own line with its remark defaulted |
| Notion.PostLineAddedIffOk | api/wx.go:1229-1233 | an entry is reported added exactly when the response status is 200 |
| Notion.InsertSalaries | api/wx.go:370-476 | the feedback is one line per flat entry in order, or a panic |
| Notion.SalaryLinePerEntry | api/wx.go:395-473 | the salary loop panics exactly when some entry fails a type assertion, and otherwise has one line per entry in order |
| Notion.SalaryPayload | api/wx.go:408-439 | the salary page for an entry, or None when a type assertion fails; `SalaryLinePerEntry` ties a None to the loop's panic and `SalaryTagsSent` states the tags sent |
| Notion.SalaryTagsSent | api/wx.go:422-424 | the multi-select sent holds the entry's tags in order |
| Notion.ConfigReply | api/wx.go:643-755 | the binding store always answers with exactly one line |
| Notion.UpsertTarget | api/wx.go:710-717 | the existing page's URL is used exactly when a page id was found, the pages collection otherwise |
| Notion.UpsertReportsUpdate | api/wx.go:746-751 | a 200 reply reports an update exactly when a page id was found, an addition otherwise |
| Notion.ConfigPayloadStoresBinding | api/wx.go:669-708 | the page posted stores the user id, the key, the database id and the type given |
| Notion.ContentOfRichText | api/wx.go:668-676 | the text of a title or rich-text value reads back |
| Handler.JoinFeedback | api/wx.go:86-91 | the reply is every feedback message followed by a line break |
| Handler.JoinedAppend | api/wx.go:88-90 | writing one more message appends it and a line break |
| Handler.SplitJoined | api/wx.go:86-91 | splitting the reply at line breaks gives back the messages and a final empty piece |
| Handler.ProcessRequest | api/wx.go:935-1070 | the records returned are the validated decoding of the cleaned model reply, or the error |
| Handler.ProcessSalaryRequest | api/wx.go:249-367 | the same for salaries, with the salary cleaner and key checks |
| Handler.HandleBinding | api/wx.go:96-121 | a binding command gets the format error, a panic, or the joined lines of the binding store |
| Handler.HandleRecords | api/wx.go:152-234 | a record command gets the unbound reply, the prefixed processing error, a panic, or the joined insert feedback |
| Handler.HandleText | api/wx.go:80-238 | a text message gets the reply of the action its first matching prefix picks, or the chat reply |
| Handler.Respond | api/wx.go:73-246 | the reply of the action `Classify` picks; `HandleWxMessage` and `HandleText` are proved to return it |
| Handler.HandleWxMessage | api/wx.go:73-246 | the reply is the one the routed action gives |
| Handler.ShortBindingRefused | api/wx.go:98-102 | a short binding command gets the fixed format reply whatever the binding store would do |
| Handler.UnboundUserRefused | api/wx.go:152-159 | a record command from an unbound user gets the unbound reply and nothing is sent |
| Handler.RefusedExpenseReply | api/wx.go:195-213 | when the decoded records fail validation, the expense reply is the processing-error prefix followed by the error text |
| Handler.AcceptedExpenseReply | api/wx.go:195-234 | when the decoded records pass validation and the insert does not panic, the expense reply is the joined insert feedback |
| Handler.RefusedBatchSendsNothing | api/wx.go:195-213 | a batch with an invalid record gets the prefixed first error, nothing is sent, and the error is the first failing record's |
| Handler.AcceptedBatchOneLineEach | api/wx.go:195-234 | a valid, insertable batch gets the join of exactly one line per record, line `i` being record `i`'s own line (its request's outcome) with its remark defaulted |
| Handler.RefusedSalaryReply | api/wx.go:150-168 | when the decoded salary records lack a key, the reply is the salary processing-error prefix followed by the error text |
| Handler.AcceptedSalaryReply | api/wx.go:150-190 | when every decoded salary record has its keys, the reply is a panic if the insert loop panics and the joined insert feedback otherwise |
| Handler.RefusedSalaryBatchSendsNothing | api/wx.go:150-168 | a salary batch missing a key gets the prefixed first error, nothing is sent, and the error is the first failing record's |
| Handler.AcceptedSalaryBatchOneLineEach | api/wx.go:150-190 | a complete decoded salary batch panics exactly when some record's line panics, and is otherwise answered with one line per record, each that record's own line |
| Auth.CheckTimeout | api/check_timeout.go:32-84 | preflight for OPTIONS, 405 for another method but POST, 400 for an undecodable body, then unknown, expired or valid with the days left; `MethodGate`, `UnknownCodeRefused`, `ExpiredIffBefore`, `ValidIff` and `WholeDaysLeft` state these |
| Auth.TruncDiv | api/check_timeout.go:77 | the days are never negative for a non-negative duration, and 0 for a negative duration shorter than a day |
| Auth.TruncDivBounds | api/check_timeout.go:77 | truncated division is within one divisor of the quotient, on the side of zero |
| Auth.MethodGate | api/check_timeout.go:39-55 | OPTIONS gets the preflight, another method but POST gets 405, an undecodable POST body gets 400, and only a decoded POST gets an answer |
| Auth.UnknownCodeRefused | api/check_timeout.go:61-68 | an unknown code is invalid with message 无效的授权码 and no expiry or days |
| Auth.ExpiredIffBefore | api/check_timeout.go:69-71 | a known code is reported expired exactly when its expiry is strictly before the clock |
| Auth.ValidIff | api/check_timeout.go:61-80 | valid exactly when known and not yet expired; then message 授权有效 and the expiry is present |
| Auth.WholeDaysLeft | api/check_timeout.go:72-79 | with one clock reading the days left are the whole days to expiry, never negative, and 0 when expiry is now |
| Auth.DaysNeverNegative | api/check_timeout.go:69-77 | with the two readings less than a day apart the days left are never negative |
| Auth.OnlyOwnEntryMatters | api/check_timeout.go:61 | the answer depends only on the code's own table entry |
| Auth.TrialWeek | api/check_timeout.go:24-28 | the trial code answered at start-up has 7 days left, and stays valid for exactly 7 days |

## Left out

- The WeChat server setup, the chat bots and their media handling are parameters (`Handler.Services`) because they are foreign libraries (api/wx.go:39-71).
- Every HTTP exchange with Notion and Gemini is an outcome the caller supplies: requests, responses and their bodies. This covers `deleteFromNotionConfig`, `QueryUserConfig` and `queryExistingPageId`. A panic inside `QueryUserConfig` or `queryExistingPageId`, from a type assertion on a malformed Notion response (api/wx.go:619-636, 816-819), is not modelled: those services answer with a `Result`.
- The request headers and `json.Marshal` of payloads are not modelled. The payload itself is modelled as a `Value`.
- The Gemini prompt texts and `time.Now().Format` dates are not modelled; the model step maps the user's text to a reply or an error.
- `json.Unmarshal` is a parameter. A JSON `null` element decoding to a nil map is up to that parameter.
- The `json.Marshal` of the accepted records in `handleWxMessage` is not modelled. Its failure branch (api/wx.go:215-220) cannot be taken for decoded JSON, and its result is overwritten.
- Handler.ProcessRequest: the Gemini request and decoding failures arrive as one error text from the model step. The model does not spell out the individual messages.
- `fmt`'s `%v` is a parameter (`Notion.Printer`), and so is the text of Go errors.
- Floating-point details are not modelled. An amount is a `real` whose only checked property is its sign.
- Auth: `Hours()/24` is modelled as exact integer division of nanoseconds truncated toward zero. Float rounding at exact day boundaries is not modelled.
- Auth: calendar month arithmetic (`AddDate(0, 1, 0)` and `AddDate(0, 3, 0)`) is not modelled. The two month expiries are parameters, and seven days is taken as 7 × 24 hours.
- Auth: the CORS headers, the JSON encoding with `omitempty`, and the trailing line break `http.Error` adds are not modelled.
- Auth: the expiry-date formatting is not modelled. It formats local time with a literal `Z`.
- The code table is built once at start-up and never written. This is why `Auth.CheckTimeout` takes it as a read-only parameter.
- `isValidDate` is never called, and it wraps `time.Parse`.
- The commented-out code (api/wx.go:824-932, 1239-1361) is not modelled.
- api/wx_login.go, api/wx_voice_translate.go and api/check_api.go are not part of this model.
- Binding.ValueAfterEquals: a key or id that itself contains `=` is cut at that `=`, as `strings.Split(..)[1]` does. This is modelled as written, with `Binding.SegmentAfterFirstEquals` stating it.
- `Notion.Request` carries no HTTP method. The model does not record that the binding store's update is a POST to the page's URL (api/wx.go:725). Such a request would read the same as the PATCH to that URL that archives a binding (api/wx.go:520), which happens inside the `deleteBinding` parameter.
- The nested-`data` type assertion (api/wx.go:1103) only matches a typed record list. `Shaping.FlattenDecodedIsIdentity` shows that flattening therefore never changes decoded JSON.
- The `continue` in the missing-field loop of `insertToNotion` (api/wx.go:1116-1120) only ends the inner loop. This is modelled as written, with `Notion.MissingFieldNeverSent` stating the consequence.
- `http.NewRequest` failing and reading a response body failing are modelled as outcomes even where the URL is constant.
