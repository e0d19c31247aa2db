/**
 * `handleWxMessage`: the reply to one WeChat message.  The chat bots, the
 * Notion binding store, the language model and JSON decoding are services
 * the handler is given; the routing, the parsing, the validation, the
 * inserts and the assembly of the reply are modelled.
 */
module Handler {
  import opened Wrappers
  import opened Json
  import opened GoStrings
  import opened Routing
  import opened Binding
  import opened Fence
  import opened Validation
  import opened Notion
  import Shaping

  /** The binding `QueryUserConfig` finds for a user and database type. */
  datatype UserConfig = UserConfig(apiKey: string, databaseId: string)

  /** Everything outside the handler that it consults. */
  datatype Services = Services(
    chat: (string, string) -> string,                   // the user's chat bot answering a text
    media: Message -> string,                           // the user's chat bot handling a non-text message
    deleteBinding: (string, string) -> seq<string>,     // `deleteFromNotionConfig(user, type)`
    userConfig: (string, string) -> Result<UserConfig, string>,  // `QueryUserConfig(user, type)`
    model: (DbType, string) -> Result<string, string>,  // the Gemini exchange for a text: the reply's first part, or the error
    decode: string -> Result<seq<Record>, string>,      // `json.Unmarshal` into `[]map[string]interface{}`
    env: Env,                                           // NOTION_CONFIG_DATABASE_ID and NOTION_API_KEY
    existingPage: (string, string) -> Result<string, string>,  // `queryExistingPageId(user, type)`
    configPost: Request -> PostOutcome,                 // the request that stores a binding
    insertPost: (nat, Request) -> PostOutcome,          // the request for the i-th entry of an insert
    pr: Printer)                                        // `%v`

  /** What the handler gives back: the reply text, or a panic. */
  datatype Outcome = Reply(text: string) | Panic

  const UnboundReply: string := "用户未绑定，请先绑定账号和 Notion 数据库"
  const ExpenseErrorPrefix: string := "调用 processRequest 失败: "
  const SalaryErrorPrefix: string := "调用 processRequest_gongzi 失败: "

  // ---------------------------------------------------------------------
  // The reply builder

  /** The `strings.Builder` contents: every message followed by a line break. */
  function Joined(lines: seq<string>): string
    decreases |lines|
  {
    if lines == [] then "" else lines[0] + "\n" + Joined(lines[1..])
  }

  lemma {:induction false} JoinedAppend(lines: seq<string>, line: string)
    ensures Joined(lines + [line]) == Joined(lines) + line + "\n"
    decreases |lines|
  {
    if lines != [] {
      assert (lines + [line])[1..] == lines[1..] + [line];
      JoinedAppend(lines[1..], line);
    }
  }

  /** The loop that writes each feedback message and a line break into the builder. */
  method JoinFeedback(feedback: seq<string>) returns (reply: string)
    ensures reply == Joined(feedback)
  {
    reply := "";
    for i := 0 to |feedback|
      invariant reply == Joined(feedback[..i])
    {
      assert feedback[..i + 1] == feedback[..i] + [feedback[i]];
      JoinedAppend(feedback[..i], feedback[i]);
      reply := reply + feedback[i] + "\n";
    }
    assert feedback[..|feedback|] == feedback;
  }

  lemma {:induction false} JoinedIsJoin(lines: seq<string>)
    ensures Joined(lines) == Join(lines + [""], '\n')
    decreases |lines|
  {
    if lines != [] {
      JoinedIsJoin(lines[1..]);
      assert (lines + [""])[1..] == lines[1..] + [""];
      assert (lines + [""])[0] == lines[0];
    }
  }

  /** Splitting the reply at line breaks gives back the messages, then the empty text after the last break. */
  lemma SplitJoined(lines: seq<string>)
    requires forall i | 0 <= i < |lines| :: '\n' !in lines[i]
    ensures Split(Joined(lines), '\n') == lines + [""]
  {
    JoinedIsJoin(lines);
    SplitJoin(lines + [""], '\n');
  }

  // ---------------------------------------------------------------------
  // processRequest and processRequest_gongzi

  /** `processRequest`: ask the model, strip the fence, decode, validate. */
  function ProcessedExpenses(text: string, s: Services): Result<seq<Record>, string> {
    match s.model(Ledger, text)
    case Failure(err) => Failure(err)
    case Success(reply) =>
      match s.decode(CleanExpenseReply(reply))
      case Failure(err) => Failure("error parsing JSON response: " + err)
      case Success(records) =>
        match ValidatedExpenses(records)
        case Failure(err) => Failure(ErrorText(err, s.pr.value))
        case Success(valid) => Success(valid)
  }

  /** `processRequest_gongzi`: ask the model, strip the fence its own way, decode, check keys. */
  function ProcessedSalaries(text: string, s: Services): Result<seq<Record>, string> {
    match s.model(Salary, text)
    case Failure(err) => Failure(err)
    case Success(reply) =>
      match s.decode(CleanSalaryReply(reply))
      case Failure(err) => Failure("error unmarshalling JSON content: " + err)
      case Success(records) =>
        match ValidatedSalaries(records)
        case Failure(err) => Failure(ErrorText(err, s.pr.value))
        case Success(valid) => Success(valid)
  }

  method ProcessRequest(text: string, s: Services) returns (r: Result<seq<Record>, string>)
    ensures r == ProcessedExpenses(text, s)
  {
    var reply := s.model(Ledger, text);
    if reply.Failure? {
      return Failure(reply.error);
    }
    var decoded := s.decode(CleanExpenseReply(reply.value));
    if decoded.Failure? {
      return Failure("error parsing JSON response: " + decoded.error);
    }
    var valid := ValidateExpenses(decoded.value);
    if valid.Failure? {
      return Failure(ErrorText(valid.error, s.pr.value));
    }
    return Success(valid.value);
  }

  method ProcessSalaryRequest(text: string, s: Services) returns (r: Result<seq<Record>, string>)
    ensures r == ProcessedSalaries(text, s)
  {
    var reply := s.model(Salary, text);
    if reply.Failure? {
      return Failure(reply.error);
    }
    var decoded := s.decode(CleanSalaryReply(reply.value));
    if decoded.Failure? {
      return Failure("error unmarshalling JSON content: " + decoded.error);
    }
    var valid := ValidateSalaries(decoded.value);
    if valid.Failure? {
      return Failure(ErrorText(valid.error, s.pr.value));
    }
    return Success(valid.value);
  }

  // ---------------------------------------------------------------------
  // The handler

  /** The reply to a binding command for `db`. */
  function BindingReply(msg: Message, db: DbType, s: Services): Outcome
    requires Classify(msg) == AddBinding(db)
  {
    match ParseBinding(msg.content)
    case FormatError => Reply(FormatErrorReply)
    case IndexPanic => Panic
    case Parsed(key, id) =>
      Reply(Joined(ConfigReply(msg.fromUser, key, id, Code(db), s.env, s.existingPage, s.configPost)))
  }

  /** The reply to a "0 " or "1 " message whose text after the marker is `text`. */
  function RecordReply(msg: Message, db: DbType, text: string, s: Services): Outcome
    requires Classify(msg) == RecordEntries(db, text)
  {
    match s.userConfig(msg.fromUser, Code(db))
    case Failure(_) => Reply(UnboundReply)
    case Success(cfg) =>
      match (if db == Ledger then ProcessedExpenses(text, s) else ProcessedSalaries(text, s))
      case Failure(err) => Reply((if db == Ledger then ExpenseErrorPrefix else SalaryErrorPrefix) + err)
      case Success(records) =>
        var inserted := if db == Ledger then ExpenseInsertion(cfg.databaseId, cfg.apiKey, records, s.pr, s.insertPost)
                        else SalaryInsertion(cfg.databaseId, cfg.apiKey, records, s.pr, s.insertPost);
        match inserted
        case Panicked => Panic
        case Done(feedback) => Reply(Joined(feedback))
  }

  /** The reply to a message, by the action the router picks. */
  function Respond(msg: Message, s: Services): Outcome {
    match Classify(msg)
    case Media => Reply(s.media(msg))
    case Chat(text) => Reply(s.chat(msg.fromUser, text))
    case DeleteBinding(db) => Reply(Joined(s.deleteBinding(msg.fromUser, Code(db))))
    case AddBinding(db) => BindingReply(msg, db, s)
    case RecordEntries(db, text) => RecordReply(msg, db, text, s)
  }

  /** A binding command is answered by the binding path, for the database type the router picked. */
  lemma BindingsReply(msg: Message, s: Services)
    requires Classify(msg).AddBinding?
    ensures Respond(msg, s) == BindingReply(msg, Classify(msg).db, s)
  {
  }

  /** A record command is answered by the record path, with the database type and text the router picked. */
  lemma RecordsReply(msg: Message, s: Services)
    requires Classify(msg).RecordEntries?
    ensures Respond(msg, s) == RecordReply(msg, Classify(msg).db, Classify(msg).text, s)
  {
  }

  method HandleBinding(msg: Message, db: DbType, s: Services) returns (r: Outcome)
    requires Classify(msg) == AddBinding(db)
    ensures r == BindingReply(msg, db, s)
  {
    var parsed := ParseBinding(msg.content);
    if parsed.FormatError? {
      return Reply(FormatErrorReply);
    }
    if parsed.IndexPanic? {
      return Panic;
    }
    var feedback := ConfigReply(msg.fromUser, parsed.apiKey, parsed.databaseId, Code(db), s.env, s.existingPage, s.configPost);
    var reply := JoinFeedback(feedback);
    return Reply(reply);
  }

  method HandleRecords(msg: Message, db: DbType, text: string, s: Services) returns (r: Outcome)
    requires Classify(msg) == RecordEntries(db, text)
    ensures r == RecordReply(msg, db, text, s)
  {
    var cfg := s.userConfig(msg.fromUser, Code(db));
    if cfg.Failure? {
      return Reply(UnboundReply);
    }
    var records;
    if db == Ledger {
      records := ProcessRequest(text, s);
    } else {
      records := ProcessSalaryRequest(text, s);
    }
    if records.Failure? {
      return Reply((if db == Ledger then ExpenseErrorPrefix else SalaryErrorPrefix) + records.error);
    }
    var inserted;
    if db == Ledger {
      inserted := InsertExpenses(cfg.value.databaseId, cfg.value.apiKey, records.value, s.pr, s.insertPost);
    } else {
      inserted := InsertSalaries(cfg.value.databaseId, cfg.value.apiKey, records.value, s.pr, s.insertPost);
    }
    if inserted.Panicked? {
      return Panic;
    }
    var reply := JoinFeedback(inserted.feedback);
    return Reply(reply);
  }

  /** The text branch of `handleWxMessage`: the prefix tests in order, each returning its reply. */
  method HandleText(msg: Message, s: Services) returns (r: Outcome)
    requires msg.msgType == TextType
    ensures r == Respond(msg, s)
  {
    var content := msg.content;
    if HasPrefix(content, DeleteCommand) {
      var feedback := s.deleteBinding(msg.fromUser, Code(Ledger));
      var reply := JoinFeedback(feedback);
      assert Classify(msg) == DeleteBinding(Ledger);
      return Reply(reply);
    }
    if HasPrefix(content, BindLedgerCommand) {
      assert Classify(msg) == AddBinding(Ledger);
      r := HandleBinding(msg, Ledger, s);
      BindingsReply(msg, s);
      return;
    }
    if HasPrefix(content, BindSalaryCommand) {
      assert Classify(msg) == AddBinding(Salary);
      r := HandleBinding(msg, Salary, s);
      BindingsReply(msg, s);
      return;
    }
    if |content| >= 2 && content[..2] == SalaryMarker {
      assert Classify(msg) == RecordEntries(Salary, content[2..]);
      r := HandleRecords(msg, Salary, content[2..], s);
      RecordsReply(msg, s);
      return;
    }
    if |content| >= 2 && content[..2] == ExpenseMarker {
      assert Classify(msg) == RecordEntries(Ledger, content[2..]);
      r := HandleRecords(msg, Ledger, content[2..], s);
      RecordsReply(msg, s);
      return;
    }
    assert Classify(msg) == Chat(content);
    return Reply(s.chat(msg.fromUser, content));
  }

  /** `handleWxMessage`: text goes through the prefix tests, anything else to the media handler. */
  method HandleWxMessage(msg: Message, s: Services) returns (r: Outcome)
    ensures r == Respond(msg, s)
  {
    if msg.msgType == TextType {
      r := HandleText(msg, s);
    } else {
      assert Classify(msg) == Media;
      r := Reply(s.media(msg));
    }
  }

  // ---------------------------------------------------------------------
  // Properties of the reply

  /** A binding command with fewer than three lines gets the fixed format reply, and no binding is stored. */
  lemma ShortBindingRefused(msg: Message, db: DbType, s: Services, post: Request -> PostOutcome)
    requires Classify(msg) == AddBinding(db) && Count(msg.content, '\n') < 2
    ensures Respond(msg, s) == Reply(FormatErrorReply)
    ensures Respond(msg, s.(configPost := post)) == Respond(msg, s)
  {
    FormatErrorIffShort(msg.content);
    BindingsReply(msg, s);
    BindingsReply(msg, s.(configPost := post));
  }

  /** A record message from a user with no binding is answered with the unbound reply, and nothing is sent. */
  lemma UnboundUserRefused(msg: Message, s: Services, post: (nat, Request) -> PostOutcome)
    requires Classify(msg).RecordEntries?
    requires s.userConfig(msg.fromUser, Code(Classify(msg).db)).Failure?
    ensures Respond(msg, s) == Reply(UnboundReply)
    ensures Respond(msg, s.(insertPost := post)) == Respond(msg, s)
  {
    RecordsReply(msg, s);
    RecordsReply(msg, s.(insertPost := post));
  }

  /** A text message starting with "0 " is an expense record command for the rest of the text. */
  lemma ExpenseRoute(msg: Message)
    requires msg.msgType == TextType && HasPrefix(msg.content, ExpenseMarker)
    ensures Classify(msg) == RecordEntries(Ledger, msg.content[2..])
  {
    CommandIffPrefix(msg, Ledger, msg.content[2..]);
    assert msg.content == ExpenseMarker + msg.content[2..];
  }

  /** The expense path's reply when the model's records fail validation. */
  lemma RefusedExpenseReply(msg: Message, text: string, s: Services, records: seq<Record>, err: ValidationError)
    requires Classify(msg) == RecordEntries(Ledger, text)
    requires s.userConfig(msg.fromUser, "0").Success?
    requires s.model(Ledger, text).Success?
    requires s.decode(CleanExpenseReply(s.model(Ledger, text).value)) == Success(records)
    requires ValidatedExpenses(records) == Failure(err)
    ensures RecordReply(msg, Ledger, text, s) == Reply(ExpenseErrorPrefix + ErrorText(err, s.pr.value))
  {
    assert ProcessedExpenses(text, s) == Failure(ErrorText(err, s.pr.value));
  }

  /** The expense path's reply when the model's records pass validation: the joined insert feedback. */
  lemma AcceptedExpenseReply(msg: Message, text: string, s: Services, records: seq<Record>)
    requires Classify(msg) == RecordEntries(Ledger, text)
    requires s.userConfig(msg.fromUser, "0").Success?
    requires s.model(Ledger, text).Success?
    requires s.decode(CleanExpenseReply(s.model(Ledger, text).value)) == Success(records)
    requires ValidatedExpenses(records).Success?
    ensures var cfg := s.userConfig(msg.fromUser, "0").value;
      var inserted := ExpenseInsertion(cfg.databaseId, cfg.apiKey, ValidatedExpenses(records).value, s.pr, s.insertPost);
      inserted.Done? ==> RecordReply(msg, Ledger, text, s) == Reply(Joined(inserted.feedback))
  {
    assert ProcessedExpenses(text, s) == Success(ValidatedExpenses(records).value);
  }

  /**
   * An expense batch with an invalid record is refused whole: the reply
   * names the first failure and no record is sent.
   */
  lemma {:induction false} RefusedBatchSendsNothing(msg: Message, s: Services, records: seq<Record>,
                                                    err: ValidationError, post: (nat, Request) -> PostOutcome)
    requires msg.msgType == TextType && HasPrefix(msg.content, ExpenseMarker)
    requires s.userConfig(msg.fromUser, "0").Success?
    requires s.model(Ledger, msg.content[2..]).Success?
    requires s.decode(CleanExpenseReply(s.model(Ledger, msg.content[2..]).value)) == Success(records)
    requires ValidatedExpenses(records) == Failure(err)
    ensures Respond(msg, s) == Reply(ExpenseErrorPrefix + ErrorText(err, s.pr.value))
    ensures Respond(msg, s.(insertPost := post)) == Respond(msg, s)
    ensures exists i :: (0 <= i < |records| && ExpenseFailure(records[i]) == Some(err) &&
      forall j :: 0 <= j < i ==> ExpenseFailure(records[j]).None?)
  {
    ExpenseRoute(msg);
    RefusedExpenseReply(msg, msg.content[2..], s, records, err);
    RefusedExpenseReply(msg, msg.content[2..], s.(insertPost := post), records, err);
    RecordsReply(msg, s);
    RecordsReply(msg, s.(insertPost := post));
    ReportedErrorIsFirst(records, err);
  }

  /**
   * A bound user's "0 " message whose records all pass validation and
   * carry text names, tags, kinds and 说明 is answered with one line per
   * record: line `i` is the one line record `i`, its remark defaulted,
   * yields, the outcome of its request.
   */
  lemma {:induction false} AcceptedBatchOneLineEach(msg: Message, s: Services, records: seq<Record>)
    requires msg.msgType == TextType && HasPrefix(msg.content, ExpenseMarker)
    requires s.userConfig(msg.fromUser, "0").Success?
    requires s.model(Ledger, msg.content[2..]).Success?
    requires s.decode(CleanExpenseReply(s.model(Ledger, msg.content[2..]).value)) == Success(records)
    requires ValidatedExpenses(records).Success?
    requires forall i | 0 <= i < |records| :: DecodedRecord(records[i]) && Insertable(records[i])
    ensures var cfg := s.userConfig(msg.fromUser, "0").value;
      exists feedback :: |feedback| == |records| && Respond(msg, s) == Reply(Joined(feedback)) &&
        forall i | 0 <= i < |records| ::
          ExpenseLines(cfg.databaseId, cfg.apiKey, NormaliseRemark(records[i]), i, s.pr, s.insertPost) == Some([feedback[i]])
  {
    ExpenseRoute(msg);
    var cfg := s.userConfig(msg.fromUser, "0").value;
    ValidatedBatchOneLineEach(cfg.databaseId, cfg.apiKey, records, s.pr, s.insertPost);
    AcceptedExpenseReply(msg, msg.content[2..], s, records);
    RecordsReply(msg, s);
    var inserted := ExpenseInsertion(cfg.databaseId, cfg.apiKey, ValidatedExpenses(records).value, s.pr, s.insertPost);
    assert |inserted.feedback| == |records| && Respond(msg, s) == Reply(Joined(inserted.feedback));
  }

  lemma SalaryRoute(msg: Message)
    requires msg.msgType == TextType && HasPrefix(msg.content, SalaryMarker)
    ensures Classify(msg) == RecordEntries(Salary, msg.content[2..])
  {
    CommandIffPrefix(msg, Salary, msg.content[2..]);
    assert msg.content == SalaryMarker + msg.content[2..];
  }

  /** The salary path's reply when the model's records lack a key. */
  lemma RefusedSalaryReply(msg: Message, text: string, s: Services, records: seq<Record>, err: ValidationError)
    requires Classify(msg) == RecordEntries(Salary, text)
    requires s.userConfig(msg.fromUser, "1").Success?
    requires s.model(Salary, text).Success?
    requires s.decode(CleanSalaryReply(s.model(Salary, text).value)) == Success(records)
    requires ValidatedSalaries(records) == Failure(err)
    ensures RecordReply(msg, Salary, text, s) == Reply(SalaryErrorPrefix + ErrorText(err, s.pr.value))
  {
    assert ProcessedSalaries(text, s) == Failure(ErrorText(err, s.pr.value));
  }

  /** The salary path's reply when every record has its keys: a panic or the joined insert feedback. */
  lemma AcceptedSalaryReply(msg: Message, text: string, s: Services, records: seq<Record>)
    requires Classify(msg) == RecordEntries(Salary, text)
    requires s.userConfig(msg.fromUser, "1").Success?
    requires s.model(Salary, text).Success?
    requires s.decode(CleanSalaryReply(s.model(Salary, text).value)) == Success(records)
    requires ValidatedSalaries(records).Success?
    ensures var cfg := s.userConfig(msg.fromUser, "1").value;
      var inserted := SalaryInsertion(cfg.databaseId, cfg.apiKey, records, s.pr, s.insertPost);
      RecordReply(msg, Salary, text, s) == (if inserted.Panicked? then Panic else Reply(Joined(inserted.feedback)))
  {
    assert ValidatedSalaries(records) == Success(records) by {
      SalariesAllOrNothing(records);
    }
    assert ProcessedSalaries(text, s) == Success(records);
  }

  /**
   * A salary batch with a record missing a key is refused whole: the
   * reply names the first missing key and no record is sent.
   */
  lemma {:induction false} RefusedSalaryBatchSendsNothing(msg: Message, s: Services, records: seq<Record>,
                                                          err: ValidationError, post: (nat, Request) -> PostOutcome)
    requires msg.msgType == TextType && HasPrefix(msg.content, SalaryMarker)
    requires s.userConfig(msg.fromUser, "1").Success?
    requires s.model(Salary, msg.content[2..]).Success?
    requires s.decode(CleanSalaryReply(s.model(Salary, msg.content[2..]).value)) == Success(records)
    requires ValidatedSalaries(records) == Failure(err)
    ensures Respond(msg, s) == Reply(SalaryErrorPrefix + ErrorText(err, s.pr.value))
    ensures Respond(msg, s.(insertPost := post)) == Respond(msg, s)
    ensures exists i :: (0 <= i < |records| && SalaryFailure(records[i]) == Some(err) &&
      forall j :: 0 <= j < i ==> SalaryFailure(records[j]).None?)
  {
    SalaryRoute(msg);
    RefusedSalaryReply(msg, msg.content[2..], s, records, err);
    RefusedSalaryReply(msg, msg.content[2..], s.(insertPost := post), records, err);
    RecordsReply(msg, s);
    RecordsReply(msg, s.(insertPost := post));
    SalaryErrorIsFirst(records, err);
  }

  /**
   * A bound user's "1 " message whose decoded records all have the five
   * salary keys panics exactly when some record's insert panics, and is
   * otherwise answered with one line per record, that record's own line.
   */
  lemma {:induction false} AcceptedSalaryBatchOneLineEach(msg: Message, s: Services, records: seq<Record>)
    requires msg.msgType == TextType && HasPrefix(msg.content, SalaryMarker)
    requires s.userConfig(msg.fromUser, "1").Success?
    requires s.model(Salary, msg.content[2..]).Success?
    requires s.decode(CleanSalaryReply(s.model(Salary, msg.content[2..]).value)) == Success(records)
    requires ValidatedSalaries(records).Success?
    requires forall i | 0 <= i < |records| :: DecodedRecord(records[i])
    ensures var cfg := s.userConfig(msg.fromUser, "1").value;
      Respond(msg, s) == Panic <==>
        exists i :: 0 <= i < |records| && SalaryLine(cfg.databaseId, cfg.apiKey, records[i], i, s.pr, s.insertPost).None?
    ensures var cfg := s.userConfig(msg.fromUser, "1").value;
      Respond(msg, s) != Panic ==>
        exists feedback :: |feedback| == |records| && Respond(msg, s) == Reply(Joined(feedback)) &&
          forall i | 0 <= i < |records| :: SalaryLine(cfg.databaseId, cfg.apiKey, records[i], i, s.pr, s.insertPost) == Some(feedback[i])
  {
    SalaryRoute(msg);
    var cfg := s.userConfig(msg.fromUser, "1").value;
    Shaping.FlattenDecodedIsIdentity(records);
    SalaryLinePerEntry(cfg.databaseId, cfg.apiKey, records, s.pr, s.insertPost);
    AcceptedSalaryReply(msg, msg.content[2..], s, records);
    RecordsReply(msg, s);
    var inserted := SalaryInsertion(cfg.databaseId, cfg.apiKey, records, s.pr, s.insertPost);
    assert Respond(msg, s) == (if inserted.Panicked? then Panic else Reply(Joined(inserted.feedback)));
  }
}
