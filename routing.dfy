/**
 * How `handleWxMessage` chooses what to do with an incoming WeChat message:
 * a chain of prefix tests on the text, tried in a fixed order.
 */
module Routing {
  import opened GoStrings

  /** `message.MsgTypeText`. */
  const TextType: string := "text"

  /** The two kinds of Notion database a user can bind: the `数据库类型` select. */
  datatype DbType = Ledger | Salary

  /** The select value stored for a database type: "0" for the ledger, "1" for salaries. */
  function Code(t: DbType): (c: string)
    ensures c == "0" || c == "1"
    ensures t == Ledger <==> c == "0"
  {
    match t
    case Ledger => "0"
    case Salary => "1"
  }

  /** The part of a `message.MixMessage` the router reads. */
  datatype Message = Message(msgType: string, content: string, fromUser: string)

  /** What the handler goes on to do. */
  datatype Action =
    | Media                                    // not text: the chat bot's media handler
    | DeleteBinding(db: DbType)                // "删除记账账号"
    | AddBinding(db: DbType)                   // "添加记账账号" / "添加工资记账"
    | RecordEntries(db: DbType, text: string)  // "1 " / "0 ", with the marker removed
    | Chat(text: string)                       // anything else: the chat bot

  const DeleteCommand: string := "删除记账账号"
  const BindLedgerCommand: string := "添加记账账号"
  const BindSalaryCommand: string := "添加工资记账"
  const SalaryMarker: string := "1 "
  const ExpenseMarker: string := "0 "

  /** The first test that matches decides; every command but deletion carries its database type. */
  function Classify(msg: Message): Action {
    var c := msg.content;
    if msg.msgType != TextType then Media
    else if HasPrefix(c, DeleteCommand) then DeleteBinding(Ledger)
    else if HasPrefix(c, BindLedgerCommand) then AddBinding(Ledger)
    else if HasPrefix(c, BindSalaryCommand) then AddBinding(Salary)
    else if |c| >= 2 && c[..2] == SalaryMarker then RecordEntries(Salary, c[2..])
    else if |c| >= 2 && c[..2] == ExpenseMarker then RecordEntries(Ledger, c[2..])
    else Chat(c)
  }

  /** The binding command for a database type. */
  function BindCommand(db: DbType): string {
    match db
    case Ledger => BindLedgerCommand
    case Salary => BindSalaryCommand
  }

  /** The record marker for a database type. */
  function Marker(db: DbType): string {
    match db
    case Ledger => ExpenseMarker
    case Salary => SalaryMarker
  }

  /** All five command prefixes. */
  const Commands: seq<string> := [DeleteCommand, BindLedgerCommand, BindSalaryCommand, SalaryMarker, ExpenseMarker]

  /** Two strings that differ at a position both have cannot both start a text. */
  lemma {:induction false} Diverging(c: string, p: string, q: string, i: nat)
    requires i < |p| && i < |q| && p[i] != q[i]
    ensures !(HasPrefix(c, p) && HasPrefix(c, q))
  {
  }

  /** No two of the five command prefixes start the same text. */
  lemma PrefixesExclusive(c: string)
    ensures !(HasPrefix(c, DeleteCommand) && HasPrefix(c, BindLedgerCommand))
    ensures !(HasPrefix(c, DeleteCommand) && HasPrefix(c, BindSalaryCommand))
    ensures !(HasPrefix(c, DeleteCommand) && HasPrefix(c, SalaryMarker))
    ensures !(HasPrefix(c, DeleteCommand) && HasPrefix(c, ExpenseMarker))
    ensures !(HasPrefix(c, BindLedgerCommand) && HasPrefix(c, BindSalaryCommand))
    ensures !(HasPrefix(c, BindLedgerCommand) && HasPrefix(c, SalaryMarker))
    ensures !(HasPrefix(c, BindLedgerCommand) && HasPrefix(c, ExpenseMarker))
    ensures !(HasPrefix(c, BindSalaryCommand) && HasPrefix(c, SalaryMarker))
    ensures !(HasPrefix(c, BindSalaryCommand) && HasPrefix(c, ExpenseMarker))
    ensures !(HasPrefix(c, SalaryMarker) && HasPrefix(c, ExpenseMarker))
  {
    Diverging(c, DeleteCommand, BindLedgerCommand, 0);
    Diverging(c, DeleteCommand, BindSalaryCommand, 0);
    Diverging(c, DeleteCommand, SalaryMarker, 0);
    Diverging(c, DeleteCommand, ExpenseMarker, 0);
    Diverging(c, BindLedgerCommand, BindSalaryCommand, 2);
    Diverging(c, BindLedgerCommand, SalaryMarker, 0);
    Diverging(c, BindLedgerCommand, ExpenseMarker, 0);
    Diverging(c, BindSalaryCommand, SalaryMarker, 0);
    Diverging(c, BindSalaryCommand, ExpenseMarker, 0);
    Diverging(c, SalaryMarker, ExpenseMarker, 0);
  }

  /** At most one command prefix starts any text, so the order of the tests never matters. */
  lemma {:induction false} CommandsExclusive(c: string, i: nat, j: nat)
    requires i < j < |Commands|
    ensures !(HasPrefix(c, Commands[i]) && HasPrefix(c, Commands[j]))
  {
    PrefixesExclusive(c);
  }

  /** The `len(s) >= 2 && s[:2] == m` test is a prefix test. */
  lemma MarkerTest(c: string, m: string)
    requires |m| == 2
    ensures (|c| >= 2 && c[..2] == m) <==> HasPrefix(c, m)
  {
  }

  /** A message that is not text always goes to the media handler; text never does. */
  lemma MediaIffNotText(msg: Message)
    ensures Classify(msg) == Media <==> msg.msgType != TextType
  {
  }

  /** Each command is chosen exactly when its own prefix starts the text, whatever the order of the tests. */
  lemma {:induction false} CommandIffPrefix(msg: Message, db: DbType, t: string)
    ensures Classify(msg) == DeleteBinding(db) <==>
      msg.msgType == TextType && HasPrefix(msg.content, DeleteCommand) && db == Ledger
    ensures Classify(msg) == AddBinding(db) <==>
      msg.msgType == TextType && HasPrefix(msg.content, BindCommand(db))
    ensures Classify(msg) == RecordEntries(db, t) <==>
      msg.msgType == TextType && HasPrefix(msg.content, Marker(db)) && msg.content == Marker(db) + t
  {
    var c := msg.content;
    MarkerTest(c, SalaryMarker);
    MarkerTest(c, ExpenseMarker);
    PrefixesExclusive(c);
    if HasPrefix(c, Marker(db)) {
      assert c == Marker(db) + c[2..];
    }
  }

  /** Plain chat gets the whole text exactly when no command prefix starts it. */
  lemma {:induction false} ChatIffNoCommand(msg: Message, t: string)
    ensures Classify(msg) == Chat(t) <==>
      msg.msgType == TextType && t == msg.content &&
      forall i | 0 <= i < |Commands| :: !HasPrefix(msg.content, Commands[i])
  {
    MarkerTest(msg.content, SalaryMarker);
    MarkerTest(msg.content, ExpenseMarker);
    assert Commands[0] == DeleteCommand && Commands[1] == BindLedgerCommand && Commands[2] == BindSalaryCommand;
    assert Commands[3] == SalaryMarker && Commands[4] == ExpenseMarker;
  }

  /** Deletion and the "0 " marker use the ledger database, "添加工资记账" and "1 " the salary database. */
  lemma DatabaseTypeFixedPerCommand(msg: Message)
    requires msg.msgType == TextType
    ensures Classify(msg).DeleteBinding? || Classify(msg).AddBinding? || Classify(msg).RecordEntries? ==>
      Code(Classify(msg).db) == (if HasPrefix(msg.content, BindSalaryCommand) || HasPrefix(msg.content, SalaryMarker) then "1" else "0")
  {
    var c := msg.content;
    MarkerTest(c, SalaryMarker);
    MarkerTest(c, ExpenseMarker);
    PrefixesExclusive(c);
  }
}
