/**
 * Reading the Notion API key and database id out of a binding command
 * ("添加记账账号" or "添加工资记账" followed by two `name = 'value'` lines).
 */
module Binding {
  import opened Wrappers
  import opened GoStrings

  /** The characters `strings.Trim(.., "'\"")` strips. */
  const Quotes: set<char> := {'\'', '"'}

  /** The example command the format-error reply shows: a head line and two `name = 'value'` lines. */
  const ExampleHead: string := "添加记账账号"
  const ExampleKeyName: string := "NOTION_API_KEY"
  const ExampleKey: string := "your_api_key"
  const ExampleIdName: string := "DATABASE_ID"
  const ExampleId: string := "your_database_id"
  const FormatExample: string :=
    ExampleHead + "\n" + (ExampleKeyName + " = '" + ExampleKey + "'") + "\n" + (ExampleIdName + " = '" + ExampleId + "'")

  /** The fixed reply to a binding command with fewer than three lines. */
  const FormatErrorReply: string := "格式错误，请按照以下格式输入：\n" + FormatExample

  /** What reading a binding command yields. */
  datatype BindingParse =
    | FormatError                               // fewer than three lines
    | IndexPanic                                // line 2 or 3 has no '=': `strings.Split(..)[1]` is out of range
    | Parsed(apiKey: string, databaseId: string)

  /** The text after the first '=' of a line, up to a second '=', trimmed of spaces and then of quotes. */
  function ValueAfterEquals(line: string): (r: Option<string>)
    ensures r.None? <==> '=' !in line
    ensures r.Some? ==> '=' !in r.value && Unpadded(r.value, Quotes)
    ensures r.Some? ==> forall c :: c in r.value ==> c in line
  {
    var parts := Split(line, '=');
    SplitCount(line, '=');
    NoOccurrence(line, '=');
    if |parts| < 2 then None
    else
      var v := Trim(TrimSpace(parts[1]), Quotes);
      TrimInfix(parts[1], Whitespace, '=');
      TrimInfix(TrimSpace(parts[1]), Quotes, '=');
      TrimUnpadded(TrimSpace(parts[1]), Quotes);
      PiecesDrawnFrom(line, '=', 1);
      TrimSubset(parts[1], Whitespace);
      TrimSubset(TrimSpace(parts[1]), Quotes);
      Some(v)
  }

  /** The three-line binding command of `handleWxMessage`. */
  function ParseBinding(content: string): BindingParse {
    var lines := Split(content, '\n');
    if |lines| < 3 then FormatError
    else
      match (ValueAfterEquals(lines[1]), ValueAfterEquals(lines[2]))
      case (Some(key), Some(id)) => Parsed(key, id)
      case _ => IndexPanic
  }

  lemma {:induction false} NoOccurrence(s: string, c: char)
    ensures Count(s, c) == 0 <==> c !in s
    decreases |s|
  {
    if s != [] {
      NoOccurrence(s[1..], c);
      assert s == [s[0]] + s[1..];
    }
  }

  lemma TrimInfix(s: string, cut: set<char>, c: char)
    requires c !in s
    ensures c !in Trim(s, cut)
  {
  }

  /** A command is refused with the format error exactly when it has fewer than two line breaks. */
  lemma FormatErrorIffShort(content: string)
    ensures ParseBinding(content) == FormatError <==> Count(content, '\n') < 2
  {
    SplitCount(content, '\n');
  }

  /** Reading panics exactly when the command has three lines and line 2 or line 3 has no '='. */
  lemma IndexPanicIffNoEquals(content: string)
    ensures ParseBinding(content) == IndexPanic <==>
      var lines := Split(content, '\n');
      |lines| >= 3 && ('=' !in lines[1] || '=' !in lines[2])
  {
  }

  /** Every character of a trimmed string occurs in the original. */
  lemma TrimSubset(s: string, cut: set<char>)
    ensures forall c :: c in Trim(s, cut) ==> c in s
  {
  }

  /** Every character of a piece of a split occurs in the split string. */
  lemma {:induction false} PiecesDrawnFrom(s: string, sep: char, i: nat)
    requires i < |Split(s, sep)|
    ensures forall c :: c in Split(s, sep)[i] ==> c in s
    decreases |s|
  {
    if s != [] {
      var rest := Split(s[1..], sep);
      if s[0] == sep {
        if i > 0 {
          PiecesDrawnFrom(s[1..], sep, i - 1);
        }
      } else if i == 0 {
        PiecesDrawnFrom(s[1..], sep, 0);
      } else {
        PiecesDrawnFrom(s[1..], sep, i);
      }
    }
  }

  /** Neither extracted value contains '=' or a line break, nor starts or ends with a quote. */
  lemma ParsedValuesClean(content: string)
    requires ParseBinding(content).Parsed?
    ensures var p := ParseBinding(content);
      && '=' !in p.apiKey && '=' !in p.databaseId
      && '\n' !in p.apiKey && '\n' !in p.databaseId
      && Unpadded(p.apiKey, Quotes) && Unpadded(p.databaseId, Quotes)
  {
    var lines := Split(content, '\n');
    assert '\n' !in lines[1] && '\n' !in lines[2];
  }

  /** The documented three-line form reads back the key and the database id it carries. */
  lemma {:induction false} DocumentedFormatRoundTrip(
    head: string, keyName: string, key: string, idName: string, id: string)
    requires '\n' !in head
    requires '\n' !in keyName && '=' !in keyName && '\n' !in idName && '=' !in idName
    requires '\n' !in key && '=' !in key && Unpadded(key, Quotes)
    requires '\n' !in id && '=' !in id && Unpadded(id, Quotes)
    ensures ParseBinding(head + "\n" + (keyName + " = '" + key + "'") + "\n" + (idName + " = '" + id + "'"))
         == Parsed(key, id)
  {
    var keyLine := keyName + " = '" + key + "'";
    var idLine := idName + " = '" + id + "'";
    var content := head + "\n" + keyLine + "\n" + idLine;
    assert Join([idLine], '\n') == idLine;
    assert Join([keyLine, idLine], '\n') == keyLine + "\n" + idLine;
    assert Join([head, keyLine, idLine], '\n') == head + "\n" + (keyLine + "\n" + idLine);
    assert content == head + "\n" + (keyLine + "\n" + idLine);
    SplitJoin([head, keyLine, idLine], '\n');
    ReadAssignment(keyName, key);
    ReadAssignment(idName, id);
  }

  /** The line splits at its one `=` into the name with its space and the quoted value with its space. */
  lemma AssignmentParts(name: string, value: string)
    requires '=' !in name && '=' !in value
    ensures Split(name + " = '" + value + "'", '=') == [name + " ", " '" + value + "'"]
  {
    var rhs := " '" + value + "'";
    assert name + " = '" + value + "'" == Join([name + " ", rhs], '=');
    SplitJoin([name + " ", rhs], '=');
  }

  /** Trimming the space, then the quotes, from the right-hand side leaves the value. */
  lemma QuotedValue(value: string)
    requires Unpadded(value, Quotes)
    ensures Trim(TrimSpace(" '" + value + "'"), Quotes) == value
  {
    assert " '" + value + "'" == " " + ("'" + value + "'") + [];
    TrimPadded(" ", "'" + value + "'", [], Whitespace);
    TrimPadded("'", value, "'", Quotes);
  }

  /** One `name = 'value'` line yields `value`. */
  lemma {:induction false} ReadAssignment(name: string, value: string)
    requires '=' !in name && '=' !in value && Unpadded(value, Quotes)
    ensures ValueAfterEquals(name + " = '" + value + "'") == Some(value)
  {
    AssignmentParts(name, value);
    QuotedValue(value);
  }

  /** Only the segment between the first and second '=' is read: anything after a second '=' is dropped. */
  lemma SegmentAfterFirstEquals(pre: string, mid: string, rest: string)
    requires '=' !in pre && '=' !in mid
    ensures ValueAfterEquals(pre + "=" + mid) == Some(Trim(TrimSpace(mid), Quotes))
    ensures ValueAfterEquals(pre + "=" + mid + "=" + rest) == Some(Trim(TrimSpace(mid), Quotes))
  {
    assert pre + "=" + mid == pre + ['='] + mid;
    SplitAfterHead(pre, '=', mid);
    SplitNoSep(mid, '=');
    assert Split(pre + "=" + mid, '=')[1] == mid;
    var tail := mid + ['='] + rest;
    assert pre + "=" + mid + "=" + rest == pre + ['='] + tail;
    SplitAfterHead(pre, '=', tail);
    SplitAfterHead(mid, '=', rest);
    assert Split(pre + "=" + mid + "=" + rest, '=')[1] == mid;
  }

  /** The example's head and names hold no line break and no '='. */
  lemma ExampleNamesPlain()
    ensures '\n' !in ExampleHead
    ensures '\n' !in ExampleKeyName && '=' !in ExampleKeyName && '\n' !in ExampleIdName && '=' !in ExampleIdName
  {
  }

  /** The example's values hold no line break and no '=', and carry no outer quotes. */
  lemma ExampleValuesPlain()
    ensures '\n' !in ExampleKey && '=' !in ExampleKey && Unpadded(ExampleKey, Quotes)
    ensures '\n' !in ExampleId && '=' !in ExampleId && Unpadded(ExampleId, Quotes)
  {
  }

  /** The example printed in the format-error reply is itself a well-formed binding command. */
  lemma FormatExampleParses()
    ensures ParseBinding(FormatExample) == Parsed(ExampleKey, ExampleId)
  {
    ExampleNamesPlain();
    ExampleValuesPlain();
    DocumentedFormatRoundTrip(ExampleHead, ExampleKeyName, ExampleKey, ExampleIdName, ExampleId);
  }
}
