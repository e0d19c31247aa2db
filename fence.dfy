/**
 * Removing a Markdown code fence from the language model's reply before the
 * reply is decoded as JSON.  The expense handler and the salary handler do
 * this in two slightly different ways.
 */
module Fence {
  import opened GoStrings

  const JsonFence: string := "```json"
  const FenceMark: string := "```"

  /** `processRequest`: trim, drop "```json", then "```", then a trailing "```", trim again. */
  function CleanExpenseReply(text: string): (r: string)
    ensures Unpadded(r, Whitespace)
  {
    var t := TrimSpace(text);
    var t := TrimPrefix(t, JsonFence);
    var t := TrimPrefix(t, FenceMark);
    var t := TrimSuffix(t, FenceMark);
    TrimUnpadded(t, Whitespace);
    TrimSpace(t)
  }

  /** `processRequest_gongzi`: trim, drop "```json", then a trailing "```"; no second prefix and no final trim. */
  function CleanSalaryReply(text: string): string {
    TrimSuffix(TrimPrefix(TrimSpace(text), JsonFence), FenceMark)
  }

  lemma PrefixOfConcat(a: string, b: string)
    ensures HasPrefix(a + b, a) && (a + b)[|a|..] == b
  {
    assert (a + b)[..|a|] == a;
  }

  lemma SuffixOfConcat(a: string, b: string)
    ensures HasSuffix(a + b, b) && (a + b)[..|a|] == a
  {
    assert (a + b)[|a + b| - |b|..] == b;
  }

  /** A fenced block surrounded by whitespace is unpadded once the whitespace is trimmed. */
  lemma {:induction false} TrimFenced(pre: string, open: string, x: string, post: string)
    requires AllIn(pre, Whitespace) && AllIn(post, Whitespace)
    requires open == JsonFence || open == FenceMark
    ensures TrimSpace(pre + open + x + FenceMark + post) == open + x + FenceMark
  {
    var core := open + x + FenceMark;
    assert core[0] == '`' && core[|core| - 1] == '`';
    assert pre + open + x + FenceMark + post == pre + core + post;
    TrimPadded(pre, core, post, Whitespace);
  }

  /** No "```json" opens a bare fence whose text does not start with "json". */
  lemma NoJsonTagAfterFence(x: string)
    requires !HasPrefix(x, "json")
    ensures !HasPrefix(FenceMark + x + FenceMark, JsonFence)
  {
    var t := FenceMark + x + FenceMark;
    if |x| >= 4 {
      assert t[3..7] == x[..4];
      assert JsonFence[3..7] == "json";
    } else {
      assert t[3 + |x|] == '`';
    }
  }

  /** Dropping the opening "```json" of a block leaves its text and the closing fence. */
  lemma JsonOpeningDropped(x: string)
    ensures TrimPrefix(JsonFence + x + FenceMark, JsonFence) == x + FenceMark
  {
    assert JsonFence + x + FenceMark == JsonFence + (x + FenceMark);
    PrefixOfConcat(JsonFence, x + FenceMark);
  }

  /** Text that does not start with a backtick, followed by a closing fence, loses only that fence. */
  lemma ClosingFenceDropped(x: string)
    requires x == [] || x[0] != '`'
    ensures TrimSuffix(TrimPrefix(x + FenceMark, FenceMark), FenceMark) == x
  {
    if x == [] {
      assert x + FenceMark == FenceMark + [];
      PrefixOfConcat(FenceMark, []);
    } else {
      assert (x + FenceMark)[0] != '`';
      assert TrimPrefix(x + FenceMark, FenceMark) == x + FenceMark;
      SuffixOfConcat(x, FenceMark);
    }
  }

  /** A "```json" block yields its trimmed inner text when that text does not start with a backtick. */
  lemma {:induction false} ExpenseJsonFence(pre: string, x: string, post: string)
    requires AllIn(pre, Whitespace) && AllIn(post, Whitespace)
    requires x == [] || x[0] != '`'
    ensures CleanExpenseReply(pre + JsonFence + x + FenceMark + post) == TrimSpace(x)
  {
    TrimFenced(pre, JsonFence, x, post);
    JsonOpeningDropped(x);
    ClosingFenceDropped(x);
  }

  /** Both prefix cuts together drop only the opening of a bare "```" block. */
  lemma BareOpeningDropped(x: string)
    requires !HasPrefix(x, "json")
    ensures TrimPrefix(TrimPrefix(FenceMark + x + FenceMark, JsonFence), FenceMark) == x + FenceMark
  {
    NoJsonTagAfterFence(x);
    assert FenceMark + x + FenceMark == FenceMark + (x + FenceMark);
    PrefixOfConcat(FenceMark, x + FenceMark);
  }

  /** A bare "```" block yields its trimmed inner text, unless that text starts with "json". */
  lemma {:induction false} ExpenseBareFence(pre: string, x: string, post: string)
    requires AllIn(pre, Whitespace) && AllIn(post, Whitespace)
    requires !HasPrefix(x, "json")
    ensures CleanExpenseReply(pre + FenceMark + x + FenceMark + post) == TrimSpace(x)
  {
    TrimFenced(pre, FenceMark, x, post);
    BareOpeningDropped(x);
    SuffixOfConcat(x, FenceMark);
  }

  /** Text that starts with no fence does not start with "```json" either. */
  lemma NoJsonFenceWithoutFence(t: string)
    requires !HasPrefix(t, FenceMark)
    ensures !HasPrefix(t, JsonFence)
  {
    assert JsonFence[..3] == FenceMark;
    if |t| >= 7 {
      assert t[..7][..3] == t[..3];
    }
  }

  /** A reply without fences is only trimmed. */
  lemma ExpenseUnfenced(text: string)
    requires !HasPrefix(TrimSpace(text), FenceMark) && !HasSuffix(TrimSpace(text), FenceMark)
    ensures CleanExpenseReply(text) == TrimSpace(text)
  {
    NoJsonFenceWithoutFence(TrimSpace(text));
    TrimIdempotent(text, Whitespace);
  }

  /** The salary cleaner returns the untrimmed inner text of a "```json" block. */
  lemma {:induction false} SalaryJsonFence(pre: string, x: string, post: string)
    requires AllIn(pre, Whitespace) && AllIn(post, Whitespace)
    ensures CleanSalaryReply(pre + JsonFence + x + FenceMark + post) == x
  {
    TrimFenced(pre, JsonFence, x, post);
    assert JsonFence + x + FenceMark == JsonFence + (x + FenceMark);
    PrefixOfConcat(JsonFence, x + FenceMark);
    SuffixOfConcat(x, FenceMark);
  }

  /** The salary cleaner keeps the opening of a bare "```" block, where the expense cleaner drops it. */
  lemma {:induction false} SalaryBareFence(pre: string, x: string, post: string)
    requires AllIn(pre, Whitespace) && AllIn(post, Whitespace)
    requires !HasPrefix(x, "json")
    ensures CleanSalaryReply(pre + FenceMark + x + FenceMark + post) == FenceMark + x
    ensures CleanExpenseReply(pre + FenceMark + x + FenceMark + post) != CleanSalaryReply(pre + FenceMark + x + FenceMark + post)
  {
    TrimFenced(pre, FenceMark, x, post);
    NoJsonTagAfterFence(x);
    assert FenceMark + x + FenceMark == (FenceMark + x) + FenceMark;
    SuffixOfConcat(FenceMark + x, FenceMark);
    ExpenseBareFence(pre, x, post);
    assert |TrimSpace(x)| <= |x| < |FenceMark + x|;
  }
}
