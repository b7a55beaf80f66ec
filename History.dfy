/**
  The history log as values: the bounded newest-first push that addHistory
  performs, the text of an entry, and the parse that recalls a result from
  an entry (the regular expression `/=\s*(.*)$/`).
 */
module History {
  import opened Wrappers
  import opened Text

  /** The log keeps at most this many entries. */
  const MaxEntries := 50

  /** The log after a new entry: newest first, the older entries in order, the oldest evicted beyond the cap. */
  function Pushed(log: seq<string>, entry: string): (r: seq<string>)
    ensures |r| == if |log| < MaxEntries then |log| + 1 else MaxEntries
    ensures r[0] == entry
    ensures forall i :: 1 <= i < |r| ==> r[i] == log[i - 1]
  {
    var grown := [entry] + log;
    if |grown| <= MaxEntries then grown else grown[..MaxEntries]
  }

  /** The entry recorded for a computation: the operation, " = ", then the displayed result. */
  function Summary(lhs: string, result: string): (r: string) {
    lhs + " = " + result
  }

  /** `s` with its leading `\s*` removed. */
  function SkipWhitespace(s: string): (r: string)
    ensures |r| <= |s| && r == s[|s| - |r|..]
    ensures r == [] || !IsWhitespace(r[0])
    ensures forall i :: 0 <= i < |s| - |r| ==> IsWhitespace(s[i])
  {
    if s != [] && IsWhitespace(s[0]) then SkipWhitespace(s[1..]) else s
  }

  /**
    The text that `/=\s*(.*)$/` captures: after the first `=` whose rest of
    the text, once leading white space is skipped, lies on one line; None
    when no `=` qualifies.
   */
  function RecallParse(text: string): (r: Option<string>)
    ensures r.Some? ==> |r.value| < |text| && r.value == text[|text| - |r.value|..]
    ensures r.Some? ==> SingleLine(r.value) && (r.value == [] || !IsWhitespace(r.value[0]))
    ensures '=' !in text ==> r.None?
  {
    if text == [] then None
    else if text[0] != '=' then RecallParse(text[1..])
    else
      var rest := SkipWhitespace(text[1..]);
      if SingleLine(rest) then Some(rest) else RecallParse(text[1..])
  }

  /** The recall reads past the first `=` of the text, skipping white space. */
  lemma {:induction false} RecallAfterFirstEquals(lhs: string, rest: string)
    requires '=' !in lhs
    requires SingleLine(SkipWhitespace(rest))
    ensures RecallParse(lhs + "=" + rest) == Some(SkipWhitespace(rest))
  {
    var tail := ['='] + rest;
    var skipped := SkipWhitespace(rest);
    assert lhs + "=" + rest == lhs + tail;
    assert RecallParse(lhs + tail) == RecallParse(tail) by {
      RecallPastPrefix(lhs, tail);
    }
    assert RecallParse(tail) == Some(skipped) by {
      RecallAtEquals(rest);
    }
  }

  /** A prefix without `=` does not affect the recall. */
  lemma {:induction false} RecallPastPrefix(lhs: string, tail: string)
    requires '=' !in lhs
    ensures RecallParse(lhs + tail) == RecallParse(tail)
  {
    if lhs == [] {
      assert lhs + tail == tail;
    } else {
      assert lhs + tail == [lhs[0]] + (lhs[1..] + tail);
      assert lhs[0] in lhs;
      RecallSkips(lhs[0], lhs[1..] + tail);
      RecallPastPrefix(lhs[1..], tail);
    }
  }

  lemma RecallAtEquals(rest: string)
    requires SingleLine(SkipWhitespace(rest))
    ensures RecallParse(['='] + rest) == Some(SkipWhitespace(rest))
  {
    assert (['='] + rest)[1..] == rest;
  }

  lemma RecallSkips(c: char, tail: string)
    requires c != '='
    ensures RecallParse([c] + tail) == RecallParse(tail)
  {
    assert ([c] + tail)[1..] == tail;
  }

  /** Recalling an entry gives back the result it recorded: the entry text and the recall parse are inverse. */
  lemma RecallSummary(lhs: string, result: string)
    requires '=' !in lhs
    requires IsDisplay(result)
    ensures RecallParse(Summary(lhs, result)) == Some(result)
  {
    assert Summary(lhs, result) == (lhs + " ") + "=" + (" " + result);
    assert (" " + result)[1..] == result;
    assert SkipWhitespace(" " + result) == result;
    RecallAfterFirstEquals(lhs + " ", " " + result);
  }

  /** An entry the recall turns back into display text. */
  predicate Recalls(entry: string) {
    RecallParse(entry).Some? && IsDisplay(RecallParse(entry).value)
  }

  /** A push of a recallable entry onto a log of recallable entries keeps every entry recallable. */
  lemma PushedRecalls(log: seq<string>, entry: string)
    requires forall i :: 0 <= i < |log| ==> Recalls(log[i])
    requires Recalls(entry)
    ensures forall i :: 0 <= i < |Pushed(log, entry)| ==> Recalls(Pushed(log, entry)[i])
  {
  }
}
