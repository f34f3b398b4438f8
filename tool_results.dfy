/** Turning what one tool call gave back into the content of its ToolMessage:
    text extraction, the placeholder, truncation and error capture (agent.py, lines 92-110). */
module ToolResults {
  import opened Messages

  /** One item of a tool result's content list. */
  datatype ContentPart =
    | TextPart(text: string)       // an item with a string `text`
    | NonTextPart                  // an item without `text` (an image, an embedded resource)
    | BadTextPart(error: string)   // an item whose `text` is not a string: appending it raises this error

  /** What the tool gateway gives back for one call: a result whose content list may be
      missing, or the exception the call raised. */
  datatype CallOutcome =
    | Returned(content: Option<seq<ContentPart>>)
    | Raised(error: string)

  /** The text parsed from a content list, or the exception parsing raised. */
  datatype Parsed = Parsed(text: string) | ParseError(error: string)

  const Placeholder: string := "Tool executed (no text output returned)."
  const ErrorPrefix: string := "Error executing tool: "
  const TruncationLimit: nat := 20000
  const TruncationMarker: string := "... [Truncated]"
  /** The longest content a call that raised nothing can produce. */
  const MaxContentLength: nat := TruncationLimit + |TruncationMarker|

  /** The text accumulated item by item over `parts`, left to right; the first item whose
      text is not a string stops it with that item's error. */
  function JoinText(parts: seq<ContentPart>): Parsed
    decreases |parts|
  {
    if parts == [] then Parsed("")
    else
      match JoinText(parts[..|parts| - 1])
      case ParseError(e) => ParseError(e)
      case Parsed(t) =>
        match parts[|parts| - 1]
        case TextPart(s) => Parsed(t + s)
        case NonTextPart => Parsed(t)
        case BadTextPart(e) => ParseError(e)
  }

  /** Cut a string longer than the limit to its first TruncationLimit characters and mark it. */
  function Truncate(s: string): (r: string)
    ensures |r| <= MaxContentLength
    ensures |s| <= TruncationLimit ==> r == s
    ensures |s| > TruncationLimit ==> |r| == MaxContentLength && r[..TruncationLimit] == s[..TruncationLimit] && r[TruncationLimit..] == TruncationMarker
  {
    if |s| > TruncationLimit then s[..TruncationLimit] + TruncationMarker else s
  }

  /** The content of the ToolMessage for a call whose outcome is `outcome`. */
  function Normalised(outcome: CallOutcome): string
  {
    match outcome
    case Raised(e) => ErrorPrefix + e
    case Returned(content) =>
      var parsed := if content.None? || content.value == [] then Parsed(Placeholder) else JoinText(content.value);
      match parsed
      case ParseError(e) => ErrorPrefix + e
      case Parsed(t) => Truncate(t)
  }

  /** Normalise one tool outcome the way the dispatcher does: accumulate the text items in a
      loop, fall back to the placeholder, truncate, and turn any exception into an error text. */
  method NormaliseResult(outcome: CallOutcome) returns (content: string)
    ensures content == Normalised(outcome)
  {
    match outcome
    case Raised(e) =>
      content := ErrorPrefix + e;
    case Returned(items) =>
      if items.Some? && items.value != [] {
        var parts := items.value;
        content := "";
        for i := 0 to |parts|
          invariant JoinText(parts[..i]) == Parsed(content)
        {
          assert parts[..i + 1][..i] == parts[..i];
          match parts[i]
          case TextPart(t) =>
            content := content + t;
          case NonTextPart =>
          case BadTextPart(e) =>
            JoinTextErrorPersists(parts, i + 1);
            content := ErrorPrefix + e;
            return;
        }
        assert parts[..|parts|] == parts;
      } else {
        content := Placeholder;
      }
      if |content| > TruncationLimit {
        content := content[..TruncationLimit] + TruncationMarker;
      }
  }

  // ----- A reference definition of the text of a content list -----

  function TextOf(p: ContentPart): string
  {
    if p.TextPart? then p.text else ""
  }

  /** The texts of the parts that have one, concatenated from the first part to the last. */
  function ConcatTexts(parts: seq<ContentPart>): string
  {
    if parts == [] then "" else TextOf(parts[0]) + ConcatTexts(parts[1..])
  }

  /** No part's `text` raises when it is appended. */
  predicate AllReadable(parts: seq<ContentPart>)
  {
    forall i :: 0 <= i < |parts| ==> !parts[i].BadTextPart?
  }

  lemma {:induction false} ConcatTextsSnoc(parts: seq<ContentPart>, p: ContentPart)
    ensures ConcatTexts(parts + [p]) == ConcatTexts(parts) + TextOf(p)
  {
    if parts == [] {
      assert parts + [p] == [p];
      assert [p][1..] == [];
    } else {
      assert (parts + [p])[1..] == parts[1..] + [p];
      ConcatTextsSnoc(parts[1..], p);
    }
  }

  // ----- What the text extraction computes -----

  /** When every part is readable, the accumulated text is the in-order concatenation of
      the texts of the parts that have one; parts without text are skipped. */
  lemma {:induction false} JoinTextReadable(parts: seq<ContentPart>)
    requires AllReadable(parts)
    ensures JoinText(parts) == Parsed(ConcatTexts(parts))
    decreases |parts|
  {
    if parts != [] {
      var init, last := parts[..|parts| - 1], parts[|parts| - 1];
      assert parts == init + [last];
      assert !parts[|parts| - 1].BadTextPart?;
      JoinTextReadable(init);
      ConcatTextsSnoc(init, last);
    }
  }

  /** When the part at `i` is the first whose text raises, parsing fails with its error. */
  lemma {:induction false} JoinTextFirstError(parts: seq<ContentPart>, i: nat)
    requires i < |parts| && parts[i].BadTextPart?
    requires AllReadable(parts[..i])
    ensures JoinText(parts) == ParseError(parts[i].error)
    decreases |parts|
  {
    var init := parts[..|parts| - 1];
    if i == |parts| - 1 {
      JoinTextReadable(init);
    } else {
      assert init[i] == parts[i] && init[..i] == parts[..i];
      JoinTextFirstError(init, i);
    }
  }

  /** Once parsing a prefix has raised, the rest of the list is not looked at. */
  lemma {:induction false} JoinTextErrorPersists(parts: seq<ContentPart>, k: nat)
    requires k <= |parts| && JoinText(parts[..k]).ParseError?
    ensures JoinText(parts) == JoinText(parts[..k])
    decreases |parts|
  {
    if k < |parts| {
      var init := parts[..|parts| - 1];
      assert init[..k] == parts[..k];
      JoinTextErrorPersists(init, k);
    } else {
      assert parts[..k] == parts;
    }
  }

  /** A non-empty content list with no text in it gives the empty string, not the placeholder. */
  lemma {:induction false} NonTextOnlyGivesEmpty(parts: seq<ContentPart>)
    requires forall i :: 0 <= i < |parts| ==> parts[i] == NonTextPart
    ensures JoinText(parts) == Parsed("")
    ensures parts != [] ==> Normalised(Returned(Some(parts))) == ""
    decreases |parts|
  {
    if parts != [] {
      NonTextOnlyGivesEmpty(parts[..|parts| - 1]);
    }
  }

  // ----- What the ToolMessage content is -----

  /** A call that raised nothing gets the text of its content, or the placeholder when the
      content is missing or empty, truncated; it never exceeds MaxContentLength. */
  lemma SuccessfulCallContent(content: Option<seq<ContentPart>>)
    requires content.Some? ==> AllReadable(content.value)
    ensures Normalised(Returned(content)) ==
              Truncate(if content.None? || content.value == [] then Placeholder else ConcatTexts(content.value))
    ensures |Normalised(Returned(content))| <= MaxContentLength
  {
    if content.Some? && content.value != [] {
      JoinTextReadable(content.value);
    }
  }

  /** Any exception, raised by the call itself or while parsing its content, becomes the
      error prefix followed by the exception's message, which is never truncated. */
  lemma FailureContained(outcome: CallOutcome, e: string)
    requires outcome == Raised(e) ||
             (outcome.Returned? && outcome.content.Some? && outcome.content.value != [] &&
              JoinText(outcome.content.value) == ParseError(e))
    ensures Normalised(outcome) == ErrorPrefix + e
    ensures |Normalised(outcome)| == |ErrorPrefix| + |e|
  {
  }

  /** Only an error text can be longer than MaxContentLength. */
  lemma OnlyErrorsExceedBound(outcome: CallOutcome)
    ensures |Normalised(outcome)| > MaxContentLength ==> ErrorPrefix <= Normalised(outcome)
  {
  }

  /** Applying the truncation rule twice gives the same string as applying it once. */
  lemma TruncateIdempotent(s: string)
    ensures Truncate(Truncate(s)) == Truncate(s)
  {
  }

  /** A tool answering "Hello" gets exactly "Hello": no truncation, no error prefix. */
  lemma ShortOutputKept()
    ensures Normalised(Returned(Some([TextPart("Hello")]))) == "Hello"
  {
  }

  /** A tool answering 25,000 characters "a" gets the first 20,000 followed by the marker. */
  lemma LongOutputTruncated()
    ensures Normalised(Returned(Some([TextPart(seq(25000, _ => 'a'))]))) ==
              seq(20000, _ => 'a') + TruncationMarker
  {
    var long := seq(25000, _ => 'a');
    var parts := [TextPart(long)];
    assert parts[..0] == [];
    assert JoinText(parts) == Parsed("" + long);
    assert "" + long == long;
    assert long[..TruncationLimit] == seq(20000, _ => 'a');
  }
}
