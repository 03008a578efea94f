/**
 * `CodeEditor`: the statistics row under the text area, the visibility of the
 * copy button and its label, and the language badge.
 */
module CodeEditor {
  import opened Optional
  import opened JsText

  /** The `language` prop's default. */
  const DefaultLanguage: string := "rust"

  /** `value.split('\n').length`. */
  function LineCount(value: string): nat
  {
    |Split(value, '\n')|
  }

  /** One line per line break plus one, so the empty text has one line. */
  lemma LineCountBreaks(value: string)
    ensures LineCount(value) == Count(value, '\n') + 1
    ensures LineCount(value) >= 1
    ensures LineCount("") == 1
  {
  }

  /** Joining lines with line breaks gives a text with exactly that many lines. */
  lemma LineCountOfJoin(lines: seq<string>)
    requires |lines| >= 1
    requires forall i :: 0 <= i < |lines| ==> '\n' !in lines[i]
    ensures LineCount(Join(lines, '\n')) == |lines|
  {
    SplitJoin(lines, '\n');
  }

  /** Two texts joined by a line break have the lines of both. */
  lemma LineCountConcat(a: string, b: string)
    ensures LineCount(a + "\n" + b) == LineCount(a) + LineCount(b)
  {
    CountConcat(a, "\n", '\n');
    CountConcat(a + "\n", b, '\n');
  }

  /** The statistics row: the line and character counts. */
  datatype Stats = Stats(lines: nat, characters: nat)

  /** The statistics row, rendered only while `value` is not empty. */
  function StatsRow(value: string): Option<Stats>
  {
    if value != "" then Some(Stats(LineCount(value), |value|)) else None
  }

  /** The row is shown for any non-empty text and reports its breaks plus one and its length. */
  lemma StatsRowFacts(value: string)
    ensures StatsRow(value).None? <==> value == ""
    ensures StatsRow(value).Some? ==>
      StatsRow(value).value.lines == Count(value, '\n') + 1 &&
      StatsRow(value).value.characters == |value|
  {
    LineCountBreaks(value);
  }

  /** The copy button, rendered only while `value` is not empty; the same test as the row. */
  predicate ShowsCopyButton(value: string)
  {
    value != ""
  }

  /** The copy button and the statistics row appear and disappear together. */
  lemma CopyButtonWithStats(value: string)
    ensures ShowsCopyButton(value) <==> StatsRow(value).Some?
  {
  }

  /** The copy button's text. */
  function CopyLabel(copied: bool): string
  {
    if copied then "Copied!" else "Copy"
  }

  /** The label tells the two states apart: it is "Copied!" exactly while the flag is set. */
  lemma CopyLabelStates(copied: bool)
    ensures CopyLabel(copied) == "Copied!" <==> copied
    ensures CopyLabel(copied) == "Copy" <==> !copied
  {
  }

  /** `language.toUpperCase()`, with the prop defaulting to "rust". */
  function LanguageBadge(language: Option<string>): string
  {
    ToUpper(language.GetOr(DefaultLanguage))
  }

  /** The badge is the language in capitals, "RUST" by default, with no lower-case letter left. */
  lemma LanguageBadgeText(language: Option<string>)
    ensures LanguageBadge(None) == "RUST"
    ensures language.Some? ==> |LanguageBadge(language)| == |language.value|
    ensures forall i :: 0 <= i < |LanguageBadge(language)| ==> !('a' <= LanguageBadge(language)[i] <= 'z')
  {
    assert LanguageBadge(None) == ['R', 'U', 'S', 'T'];
  }

  /** The `copied` flag of one mounted editor. */
  class Editor {
    var copied: bool

    constructor ()
      ensures !copied
    {
      copied := false;
    }

    /**
     * `handleCopy`, given whether `navigator.clipboard.writeText` resolved: only a
     * successful write sets the flag; a rejected one leaves the flag and the label as they were.
     */
    method HandleCopy(written: bool)
      modifies this
      ensures copied == (written || old(copied))
      ensures written ==> CopyLabel(copied) == "Copied!"
      ensures !written ==> CopyLabel(copied) == CopyLabel(old(copied))
    {
      if written {
        copied := true;
      }
    }

    /** The two-second timer `handleCopy` starts: the label turns back to "Copy". */
    method CopyTimerFires()
      modifies this
      ensures !copied && CopyLabel(copied) == "Copy"
    {
      copied := false;
    }
  }
}
