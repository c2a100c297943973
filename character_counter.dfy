/**
 * The character counter: a textarea bound to the `InputText` property and a
 * label that, on every change event, shows the number of characters and the
 * number of pieces the text splits into at single spaces.
 */
module CharacterCounter {
  import opened Host
  import opened Dom

  /** How many times `c` occurs in `s`. */
  function Occurrences(s: string, c: char): nat
  {
    if s == [] then 0 else (if s[0] == c then 1 else 0) + Occurrences(s[1..], c)
  }

  /**
   * `s.split(sep)` for a one-character separator: the pieces between
   * consecutive separators, empty pieces included, so there is always one
   * more piece than there are separators.
   */
  function Split(s: string, sep: char): (pieces: seq<string>)
    ensures |pieces| == Occurrences(s, sep) + 1
    ensures forall p :: p in pieces ==> sep !in p
  {
    if s == [] then [""]
    else
      var rest := Split(s[1..], sep);
      if s[0] == sep then [""] + rest
      else [[s[0]] + rest[0]] + rest[1..]
  }

  /** `pieces.join(sep)`. */
  function Join(pieces: seq<string>, sep: char): string
  {
    if pieces == [] then ""
    else if |pieces| == 1 then pieces[0]
    else pieces[0] + [sep] + Join(pieces[1..], sep)
  }

  /** Joining the pieces of a split with the same separator gives the text back. */
  lemma {:induction false} JoinSplit(s: string, sep: char)
    ensures Join(Split(s, sep), sep) == s
  {
    if s != [] {
      var rest := Split(s[1..], sep);
      JoinSplit(s[1..], sep);
      if s[0] == sep {
        assert ([""] + rest)[1..] == rest;
        assert s == [sep] + s[1..];
      } else if |rest| == 1 {
        assert s == [s[0]] + rest[0];
      } else {
        var pieces := [[s[0]] + rest[0]] + rest[1..];
        assert pieces[1..] == rest[1..];
        assert s == [s[0]] + s[1..];
      }
    }
  }

  /** The word count: the number of pieces of a split at single spaces. */
  function WordCount(s: string): (w: nat)
    ensures w == Occurrences(s, ' ') + 1
    ensures w >= 1
  {
    |Split(s, ' ')|
  }

  /** The character for a decimal digit. */
  function DigitChar(d: nat): (c: char)
    requires d < 10
    ensures '0' <= c <= '9'
    ensures c as int == '0' as int + d
  {
    ['0', '1', '2', '3', '4', '5', '6', '7', '8', '9'][d]
  }

  function DigitValue(c: char): (d: nat)
    requires '0' <= c <= '9'
    ensures d < 10
  {
    c as int - '0' as int
  }

  predicate IsNumeral(s: string)
  {
    s != [] && forall i :: 0 <= i < |s| ==> '0' <= s[i] <= '9'
  }

  /** `n.toString()`: the decimal numeral of `n`, never empty, without leading zeros. */
  function NatToString(n: nat): (s: string)
    ensures IsNumeral(s)
    ensures |s| == 1 || s[0] != '0'
  {
    if n < 10 then [DigitChar(n)]
    else NatToString(n / 10) + [DigitChar(n % 10)]
  }

  /** `parseInt(s)` on a decimal numeral. */
  function ParseDecimal(s: string): (r: nat)
    requires IsNumeral(s)
    ensures r == 0 <==> forall i :: 0 <= i < |s| ==> s[i] == '0'
  {
    if |s| == 1 then DigitValue(s[0])
    else 10 * ParseDecimal(s[..|s| - 1]) + DigitValue(s[|s| - 1])
  }

  /** Parsing a count's decimal numeral gives the count back. */
  lemma {:induction false} ParseNatToString(n: nat)
    ensures ParseDecimal(NatToString(n)) == n
  {
    if n >= 10 {
      var s := NatToString(n);
      assert s[..|s| - 1] == NatToString(n / 10);
      ParseNatToString(n / 10);
    }
  }

  /** The singular form (with its trailing space) for a count of at most one, else the plural. */
  function Noun(count: nat, singular: string, plural: string): string
  {
    if count <= 1 then singular else plural
  }

  /** The label for the text `s`, as the change handler writes it. */
  function LabelText(s: string): (shown: string)
    ensures |s| <= 1 ==> NatToString(|s|) + " character , " <= shown
    ensures |s| > 1 ==> NatToString(|s|) + " characters, " <= shown
    ensures |shown| >= 6 && shown[|shown| - 6..] == if WordCount(s) <= 1 then " word " else " words"
  {
    NatToString(|s|) + Noun(|s|, " character ", " characters") + ", " +
    NatToString(WordCount(s)) + Noun(WordCount(s), " word ", " words")
  }

  /** The empty text: zero characters in the singular form, and one word. */
  lemma LabelOfEmpty()
    ensures LabelText("") == "0 character , 1 word "
  {
  }

  /** Consecutive spaces are not collapsed: `"a  b"` is three words. */
  lemma LabelOfDoubleSpace()
    ensures WordCount("a  b") == 3
    ensures LabelText("a  b") == "4 characters, 3 words"
  {
    assert Occurrences("a  b", ' ') == 2 by {
      assert "a  b"[1..] == "  b";
      assert "  b"[1..] == " b";
      assert " b"[1..] == "b";
    }
  }

  class TrainingCharacterCounter {
    const eleMainContainer: Node
    const eleTextbox: Node
    const eleOutputLabel: Node
    /** How many times `notifyOutputChanged` has been called. */
    ghost var notifications: nat

    ghost predicate Valid()
      reads this, eleMainContainer, eleTextbox, eleOutputLabel
    {
      eleMainContainer.kind == Element("div") &&
      eleTextbox.kind == Element("textarea") &&
      eleOutputLabel.kind == Element("label") &&
      eleMainContainer.children == [eleTextbox, eleOutputLabel] &&
      eleTextbox.text.Some? && eleOutputLabel.text.Some?
    }

    /** The textarea's current value. */
    function Value(): string
      reads this, eleMainContainer, eleTextbox, eleOutputLabel
      requires Valid()
    {
      eleTextbox.text.value
    }

    /** The label's current text. */
    function Label(): string
      reads this, eleMainContainer, eleTextbox, eleOutputLabel
      requires Valid()
    {
      eleOutputLabel.text.value
    }

    /**
     * The empty TypeScript constructor followed by `init`: a wrapper div holding
     * a textarea seeded with `InputText.raw || ""` and then an empty label is
     * appended to the container.
     */
    constructor Init(container: Node, inputTextRaw: Option<string>)
      modifies container
      ensures Valid()
      ensures fresh(eleMainContainer) && fresh(eleTextbox) && fresh(eleOutputLabel)
      ensures container.children == old(container.children) + [eleMainContainer]
      ensures container.text == old(container.text)
      ensures Value() == OrEmpty(inputTextRaw) && Label() == ""
      ensures notifications == 0
    {
      var main := new Node.CreateElement("div");
      var textbox := new Node.CreateElement("textarea");
      textbox.text := Some(OrEmpty(inputTextRaw));
      var outputLabel := new Node.CreateElement("label");
      main.AppendChild(textbox);
      main.AppendChild(outputLabel);
      container.AppendChild(main);
      eleMainContainer := main;
      eleTextbox := textbox;
      eleOutputLabel := outputLabel;
      notifications := 0;
    }

    /** `updateView`: the textarea takes `InputText.raw || ""`, whatever it held; the label stays. */
    method UpdateView(inputTextRaw: Option<string>)
      requires Valid()
      modifies eleTextbox
      ensures Valid()
      ensures Value() == OrEmpty(inputTextRaw)
      ensures Label() == old(Label())
      ensures GetOutputs() == map["InputText" := OrEmpty(inputTextRaw)]
    {
      eleTextbox.text := Some(OrEmpty(inputTextRaw));
    }

    /** `getOutputs`: the bound `InputText` output carries the textarea's value. */
    function GetOutputs(): (outputs: map<string, string>)
      reads this, eleMainContainer, eleTextbox, eleOutputLabel
      requires Valid()
      ensures outputs.Keys == {"InputText"} && outputs["InputText"] == Value()
    {
      map["InputText" := eleTextbox.text.value]
    }

    /** The change listener: recompute the label. */
    method OnChange()
      requires Valid()
      modifies eleOutputLabel, this`notifications
      ensures Valid()
      ensures Value() == old(Value())
      ensures Label() == LabelText(Value())
      ensures notifications == old(notifications) + 1
    {
      CalculateNumberOfCharacters();
    }

    /**
     * Write the counts into the label in two steps, choosing the singular form
     * by parsing the count back from its numeral, then notify the host once.
     */
    method CalculateNumberOfCharacters()
      requires Valid()
      modifies eleOutputLabel, this`notifications
      ensures Valid()
      ensures Value() == old(Value())
      ensures Label() == LabelText(Value())
      ensures notifications == old(notifications) + 1
    {
      var value := eleTextbox.text.value;
      var charCount := NatToString(|value|);
      var wordCount := NatToString(|Split(value, ' ')|);
      ParseNatToString(|value|);
      ParseNatToString(|Split(value, ' ')|);
      eleOutputLabel.text := Some(charCount + (if ParseDecimal(charCount) <= 1 then " character " else " characters"));
      eleOutputLabel.text := Some(eleOutputLabel.text.value + ", " + wordCount +
        (if ParseDecimal(wordCount) <= 1 then " word " else " words"));
      notifications := notifications + 1;
    }
  }
}
