/** Messages a user writes, when two of them are glued together, and when one reads as a slash command. */
module Prompts {
  import opened Wrappers
  import opened Text

  datatype SkillRef = SkillRef(name: string, path: string)

  datatype Prompt = Prompt(text: string, attachments: seq<string>, skills: seq<SkillRef>) {
    predicate IsEmpty() {
      IsBlank(text) && attachments == []
    }

    /** The prompt `send_message` works on. */
    function Trimmed(): Prompt {
      this.(text := Trim(text))
    }

    function Merge(other: Prompt): Prompt {
      Prompt(MergeText(text, other.text), attachments + other.attachments, skills + other.skills)
    }
  }

  function MergeText(text: string, other: string): string {
    if IsBlank(other) then text
    else if IsBlank(text) then text + other
    else text + "\n\n" + other
  }

  /** The four characters a command may be indented by. */
  predicate IsIndent(c: char) {
    c == ' ' || c == '\t' || c == '\r' || c == '\n'
  }

  function IndentLength(text: string): nat {
    if text != [] && IsIndent(text[0]) then 1 + IndentLength(text[1..]) else 0
  }

  /** What follows the last line break, or all of it. */
  function LastLine(indent: string): string {
    if indent == [] || indent[|indent| - 1] == '\n' || indent[|indent| - 1] == '\r' then []
    else LastLine(indent[..|indent| - 1]) + [indent[|indent| - 1]]
  }

  function WordLength(text: string): nat
    ensures WordLength(text) <= |text|
  {
    if text != [] && !IsWhitespace(text[0]) then 1 + WordLength(text[1..]) else 0
  }

  /** The command name and its arguments, for a text the agent would run as a slash command. */
  function LeadingCommand(text: string): Option<(string, string)>
  {
    IndentFacts(text);
    var n := IndentLength(text);
    var indent := LastLine(text[..n]);
    if '\t' in indent || |indent| >= 4 then None
    else if n == |text| || text[n] != '/' then None
    else
      var rest := text[n + 1..];
      var word := WordLength(rest);
      if word == 0 then None
      else Some((rest[..word], if word == |rest| then [] else Trim(rest[word + 1..])))
  }

  predicate IsCommand(text: string) {
    LeadingCommand(text).Some?
  }

  lemma {:induction false} IndentFacts(text: string)
    ensures IndentLength(text) <= |text|
    ensures forall i | 0 <= i < IndentLength(text) :: IsIndent(text[i])
    ensures IndentLength(text) < |text| ==> !IsIndent(text[IndentLength(text)])
  {
    if text != [] && IsIndent(text[0]) {
      IndentFacts(text[1..]);
    }
  }

  lemma IndentIs(text: string, n: nat)
    requires n <= |text|
    requires forall i | 0 <= i < n :: IsIndent(text[i])
    requires n < |text| ==> !IsIndent(text[n])
    ensures IndentLength(text) == n
  {
    IndentFacts(text);
  }

  lemma {:induction false} LastLineOfJoin(a: string, b: string)
    ensures |LastLine(a + b)| >= |LastLine(b)|
    ensures forall c | c in LastLine(b) :: c in LastLine(a + b)
  {
    if b == [] {
    } else {
      var last := b[|b| - 1];
      assert (a + b)[..|a + b| - 1] == a + b[..|b| - 1];
      if last != '\n' && last != '\r' {
        LastLineOfJoin(a, b[..|b| - 1]);
      }
    }
  }

  /** A command stays one however the text goes on, provided a word end or the same word follows. */
  lemma CommandIsDecidedByTheStart(text: string, more: string)
    requires !IsBlank(text)
    requires more != [] && IsWhitespace(more[0])
    ensures IsCommand(text + more) <==> IsCommand(text)
  {
    BlankIsAllWhitespace(text);
    IndentFacts(text);
    var n := IndentLength(text);
    assert n < |text|;
    IndentIs(text + more, n);
    assert (text + more)[..n] == text[..n];
    assert (text + more)[n + 1..] == text[n + 1..] + more;
    if n + 1 < |text| {
      assert (text[n + 1..] + more)[0] == text[n + 1];
    } else {
      assert (text[n + 1..] + more)[0] == more[0];
    }
  }

  /** The indent of a text behind a blank one, where the first character that is no indent is no whitespace either. */
  lemma IndentBehindBlank(blank: string, text: string)
    requires AllWhitespace(blank)
    requires IndentLength(blank + text) < |blank + text| && !IsWhitespace((blank + text)[IndentLength(blank + text)])
    ensures IndentLength(blank + text) == |blank| + IndentLength(text)
  {
    var all := blank + text;
    IndentFacts(all);
    var n := IndentLength(all);
    assert forall i | 0 <= i < |blank| :: all[i] == blank[i];
    assert forall i | 0 <= i < n - |blank| :: IsIndent(text[i]) by {
      forall i | 0 <= i < n - |blank| ensures IsIndent(text[i]) {
        assert all[i + |blank|] == text[i];
      }
    }
    IndentIs(text, n - |blank|);
  }

  lemma BlankPrefixAddsNoCommand(blank: string, text: string)
    requires IsBlank(blank) && !IsBlank(text)
    requires IsCommand(blank + text)
    ensures IsCommand(text)
  {
    BlankIsAllWhitespace(blank);
    var all := blank + text;
    IndentFacts(all);
    IndentFacts(text);
    var n, m := IndentLength(all), IndentLength(text);
    IndentBehindBlank(blank, text);
    hide IndentLength, LastLine, WordLength, IsIndent;
    assert all[..n] == blank + text[..m];
    LastLineOfJoin(blank, text[..m]);
    assert all[n + 1..] == text[m + 1..];
  }

  /** Gluing two messages together reads as a command only if one of them did. */
  lemma MergeMakesNoCommand(a: Prompt, b: Prompt)
    ensures IsCommand(a.Merge(b).text) ==> IsCommand(a.text) || IsCommand(b.text)
  {
    if !IsBlank(b.text) {
      if IsBlank(a.text) {
        if IsCommand(a.text + b.text) {
          BlankPrefixAddsNoCommand(a.text, b.text);
        }
      } else {
        var more := "\n\n" + b.text;
        assert a.text + "\n\n" + b.text == a.text + more;
        CommandIsDecidedByTheStart(a.text, more);
      }
    }
  }

  /** The second message would have become the arguments of the first one's command. */
  lemma MergeKeepsTheFirstCommand(a: Prompt, b: Prompt)
    requires !IsBlank(a.text)
    ensures IsCommand(a.Merge(b).text) <==> IsCommand(a.text)
  {
    if !IsBlank(b.text) {
      var more := "\n\n" + b.text;
      assert a.text + "\n\n" + b.text == a.text + more;
      CommandIsDecidedByTheStart(a.text, more);
    }
  }

  /** Several messages glued together in the order they were sent. */
  function MergeAll(parts: seq<Prompt>): Prompt
    requires parts != []
  {
    if |parts| == 1 then parts[0]
    else MergeAll(parts[..|parts| - 1]).Merge(parts[|parts| - 1])
  }

  lemma MergeAllAppends(parts: seq<Prompt>, last: Prompt)
    requires parts != []
    ensures MergeAll(parts + [last]) == MergeAll(parts).Merge(last)
  {
    assert (parts + [last])[..|parts|] == parts;
  }

  // ---------------------------------------------------------------- what gluing spells

  /** The texts of the messages that have one. */
  function Paragraphs(parts: seq<Prompt>): seq<string> {
    if parts == [] then []
    else (if IsBlank(parts[0].text) then [] else [parts[0].text]) + Paragraphs(parts[1..])
  }

  /** The texts with an empty line between any two of them. */
  function Separated(texts: seq<string>): string {
    if texts == [] then ""
    else if |texts| == 1 then texts[0]
    else texts[0] + "\n\n" + Separated(texts[1..])
  }

  function AllAttachments(parts: seq<Prompt>): seq<string> {
    if parts == [] then [] else parts[0].attachments + AllAttachments(parts[1..])
  }

  function AllSkills(parts: seq<Prompt>): seq<SkillRef> {
    if parts == [] then [] else parts[0].skills + AllSkills(parts[1..])
  }

  /** The white space of a first message without text stays in front. */
  function LeadingBlank(parts: seq<Prompt>): string {
    if parts != [] && IsBlank(parts[0].text) then parts[0].text else ""
  }

  /** The prompt consists of all the messages, in order. */
  predicate Spells(prompt: Prompt, parts: seq<Prompt>) {
    && prompt.text == LeadingBlank(parts) + Separated(Paragraphs(parts))
    && prompt.attachments == AllAttachments(parts)
    && prompt.skills == AllSkills(parts)
  }

  lemma {:induction false} PartsAppend(parts: seq<Prompt>, last: Prompt)
    ensures Paragraphs(parts + [last]) == Paragraphs(parts) + (if IsBlank(last.text) then [] else [last.text])
    ensures AllAttachments(parts + [last]) == AllAttachments(parts) + last.attachments
    ensures AllSkills(parts + [last]) == AllSkills(parts) + last.skills
  {
    hide IsBlank;
    if parts == [] {
      assert [last][1..] == [] && [] + [last] == [last];
    } else {
      var first, rest := parts[0], parts[1..];
      assert (parts + [last])[0] == first && (parts + [last])[1..] == rest + [last];
      PartsAppend(rest, last);
      hide Paragraphs, AllAttachments, AllSkills;
      PartsByHead(parts);
      PartsByHead(parts + [last]);
    }
  }

  lemma PartsByHead(parts: seq<Prompt>)
    requires parts != []
    ensures Paragraphs(parts) == (if IsBlank(parts[0].text) then [] else [parts[0].text]) + Paragraphs(parts[1..])
    ensures AllAttachments(parts) == parts[0].attachments + AllAttachments(parts[1..])
    ensures AllSkills(parts) == parts[0].skills + AllSkills(parts[1..])
  {
    hide IsBlank;
  }

  lemma {:induction false} SeparatedAppends(texts: seq<string>, last: string)
    requires texts != []
    ensures Separated(texts + [last]) == Separated(texts) + "\n\n" + last
  {
    assert (texts + [last])[1..] == texts[1..] + [last];
    if |texts| > 1 {
      SeparatedAppends(texts[1..], last);
      var rest := Separated(texts[1..]);
      assert texts[0] + "\n\n" + (rest + "\n\n" + last) == texts[0] + "\n\n" + rest + "\n\n" + last;
    }
  }

  lemma TextIsNotBlank(lead: string, texts: seq<string>)
    requires texts != [] && !IsBlank(texts[0])
    ensures !IsBlank(lead + Separated(texts))
  {
    BlankIsAllWhitespace(texts[0]);
    var i :| 0 <= i < |texts[0]| && !IsWhitespace(texts[0][i]);
    var all := lead + Separated(texts);
    BlankIsAllWhitespace(all);
    assert all[|lead| + i] == texts[0][i];
  }

  lemma {:induction false} ParagraphsAreTexts(parts: seq<Prompt>)
    ensures Paragraphs(parts) != [] ==> !IsBlank(Paragraphs(parts)[0])
  {
    if parts != [] {
      ParagraphsAreTexts(parts[1..]);
    }
  }

  /** One message more, as text. */
  lemma TextSpells(text: string, lead: string, texts: seq<string>, last: string)
    requires text == lead + Separated(texts)
    requires if texts == [] then IsBlank(lead) else !IsBlank(texts[0])
    ensures MergeText(text, last) == lead + Separated(texts + if IsBlank(last) then [] else [last])
  {
    if texts != [] {
      TextIsNotBlank(lead, texts);
      hide IsBlank;
      if IsBlank(last) {
        assert texts + [] == texts;
      } else {
        SeparatedAppends(texts, last);
        var all := Separated(texts);
        assert lead + all + "\n\n" + last == lead + (all + "\n\n" + last);
      }
    } else {
      hide IsBlank;
      assert text == lead && [] + [last] == [last];
    }
  }

  lemma LeadOfNoParagraphs(parts: seq<Prompt>)
    requires parts != [] && Paragraphs(parts) == []
    ensures IsBlank(LeadingBlank(parts))
  {
  }

  /** Merging message by message spells them all: texts as paragraphs, attachments and skills in a row. */
  lemma {:induction false} MergeAllSpells(parts: seq<Prompt>)
    requires parts != []
    ensures Spells(MergeAll(parts), parts)
  {
    if |parts| == 1 {
      assert parts[1..] == [] && Paragraphs([]) == [] && AllAttachments([]) == [] && AllSkills([]) == [];
      assert parts[0].text + "" == parts[0].text;
    } else {
      var init, last := parts[..|parts| - 1], parts[|parts| - 1];
      MergeAllSpells(init);
      assert parts == init + [last];
      PartsAppend(init, last);
      ParagraphsAreTexts(init);
      if Paragraphs(init) == [] {
        LeadOfNoParagraphs(init);
      }
      assert LeadingBlank(parts) == LeadingBlank(init);
      hide IsBlank, Paragraphs, AllAttachments, AllSkills, LeadingBlank, Separated, MergeText;
      TextSpells(MergeAll(init).text, LeadingBlank(init), Paragraphs(init), last.text);
    }
  }
}
