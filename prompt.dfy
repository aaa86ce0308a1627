/**
  The prompt sent to the language model: a fixed persona line, then the
  application documentation, the conversation history (or a placeholder
  when there is none) and the user's question, each under its own heading,
  then a fixed block of answering instructions.
 */
module Prompt {
  import opened PyValues
  import opened History

  /** The persona line that opens every prompt. */
  const Persona: string :=
    "\n\U{1F4D8} You are a helpful and professional in-app assistant for a mobile or web application. "
    + "Your task is to answer users' questions **only** using the official application documentation below."

  const DocumentationTitle: string := "\U{1F4DA} Application Documentation"
  const HistoryTitle: string := "\U{1F9E0} Conversation History"
  const QuestionTitle: string := "\U{2753} User's Current Question"
  const InstructionsTitle: string := "\U{2705} Instructions"

  /** Stands in for the history when the formatted history is empty. */
  const NoHistoryPlaceholder: string := "No prior conversation."

  /** The sentence the model is told to answer with, verbatim, when the
      documentation does not hold the answer. */
  const FallbackReply: string := "\U{1F60A} \"I can't help with that, but our support team can! \U{1F4AC}"

  const PolicyHead: string :=
    "-**Answer in the same language the user used** (English or French).\n"
    + "- Answer using only the information in the documentation.\n"
    + "- Never mention the documentation or say \"based on the docs\"\n"
    + "- Never reveal you're an AI or bot\n"
    + "- Use a friendly, clear, and helpful tone, like a knowledgeable support agent.\n"
    + "- Avoid technical jargon unless it's present in the documentation.\n"
    + "- If the documentation contains a direct or inferred answer, respond concisely and professionally.\n"
    + "- If the answer is NOT in the documentation, respond exactly with:\n"
    + "\n"

  const PolicyTail: string :=
    "\n"
    + "- Do NOT guess, speculate, or invent information.\n"
    + "- Do NOT mention the documentation unless explicitly asked.\n"
    + "- Do NOT reveal you are an AI or language model; respond as a helpful assistant.\n"
    + "- Keep responses focused, informative, and approachable.\n"

  /** The instruction block that closes every prompt. */
  const Policy: string := PolicyHead + "    " + FallbackReply + "\n" + PolicyTail

  /** A heading preceded by a horizontal rule. */
  function Heading(title: string): string
  {
    "\n\n---\n\n### " + title + ":\n"
  }

  /** What the history section shows: the history, or the placeholder when
      the history is empty. */
  function HistoryBlock(history: string): string
  {
    if history == "" then NoHistoryPlaceholder else history
  }

  /** The text before the documentation, the same for every prompt. */
  function Opening(): string
  {
    Persona + Heading(DocumentationTitle)
  }

  /** The text after the question, the same for every prompt. */
  function Closing(): string
  {
    Heading(InstructionsTitle) + Policy
  }

  /** The prompt for `documentation`, the formatted `history` and the
      stripped `question`. */
  function BuildPrompt(documentation: string, history: string, question: string): string
  {
    Opening() + documentation + Heading(HistoryTitle) + HistoryBlock(history)
    + Heading(QuestionTitle) + question + Closing()
  }

  // ---------------------------------------------------------------------
  // Properties of the prompt.

  /** `parts` occur in `text` one after the other, in this order, without
      overlapping. */
  ghost predicate InOrder(text: string, parts: seq<string>)
    decreases |parts|
  {
    parts == [] ||
    exists i, j | 0 <= i <= j <= |text| :: text[i..j] == parts[0] && InOrder(text[j..], parts[1..])
  }

  /** `part` occurs somewhere in `text`. */
  ghost predicate Occurs(part: string, text: string)
  {
    exists i, j | 0 <= i <= j <= |text| :: text[i..j] == part
  }

  /** Every prompt opens with the persona and the documentation heading and
      closes with the instructions, which quote the fallback reply. */
  lemma PromptIsFramed(documentation: string, history: string, question: string)
    ensures var p := BuildPrompt(documentation, history, question);
            |p| >= |Opening()| + |Closing()|
            && p[..|Opening()|] == Opening()
            && p[|p| - |Closing()|..] == Closing()
            && Occurs(FallbackReply, p)
  {
    OccursInside(Heading(InstructionsTitle), PolicyHead + "    ", FallbackReply, "\n", PolicyTail);
    Layout(Opening(), documentation, Heading(HistoryTitle), HistoryBlock(history),
           Heading(QuestionTitle), question, Closing());
  }

  lemma OccursInside(h: string, before: string, part: string, nl: string, after: string)
    ensures Occurs(part, h + (before + part + nl + after))
  {
    var text := h + (before + part + nl + after);
    var i := |h| + |before|;
    assert text[i..i + |part|] == part;
  }

  /** Where each piece of `a + x + b + y + c + z + e` sits. */
  lemma Layout(a: string, x: string, b: string, y: string, c: string, z: string, e: string)
    ensures var t := a + x + b + y + c + z + e;
            |t| >= |a| + |e|
            && t[..|a|] == a
            && t[|t| - |e|..] == e
            && (forall part | Occurs(part, e) :: Occurs(part, t))
            && InOrder(t, [x, y, z])
  {
    var t := a + x + b + y + c + z + e;
    var i1 := |a|;
    var j1 := i1 + |x|;
    var i2 := j1 + |b|;
    var j2 := i2 + |y|;
    var i3 := j2 + |c|;
    var j3 := i3 + |z|;
    assert t[..|a|] == a;
    assert t[|t| - |e|..] == e;
    forall part | Occurs(part, e)
      ensures Occurs(part, t)
    {
      var i, j :| 0 <= i <= j <= |e| && e[i..j] == part;
      assert t[j3 + i..j3 + j] == part;
    }
    var t1 := t[j1..];
    var t2 := t1[j2 - j1..];
    var t3 := t2[j3 - j2..];
    assert t[i1..j1] == x;
    assert t1 == b + y + c + z + e;
    assert t1[i2 - j1..j2 - j1] == y;
    assert t2 == c + z + e;
    assert t2[i3 - j2..j3 - j2] == z;
    assert InOrder(t3, []);
    assert InOrder(t2, [z]);
    assert InOrder(t1, [y, z]);
  }

  /** The documentation, the history section and the question appear in
      the prompt in this order. */
  lemma PromptKeepsOrder(documentation: string, history: string, question: string)
    ensures InOrder(BuildPrompt(documentation, history, question),
                    [documentation, HistoryBlock(history), question])
  {
    Layout(Opening(), documentation, Heading(HistoryTitle), HistoryBlock(history),
           Heading(QuestionTitle), question, Closing());
  }

  /** Cancelling a common prefix and suffix. */
  lemma {:induction false} Cancel(pre: string, x: string, y: string, post: string)
    requires pre + x + post == pre + y + post
    ensures x == y
  {
    var s := pre + x + post;
    assert |x| == |y|;
    assert x == s[|pre|..|pre| + |x|];
    assert y == (pre + y + post)[|pre|..|pre| + |y|];
  }

  /** Different documentation gives a different prompt. */
  lemma PromptDeterminesDocumentation(d1: string, d2: string, history: string, question: string)
    requires BuildPrompt(d1, history, question) == BuildPrompt(d2, history, question)
    ensures d1 == d2
  {
    var rest := Heading(HistoryTitle) + HistoryBlock(history) + Heading(QuestionTitle) + question + Closing();
    assert BuildPrompt(d1, history, question) == Opening() + d1 + rest;
    assert BuildPrompt(d2, history, question) == Opening() + d2 + rest;
    Cancel(Opening(), d1, d2, rest);
  }

  /** Different questions give different prompts. */
  lemma PromptDeterminesQuestion(documentation: string, history: string, q1: string, q2: string)
    requires BuildPrompt(documentation, history, q1) == BuildPrompt(documentation, history, q2)
    ensures q1 == q2
  {
    var front := Opening() + documentation + Heading(HistoryTitle) + HistoryBlock(history) + Heading(QuestionTitle);
    assert BuildPrompt(documentation, history, q1) == front + q1 + Closing();
    assert BuildPrompt(documentation, history, q2) == front + q2 + Closing();
    Cancel(front, q1, q2, Closing());
  }

  /** Two histories give the same prompt exactly when they show the same
      history section. */
  lemma PromptDeterminesHistorySection(documentation: string, h1: string, h2: string, question: string)
    ensures BuildPrompt(documentation, h1, question) == BuildPrompt(documentation, h2, question)
            <==> HistoryBlock(h1) == HistoryBlock(h2)
  {
    MiddleDetermined(Opening(), documentation, Heading(HistoryTitle), HistoryBlock(h1), HistoryBlock(h2),
                     Heading(QuestionTitle), question, Closing());
  }

  lemma MiddleDetermined(a: string, x: string, b: string, y1: string, y2: string, c: string, z: string, e: string)
    ensures a + x + b + y1 + c + z + e == a + x + b + y2 + c + z + e <==> y1 == y2
  {
    if a + x + b + y1 + c + z + e == a + x + b + y2 + c + z + e {
      assert a + x + b + y1 + c + z + e == (a + x + b) + y1 + (c + z + e);
      assert a + x + b + y2 + c + z + e == (a + x + b) + y2 + (c + z + e);
      Cancel(a + x + b, y1, y2, c + z + e);
    }
  }

  /** The sections are told apart only by their headings: text holding
      the history heading can move between the documentation and a
      non-empty history without changing the prompt.  So the prompt fixes
      each section only once the other two are known. */
  lemma HistoryHeadingShiftsSections(documentation: string, m: string, y: string, question: string)
    requires m != "" && y != ""
    ensures BuildPrompt(documentation, m + Heading(HistoryTitle) + y, question)
            == BuildPrompt(documentation + Heading(HistoryTitle) + m, y, question)
  {
    var h := Heading(HistoryTitle);
    assert |m + h + y| > 0;
    Regroup(Opening(), documentation, h, m, y, Heading(QuestionTitle), question, Closing());
  }

  lemma Regroup(a: string, x: string, b: string, m: string, y: string, c: string, z: string, e: string)
    ensures a + x + b + (m + b + y) + c + z + e == a + (x + b + m) + b + y + c + z + e
  {
    assert x + b + (m + b + y) == (x + b + m) + b + y;
  }

  /** For a formatted history, the placeholder is shown exactly when no
      record was recognised (or the history was not a list); otherwise the
      history section is the formatted history itself. */
  lemma PlaceholderIffNoRecognisedTurn(history: Json)
    requires FormatHistory(history).Ok?
    ensures var text := FormatHistory(history).value;
            (HistoryBlock(text) == NoHistoryPlaceholder <==>
               !history.JArr? || forall p | 0 <= p < |history.items| :: !Recognised(history.items[p]))
            && (HistoryBlock(text) != NoHistoryPlaceholder ==> HistoryBlock(text) == text)
  {
    var text := FormatHistory(history).value;
    if history.JArr? {
      var items := history.items;
      FormattedEmptyIffNoneRecognised(items);
      if text != "" {
        var lines := Lines(items).value;
        LinesArePrefixed(items);
        JoinStartsWithFirst(lines, "\n");
        assert HasRolePrefix(lines[0]);
        assert text[0] == lines[0][0];
        assert NoHistoryPlaceholder[0] == 'N';
      }
    }
  }
}
