/** The persona the assistant plays: its system prompt and the resume text it is built from. */
module Persona {
  import opened Wrappers
  import opened Text
  import Tools

  /** The behaviour rules after the last mention of the name; they point the model at both tools. */
  const GuidanceLead: string :=
    "Be professional and engaging, as if talking to a potential client or future employer who came across the website. "
    + "If you don't know the answer to any question, use your "
  const GuidanceMiddle: string :=
    " tool to record the question that you couldn't answer, even if it's about something trivial or unrelated to career. "
    + "If the user is engaging in discussion, try to steer them towards getting in touch via email; "
    + "ask for their email and record it using your "
  const GuidanceTail: string := " tool. "

  function Guidance(): string
  {
    GuidanceLead + Tools.UnknownQuestionTool + GuidanceMiddle + Tools.UserDetailsTool + GuidanceTail
  }

  const Opening: string := "You are acting as "

  /** The part of the instruction block that introduces the persona by name. */
  function Introduction(name: string): string
  {
    Opening + name + IntroductionRest(name)
  }

  function IntroductionRest(name: string): string
  {
    ". You are answering questions on " + name
    + "'s website, particularly questions related to " + name
    + "'s career, background, skills and experience. Your responsibility is to represent " + name
    + " for interactions on the website as faithfully as possible. You are given a experence of " + name
    + "'s background and Resume profile which you can use to answer questions. "
  }

  /** The instruction block that opens the system prompt. */
  function Instructions(name: string): string
  {
    Introduction(name) + Guidance()
  }

  const ExperienceHeading: string := "\n\n## Experence:\n"
  const ResumeHeading: string := "\n\n## Resume Profile:\n"
  const BlankLine: string := "\n\n"

  /** The sentence that closes the system prompt. */
  function InCharacter(name: string): string
  {
    "With this context, please chat with the user, always staying in character as " + name + "."
  }

  /** `Me.system_prompt`: the instruction block, then the experience and the resume, each under its heading. */
  function SystemPrompt(name: string, experience: string, resume: string): string
  {
    var prompt := Instructions(name);
    var prompt := prompt + ExperienceHeading + experience + ResumeHeading + resume + BlankLine;
    prompt + InCharacter(name)
  }

  /** Where each piece of a seven-part concatenation sits. */
  lemma SevenPieces(p0: string, p1: string, p2: string, p3: string, p4: string, p5: string, p6: string)
    ensures var p := p0 + p1 + p2 + p3 + p4 + p5 + p6;
      var e1 := |p0| + |p1|;
      var e3 := e1 + |p2| + |p3|;
      var e5 := e3 + |p4| + |p5|;
      && |p| == e5 + |p6|
      && p[..|p0|] == p0 && p[|p0|..e1] == p1
      && p[e1..e1 + |p2|] == p2 && p[e1 + |p2|..e3] == p3
      && p[e3..e3 + |p4|] == p4 && p[e3 + |p4|..e5] == p5
      && p[e5..] == p6
  {
    var p := p0 + p1 + p2 + p3 + p4 + p5 + p6;
    assert p[..|p0|] == p0;
  }

  /**
   * The system prompt reads, in order: the instruction block, the experience
   * heading, the experience verbatim, the resume heading, the resume
   * verbatim, a blank line and the in-character sentence.
   */
  lemma SystemPromptLayout(name: string, experience: string, resume: string)
    ensures var p := SystemPrompt(name, experience, resume);
      var e := |Instructions(name)| + |ExperienceHeading|;
      var r := e + |experience| + |ResumeHeading|;
      && |p| == r + |resume| + |BlankLine| + |InCharacter(name)|
      && p[..|Instructions(name)|] == Instructions(name)
      && p[|Instructions(name)|..e] == ExperienceHeading
      && p[e..e + |experience|] == experience
      && p[e + |experience|..r] == ResumeHeading
      && p[r..r + |resume|] == resume
      && p[r + |resume|..r + |resume| + |BlankLine|] == BlankLine
      && p[r + |resume| + |BlankLine|..] == InCharacter(name)
  {
    SevenPieces(Instructions(name), ExperienceHeading, experience, ResumeHeading, resume, BlankLine, InCharacter(name));
  }

  /** The guidance names both registered tools. */
  lemma GuidanceNamesTheTools()
    ensures Contains(Guidance(), Tools.UnknownQuestionTool) && Contains(Guidance(), Tools.UserDetailsTool)
  {
    var lead, middle, tail := GuidanceLead, GuidanceMiddle, GuidanceTail;
    var x, y := Tools.UnknownQuestionTool, Tools.UserDetailsTool;
    OccursAfter(lead, x);
    OccursBefore(lead + x, x, |lead|, middle);
    OccursBefore(lead + x + middle, x, |lead|, y);
    OccursBefore(lead + x + middle + y, x, |lead|, tail);
    assert OccursAt(Guidance(), x, |lead|);
    OccursAfter(lead + x + middle, y);
    OccursBefore(lead + x + middle + y, y, |lead + x + middle|, tail);
    assert OccursAt(Guidance(), y, |lead + x + middle|);
  }

  /** The instructions point the model at both registered tools. */
  lemma InstructionsNameTheTools(name: string)
    ensures forall t :: t in Tools.Registry ==> Contains(Instructions(name), t)
  {
    GuidanceNamesTheTools();
    ContainsWithin(Introduction(name), Guidance(), [], Tools.UnknownQuestionTool);
    ContainsWithin(Introduction(name), Guidance(), [], Tools.UserDetailsTool);
    assert Introduction(name) + Guidance() + [] == Instructions(name);
    assert Tools.Registry.Keys == {Tools.UserDetailsTool, Tools.UnknownQuestionTool};
  }

  /** The instructions open by naming the persona. */
  lemma InstructionsNameThePersona(name: string)
    ensures Contains(Instructions(name), name)
  {
    var intro := Introduction(name);
    OccursBetween(Opening, name, IntroductionRest(name));
    assert OccursAt(intro, name, |Opening|);
    OccursBefore(intro, name, |Opening|, Guidance());
    assert OccursAt(Instructions(name), name, |Opening|);
  }

  /** The text a page contributes: its extracted text, or nothing when extraction gave none. */
  function PageText(page: Option<string>): string
  {
    if page.Some? then page.value else ""
  }

  /** The resume: the pages' texts joined in page order. */
  function JoinPages(pages: seq<Option<string>>): string
  {
    if pages == [] then "" else JoinPages(pages[..|pages| - 1]) + PageText(pages[|pages| - 1])
  }

  /** Joining distributes over splitting the document. */
  lemma {:induction false} JoinPagesAppend(a: seq<Option<string>>, b: seq<Option<string>>)
    ensures JoinPages(a + b) == JoinPages(a) + JoinPages(b)
    decreases |b|
  {
    if b == [] {
      assert a + b == a;
    } else {
      var b' := b[..|b| - 1];
      assert (a + b)[..|a + b| - 1] == a + b';
      JoinPagesAppend(a, b');
    }
  }

  /** Page i's text appears verbatim in the resume, right after the text of the pages before it. */
  lemma PageInResume(pages: seq<Option<string>>, i: nat)
    requires i < |pages|
    ensures var before := |JoinPages(pages[..i])|;
      && before + |PageText(pages[i])| <= |JoinPages(pages)|
      && JoinPages(pages)[before..before + |PageText(pages[i])|] == PageText(pages[i])
  {
    assert pages == pages[..i] + [pages[i]] + pages[i + 1..];
    JoinPagesAppend(pages[..i] + [pages[i]], pages[i + 1..]);
    JoinPagesAppend(pages[..i], [pages[i]]);
    assert JoinPages([pages[i]]) == PageText(pages[i]);
  }

  /** Builds the resume from the pages' extracted texts, skipping pages that gave no text. */
  method AssembleResume(pages: seq<Option<string>>) returns (resume: string)
    ensures resume == JoinPages(pages)
  {
    resume := "";
    for i := 0 to |pages|
      invariant resume == JoinPages(pages[..i])
    {
      assert pages[..i + 1][..i] == pages[..i];
      var text := pages[i];
      if text.Some? && text.value != "" {
        resume := resume + text.value;
      }
    }
    assert pages[..|pages|] == pages;
  }
}
