/**
  The prompt the background sends with a generation request: fixed texts
  around the page URL, the change summary and the page's template, and what
  that layout guarantees about where each part ends up.
 */
module Prompt {
  import opened JsText
  const PromptOpening: string :=
    "Please generate a pull request description based on the "
    + "following information:\n\n**URL:** "

  const CodeChangesHeading: string :=
    "\n\n**Code Changes:**\n"

  const AfterDiff: string :=
    "\n\n"

  const TemplateHeading: string :=
    "**PR Template to fill out:**\n"

  const TemplateInstructions: string :=
    "\n\nPlease fill out the above template based on the code "
    + "changes. If the template has sections like \"Description\", "
    + "\"Changes\", \"Testing\", etc., please provide appropriate "
    + "content for each section."

  const DefaultInstructions: string :=
    "**Instructions:**\nSince no PR template was provided, please "
    + "create a well-structured PR description with the following "
    + "sections:\n- **Description:** Brief overview of what this "
    + "PR does\n- **Changes:** List of key changes made\n- **Testing:** "
    + "How these changes should be tested (if applicable)\n\nKeep "
    + "the description professional and concise."

  const ImportantBlock: string :=
    "\n\n**Important:** \n- Only return the filled-out template "
    + "or structured description, not any meta-commentary\n- If "
    + "there are checkboxes in the template (like \"- [ ] Tests "
    + "added\"), check them off or say in the description why they "
    + "were not applicable. You should air on the side of checking "
    + "them off. \n- Be specific about the changes based on the "
    + "diff provided\n- If the diff shows test files, mention testing "
    + "in your response"

  const SystemPrompt: string :=
    "You are a helpful assistant that generates professional "
    + "pull request descriptions based on code changes. You should "
    + "analyze the provided diff and fill out the PR template "
    + "appropriately. Be concise but thorough."

  /** The fixed texts the prompt is assembled from, in order of appearance. */
  datatype PromptTexts = PromptTexts(
    opening: string, codeChanges: string, afterDiff: string,
    templateHeading: string, templateInstructions: string, defaultInstructions: string,
    important: string)

  const Texts := PromptTexts(PromptOpening, CodeChangesHeading, AfterDiff,
                             TemplateHeading, TemplateInstructions, DefaultInstructions, ImportantBlock)

  /** The prompt layout for any choice of fixed texts and of the part after the diff. */
  function Layout(x: PromptTexts, diff: string, section: string, url: string): string {
    x.opening + url + x.codeChanges + diff + x.afterDiff + section + x.important
  }

  /** The part after the diff: the template with its heading and fill-in
      instructions when the template is not blank, else the default instructions. */
  function Section(x: PromptTexts, template: string): string {
    if Trim(template) != "" then x.templateHeading + template + x.templateInstructions else x.defaultInstructions
  }

  /** The user prompt: the URL and the diff, then either the template (when it
      is not blank) with instructions to fill it, or default section
      instructions, then the closing "Important" block. */
  function BuildPrompt(diff: string, template: string, url: string): (r: string)
    ensures StartsWith(r, Texts.opening)
    ensures OccursAt(r, url, |Texts.opening|)
    ensures OccursAt(r, diff, |Texts.opening| + |url| + |Texts.codeChanges|)
    ensures OccursAt(r, Section(Texts, template), TemplateStart(Texts, diff, url))
  {
    LayoutParts(Texts, diff, Section(Texts, template), url);
    Layout(Texts, diff, Section(Texts, template), url)
  }

  /** Where the part after the diff starts: the template heading or the default instructions. */
  function TemplateStart(x: PromptTexts, diff: string, url: string): nat {
    |x.opening| + |url| + |x.codeChanges| + |diff| + |x.afterDiff|
  }

  /** The middle of `a + b + c` is `b`. */
  lemma InfixAt(a: string, b: string, c: string)
    ensures OccursAt(a + b + c, b, |a|)
  {
    assert (a + b + c)[|a|..|a| + |b|] == b;
  }

  /** An occurrence inside `b` is an occurrence inside `a + b + c`, shifted by `|a|`. */
  lemma OccursWithin(a: string, b: string, c: string, sub: string, i: int)
    requires OccursAt(b, sub, i)
    ensures OccursAt(a + b + c, sub, |a| + i)
  {
    assert (a + b + c)[|a| + i..|a| + i + |sub|] == b[i..i + |sub|];
  }

  /** An occurrence inside an occurrence is an occurrence, at the summed offset. */
  lemma OccursNested(s: string, outer: string, k: int, sub: string, i: int)
    requires OccursAt(s, outer, k) && OccursAt(outer, sub, i)
    ensures OccursAt(s, sub, k + i)
  {
    forall j | 0 <= j < |sub|
      ensures s[k + i + j] == sub[j]
    {
      assert s[k..k + |outer|][i + j] == s[k + i + j];
      assert outer[i..i + |sub|][j] == outer[i + j];
    }
    assert s[k + i..k + i + |sub|] == sub;
  }

  /** Each of three concatenated parts occurs where it was put. */
  lemma ThreeParts(a: string, b: string, c: string)
    ensures OccursAt(a + b + c, a, 0)
    ensures OccursAt(a + b + c, b, |a|)
    ensures OccursAt(a + b + c, c, |a| + |b|)
  {
    assert (a + b + c)[..|a|] == a;
    InfixAt(a, b, c);
    assert (a + b + c)[|a| + |b|..] == c;
  }

  lemma LayoutParts(x: PromptTexts, diff: string, section: string, url: string)
    ensures StartsWith(Layout(x, diff, section, url), x.opening)
    ensures OccursAt(Layout(x, diff, section, url), url, |x.opening|)
    ensures OccursAt(Layout(x, diff, section, url), diff, |x.opening| + |url| + |x.codeChanges|)
    ensures OccursAt(Layout(x, diff, section, url), section, TemplateStart(x, diff, url))
  {
    var tail := x.afterDiff + section + x.important;
    var rest := x.codeChanges + diff + tail;
    InfixAt([], x.opening, url + rest);
    InfixAt(x.opening, url, rest);
    InfixAt(x.opening + url + x.codeChanges, diff, tail);
    InfixAt(x.opening + url + x.codeChanges + diff + x.afterDiff, section, x.important);
  }

  /** Every prompt ends with the closing "Important" block. */
  lemma PromptEndsWithImportant(diff: string, template: string, url: string)
    ensures var p := BuildPrompt(diff, template, url);
      |Texts.important| <= |p| && p[|p| - |Texts.important|..] == Texts.important
  {
  }

  /** The pieces of a template section sit at fixed offsets in the layout. */
  lemma LayoutIncludesTemplate(x: PromptTexts, diff: string, template: string, url: string)
    ensures var p, k := Layout(x, diff, x.templateHeading + template + x.templateInstructions, url), TemplateStart(x, diff, url);
      && OccursAt(p, x.templateHeading, k)
      && OccursAt(p, template, k + |x.templateHeading|)
      && OccursAt(p, x.templateInstructions, k + |x.templateHeading| + |template|)
  {
    var section := x.templateHeading + template + x.templateInstructions;
    var p := Layout(x, diff, section, url);
    var k := TemplateStart(x, diff, url);
    LayoutParts(x, diff, section, url);
    ThreeParts(x.templateHeading, template, x.templateInstructions);
    OccursNested(p, section, k, x.templateHeading, 0);
    OccursNested(p, section, k, template, |x.templateHeading|);
    OccursNested(p, section, k, x.templateInstructions, |x.templateHeading| + |template|);
  }

  /** A template that is not blank appears verbatim after its heading, followed by the fill-in instructions. */
  lemma TemplateIncludedVerbatim(diff: string, template: string, url: string)
    requires Trim(template) != ""
    ensures OccursAt(BuildPrompt(diff, template, url), Texts.templateHeading, TemplateStart(Texts, diff, url))
    ensures OccursAt(BuildPrompt(diff, template, url), template, TemplateStart(Texts, diff, url) + |Texts.templateHeading|)
    ensures OccursAt(BuildPrompt(diff, template, url), Texts.templateInstructions,
                     TemplateStart(Texts, diff, url) + |Texts.templateHeading| + |template|)
  {
    LayoutIncludesTemplate(Texts, diff, template, url);
  }

  /** A blank template (empty or all whitespace) is treated as no template:
      the prompt asks for the default sections instead. */
  lemma BlankTemplateIgnored(diff: string, template: string, url: string)
    requires AllWhitespace(template)
    ensures BuildPrompt(diff, template, url) == BuildPrompt(diff, "", url)
    ensures OccursAt(BuildPrompt(diff, template, url), Texts.defaultInstructions, TemplateStart(Texts, diff, url))
  {
    TrimEmptyIff(template);
    TrimEmptyIff("");
    LayoutParts(Texts, diff, Section(Texts, template), url);
  }
}
