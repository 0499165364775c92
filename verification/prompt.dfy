/** Assembly of the text sent to the generation service: template, optional context, language
    instruction, staged diff. */
module Prompt {
  import opened Text

  /** Separator put between the template and a non-blank context. */
  const ContextHeader := "\n\nUse the following context to understand intent:\n"

  /** Closing instruction when the language selector holds "es". */
  const SpanishInstruction := "\n\nAhora, genera el mensaje de commit correcto basado en esta información. En español, ten en cuenta una buena ortografía y usa acentos donde sea necesario.\nAquí está el Git diff:\n"

  /** Closing instruction for every other language value. */
  const EnglishInstruction := "\n\nNow, generate the correct commit message based on this information. In English language.\nHere is the Git diff:\n"

  /** What running `git diff --cached` gave: its standard output, or a failure of any kind. */
  datatype DiffSource = Staged(text: string) | Failed

  /** The diff text used in the prompt: the command's output, or "" when the command failed. */
  function GitDiff(src: DiffSource): (r: string)
    ensures src.Failed? ==> r == ""
    ensures src.Staged? ==> r == src.text
  {
    match src
    case Staged(text) => text
    case Failed => ""
  }

  /** The context part of the prompt: nothing for a blank context, else the header and the
      context exactly as typed (not stripped). */
  function ContextBlock(context: string): (r: string)
    ensures IsBlank(context) ==> r == ""
    ensures !IsBlank(context) ==> r == ContextHeader + context
  {
    if Strip(context) != "" then ContextHeader + context else ""
  }

  function LanguageInstruction(lang: string): string {
    if lang == "es" then SpanishInstruction else EnglishInstruction
  }

  /** The prompt built from the template field, the context field, the language selector value
      and the diff text. */
  function BuildPrompt(template: string, context: string, lang: string, diff: string): (r: string)
    ensures |template| + |diff| <= |r|
    ensures r[..|template|] == template && r[|r| - |diff|..] == diff
    ensures IsBlank(context) ==> r == template + LanguageInstruction(lang) + diff
    ensures !IsBlank(context) ==> r == template + (ContextHeader + context) + LanguageInstruction(lang) + diff
  {
    Pieces(template, ContextBlock(context), LanguageInstruction(lang), diff);
    template + ContextBlock(context) + LanguageInstruction(lang) + diff
  }

  /** Where each of four concatenated pieces sits in the whole. */
  lemma Pieces(a: string, b: string, c: string, d: string)
    ensures var r := a + b + c + d;
      |r| == |a| + |b| + |c| + |d| &&
      r[..|a|] == a && r[..|a| + |b|] == a + b && r[|a| + |b|..|r| - |d|] == c && r[|r| - |d|..] == d &&
      (b == [] ==> r == a + c + d)
  {
    var r := a + b + c + d;
    assert r == (a + b) + (c + d);
    assert r[..|a| + |b|] == a + b;
    assert (a + b)[..|a|] == a;
    assert r[|a| + |b|..] == c + d;
    assert (c + d)[..|c|] == c;
  }

  /** Two prompts that differ only in the language value share everything but the instruction:
      the same template-and-context prefix and the same diff suffix. */
  lemma LanguageChangesOnlyInstruction(template: string, context: string, lang1: string, lang2: string, diff: string)
    ensures var p1 := BuildPrompt(template, context, lang1, diff);
      var p2 := BuildPrompt(template, context, lang2, diff);
      var n := |template| + |ContextBlock(context)|;
      n + |diff| <= |p1| && n + |diff| <= |p2| &&
      p1[..n] == p2[..n] == template + ContextBlock(context) &&
      p1[n..|p1| - |diff|] == LanguageInstruction(lang1) &&
      p2[n..|p2| - |diff|] == LanguageInstruction(lang2) &&
      p1[|p1| - |diff|..] == p2[|p2| - |diff|..] == diff
  {
    Pieces(template, ContextBlock(context), LanguageInstruction(lang1), diff);
    Pieces(template, ContextBlock(context), LanguageInstruction(lang2), diff);
  }

  /** "es" and any other value give different prompts for the same template, context and diff. */
  lemma SpanishDiffersFromOther(template: string, context: string, lang: string, diff: string)
    requires lang != "es"
    ensures BuildPrompt(template, context, "es", diff) != BuildPrompt(template, context, lang, diff)
  {
    Pieces(template, ContextBlock(context), SpanishInstruction, diff);
    Pieces(template, ContextBlock(context), EnglishInstruction, diff);
    assert |SpanishInstruction| != |EnglishInstruction|;
  }

  /** A blank context adds nothing: with diff "+foo" and language "en" the prompt is the template,
      then the English instruction, then "+foo". */
  lemma EnglishPromptEndsWithDiff(template: string, context: string)
    requires IsBlank(context)
    ensures BuildPrompt(template, context, "en", "+foo") == template + EnglishInstruction + "+foo"
  {
    assert "en" != "es" by { assert "en"[1] != "es"[1]; }
    assert LanguageInstruction("en") == EnglishInstruction;
  }
}
