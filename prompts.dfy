/**
 * Prompt neutralisation (`neutralize_prompt`) and the four safe prompt
 * templates built around the neutralised prompt (`get_safe_prompt_template`).
 */
module Prompts {
  import opened Text

  /** The sensitive-term table, in the order Python's dict keeps its entries. */
  const Replacements: seq<(String, String)> := [
    ("Indian", "South Asian"),
    ("traditional Indian", "traditional regional"),
    ("Hindu", "spiritual"),
    ("Muslim", "religious"),
    ("caste", "community"),
    ("tribal", "indigenous")
  ]

  /** The string obtained by applying the entries of `table` in order, each
      to the previous entry's output. */
  function ApplyReplacements(table: seq<(String, String)>, s: String): String
    decreases |table|
  {
    if table == [] then s
    else
      var last := table[|table| - 1];
      ReplaceAll(ApplyReplacements(table[..|table| - 1], s), last.0, last.1)
  }

  /** What `neutralize_prompt` returns for `prompt`. */
  function Neutralized(prompt: String): String {
    Strip(ApplyReplacements(Replacements, prompt))
  }

  /** `neutralize_prompt`: rewrite the prompt entry by entry, then strip it. */
  method NeutralizePrompt(prompt: String) returns (neutral: String)
    ensures neutral == Neutralized(prompt)
    ensures neutral == [] || (!IsSpace(neutral[0]) && !IsSpace(neutral[|neutral| - 1]))
  {
    neutral := prompt;
    for i := 0 to |Replacements|
      invariant neutral == ApplyReplacements(Replacements[..i], prompt)
    {
      assert Replacements[..i + 1][..i] == Replacements[..i];
      var (term, substitute) := Replacements[i];
      neutral := ReplaceAll(neutral, term, substitute);
    }
    assert Replacements[..|Replacements|] == Replacements;
    neutral := Strip(neutral);
  }

  /** Applying `a` and then `b` is applying their concatenation. */
  lemma {:induction false} ApplyReplacementsAppend(a: seq<(String, String)>, b: seq<(String, String)>, s: String)
    ensures ApplyReplacements(a + b, s) == ApplyReplacements(b, ApplyReplacements(a, s))
    decreases |b|
  {
    if b == [] {
      assert a + b == a;
    } else {
      assert (a + b)[..|a + b| - 1] == a + b[..|b| - 1];
      ApplyReplacementsAppend(a, b[..|b| - 1], s);
    }
  }

  /** Once "Indian" has been rewritten to "South Asian" the phrase
      "traditional Indian" no longer occurs, so the second table entry never
      changes anything. */
  lemma PhraseEntryNeverFires(prompt: String)
    ensures ApplyReplacements(Replacements[..2], prompt) == ApplyReplacements(Replacements[..1], prompt)
    ensures !Contains(ApplyReplacements(Replacements[..1], prompt), "Indian")
  {
    var afterFirst := ReplaceAll(prompt, "Indian", "South Asian");
    assert Replacements[..1][..0] == [];
    assert ApplyReplacements(Replacements[..1], prompt) == afterFirst;
    assert "Indian"[0] !in "South Asian";
    assert "South Asian"[0] !in "Indian";
    ReplaceAllEliminates(prompt, "Indian", "South Asian");
    if Contains(afterFirst, "traditional Indian") {
      ContainsInner(afterFirst, "traditional Indian", "Indian", 12);
    }
    ReplaceAllAbsent(afterFirst, "traditional Indian", "traditional regional");
    assert Replacements[..2][..1] == Replacements[..1];
  }

  /** `neutralize_prompt` gives the same result with the phrase entry removed
      from the table. */
  lemma NeutralizedWithoutPhraseEntry(prompt: String)
    ensures Neutralized(prompt) == Strip(ApplyReplacements(Replacements[..1] + Replacements[2..], prompt))
  {
    PhraseEntryNeverFires(prompt);
    ApplyReplacementsAppend(Replacements[..2], Replacements[2..], prompt);
    ApplyReplacementsAppend(Replacements[..1], Replacements[2..], prompt);
    assert Replacements[..2] + Replacements[2..] == Replacements;
  }

  /** The fixed preambles of the four templates, each ending with the blank
      that separates it from the neutralised prompt. */
  const Preambles: seq<String> := [
    "Write an inspiring story about a skilled craftsperson who creates beautiful handmade items. ",
    "Tell a heartwarming tale of an artisan who preserves traditional crafting techniques. ",
    "Create a story about a dedicated artist who finds joy in their creative work. ",
    "Write about a master craftsperson who teaches their skills to others. "
  ]

  /** `get_safe_prompt_template`: four framings of the neutralised prompt. */
  function SafePromptTemplates(userPrompt: String): (templates: seq<String>)
    ensures |templates| == 4
    ensures forall i | 0 <= i < 4 ::
      && |Preambles[i]| <= |templates[i]|
      && templates[i][..|Preambles[i]|] == Preambles[i]
      && templates[i][|Preambles[i]|..] == Neutralized(userPrompt)
  {
    var neutral := Neutralized(userPrompt);
    [Preambles[0] + neutral, Preambles[1] + neutral, Preambles[2] + neutral, Preambles[3] + neutral]
  }

  /** The preambles have four different lengths. */
  lemma PreambleLengths()
    ensures |Preambles[0]| == 92 && |Preambles[1]| == 86
    ensures |Preambles[2]| == 78 && |Preambles[3]| == 70
  {
  }

  lemma PreamblesDiffer(i: nat, j: nat)
    requires i < j < 4
    ensures |Preambles[i]| != |Preambles[j]|
  {
    PreambleLengths();
    if i == 0 {
    } else if i == 1 {
    } else {
    }
  }

  /** Each template is as long as its preamble and the neutralised prompt. */
  lemma TemplateLength(userPrompt: String, i: nat)
    requires i < 4
    ensures |SafePromptTemplates(userPrompt)[i]| == |Preambles[i]| + |Neutralized(userPrompt)|
  {
  }

  /** The four templates are pairwise different, whatever the prompt: no
      two of them have the same length. */
  lemma TemplatesDistinct(userPrompt: String, i: nat, j: nat)
    requires i < j < 4
    ensures SafePromptTemplates(userPrompt)[i] != SafePromptTemplates(userPrompt)[j]
  {
    PreamblesDiffer(i, j);
    TemplateLength(userPrompt, i);
    TemplateLength(userPrompt, j);
  }
}
