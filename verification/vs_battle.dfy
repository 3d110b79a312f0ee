/** The "A vs B" battle script generator (`generate_vs`). */
module VsBattle {
  import opened Wrappers
  import opened Text
  import opened Formatting

  /** A comparison round, or the closing verdict (which has `winner_logic` instead of two points). */
  datatype Section =
    | Round(name: string, char1Point: string, char2Point: string, duration: int)
    | Verdict(name: string, winnerLogic: string, duration: int)

  datatype Template = Template(title: Pattern, hook: Pattern, sections: seq<Section>, outro: string)

  datatype Fighter = Fighter(name: string, series: string)

  /** The `timing` block, in seconds. */
  datatype Timing = Timing(hookDuration: int, sectionDurationAvg: int, outroDuration: int)

  /** The generated script; the constant `visual_style` and `effects` blocks are not modelled. */
  datatype Script = Script(
    kind: string, template: string, title: string, hook: string, char1: Fighter, char2: Fighter,
    sections: seq<Section>, outro: string, totalDuration: int, timing: Timing)

  const Standard: Template := Template(
    [Field("char1"), Lit(" vs "), Field("char2"), Lit(" - Who Wins?")],
    [Field("char1"), Lit(" vs "), Field("char2"), Lit("... Here's who actually wins")],
    [Round("Physical Stats", "Speed and strength comparison", "Durability and stamina check", 8),
     Round("Abilities", "Signature technique breakdown", "Counters and counters to counters", 10),
     Round("Feats", "Best showing in the series", "Scaling from other characters", 8),
     Verdict("The Verdict", "Who takes it and why", 6)],
    "Agree or disagree? Drop your take in the comments!")

  /** Every field of `p` is `{char1}` or `{char2}`, and both occur. */
  predicate NamesBoth(p: Pattern) {
    && (forall i :: 0 <= i < |p| && p[i].Field? ==> p[i].name == "char1" || p[i].name == "char2")
    && HasField(p, "char1") && HasField(p, "char2")
  }

  lemma StandardNamesBoth()
    ensures NamesBoth(Standard.title) && NamesBoth(Standard.hook)
  {
    assert Standard.title[0] == Field("char1") && Standard.title[2] == Field("char2");
    assert Standard.hook[0] == Field("char1") && Standard.hook[2] == Field("char2");
  }

  /** `sum(s['duration'] for s in sections)`. */
  function TotalDuration(sections: seq<Section>): int {
    if |sections| == 0 then 0 else sections[0].duration + TotalDuration(sections[1..])
  }

  /** `VS_TEMPLATES[template]`: `None` is the `KeyError` of any name but `standard`. */
  function TemplateFor(name: string): (t: Option<Template>)
    ensures t.Some? <==> name == "standard"
    ensures t.Some? ==> NamesBoth(t.value.title) && NamesBoth(t.value.hook)
    ensures t.Some? ==> forall i :: 0 <= i < |t.value.sections| ==> t.value.sections[i].duration >= 0
  {
    if name == "standard" then StandardNamesBoth(); Some(Standard) else None
  }

  /** The body of `generate_vs` once the template `t` has been looked up under `name`. */
  function Generate(t: Template, char1: string, char2: string, series: string, name: string): (r: Script)
    requires NamesBoth(t.title) && NamesBoth(t.hook)
    ensures r.kind == "vs_battle" && r.template == name
    ensures r.char1 == Fighter(char1, series) && r.char2 == Fighter(char2, series)
    ensures r.sections == t.sections && r.outro == t.outro
    ensures r.totalDuration == TotalDuration(t.sections) + 8
    ensures Contains(r.title, char1) && Contains(r.title, char2)
    ensures Contains(r.hook, char1) && Contains(r.hook, char2)
  {
    var args := map["char1" := char1, "char2" := char2];
    FieldContained(t.title, args, "char1");
    FieldContained(t.title, args, "char2");
    FieldContained(t.hook, args, "char1");
    FieldContained(t.hook, args, "char2");
    Script(
      "vs_battle", name, Format(t.title, args).value, Format(t.hook, args).value,
      Fighter(char1, series), Fighter(char2, series),
      t.sections, t.outro, TotalDuration(t.sections) + 8, Timing(3, 8, 5))
  }

  /** `generate_vs(char1, char2, series, template)`; `None` is the uncaught `KeyError`. */
  function GenerateVs(char1: string, char2: string, series: string, name: string): (r: Option<Script>) {
    match TemplateFor(name)
    case None => None
    case Some(t) => Some(Generate(t, char1, char2, series, name))
  }

  /** There is no fallback: the generator succeeds exactly for `standard`. */
  lemma OnlyStandard(char1: string, char2: string, series: string, name: string)
    ensures GenerateVs(char1, char2, series, name).Some? <==> name == "standard"
  {
  }

  lemma StandardSeconds()
    ensures TotalDuration(Standard.sections) == 32
  {
    var s := Standard.sections;
    assert TotalDuration(s[3..]) == 6 by { assert s[3..][1..] == []; }
    assert s[2..][1..] == s[3..];
    assert s[1..][1..] == s[2..];
  }

  /** The standard battle lasts 8 + 10 + 8 + 6 seconds of rounds plus 8 for hook and outro. */
  lemma BattleSeconds(char1: string, char2: string, series: string)
    ensures GenerateVs(char1, char2, series, "standard").value.totalDuration == 40
  {
    StandardSeconds();
  }

  /** The rounds come in the order Physical Stats, Abilities, Feats, and the verdict last. */
  lemma SectionOrder(char1: string, char2: string, series: string)
    ensures var s := GenerateVs(char1, char2, series, "standard").value.sections;
      |s| == 4 && s[0].name == "Physical Stats" && s[1].name == "Abilities" && s[2].name == "Feats"
      && s[3].name == "The Verdict" && s[3].Verdict? && s[0].Round? && s[1].Round? && s[2].Round?
  {
  }
}
