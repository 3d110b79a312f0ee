/** The explainer script generator (`generate_explainer`). */
module Explainer {
  import opened Text
  import opened Formatting

  datatype Section = Section(name: string, content: string, duration: int)

  /** An explainer template; its `structure` list is never read by the generator and is not modelled. */
  datatype Template = Template(title: Pattern, hook: Pattern, sections: seq<Section>, outro: Pattern)

  /** The `timing` block, in seconds. */
  datatype Timing = Timing(hookDuration: int, sectionDurationAvg: int, outroDuration: int)

  /** The generated script; the constant `visual_style` and `effects` blocks are not modelled. */
  datatype Script = Script(
    kind: string, template: string, title: string, hook: string, topic: string, series: string,
    sections: seq<Section>, outro: string, totalDuration: int, timing: Timing)

  const Concept: Template := Template(
    [Lit("What is "), Field("topic"), Lit(" in "), Field("series"), Lit("?")],
    [Lit("What is "), Field("topic"), Lit(" in "), Field("series"), Lit("? Let me explain...")],
    [Section("Context", "Where this concept appears in the story", 5),
     Section("Definition", "What it actually means/how it works", 8),
     Section("Examples", "Specific instances from the series", 10),
     Section("Why It Matters", "Impact on story/characters", 6)],
    [Lit("Now you know! Follow for more anime explained.")])

  const CharacterType: Template := Template(
    [Field("topic"), Lit(" in "), Field("series"), Lit(" Explained")],
    [Field("topic"), Lit(" explained - what you need to know...")],
    [Section("Overview", "What makes them unique", 6),
     Section("Abilities", "Powers and characteristics", 8),
     Section("Notable Characters", "Famous examples from the series", 10),
     Section("Role in Story", "Why they matter to the plot", 5)],
    [Lit("Which "), Field("topic"), Lit(" is your favorite?")])

  const Mechanic: Template := Template(
    [Lit("How "), Field("topic"), Lit(" Works in "), Field("series")],
    [Lit("How "), Field("topic"), Lit(" actually works...")],
    [Section("The Basics", "Fundamental mechanics explained simply", 7),
     Section("Rules & Limitations", "What can and cannot be done", 8),
     Section("In Action", "Seeing it used in the series", 10),
     Section("Why It's Cool", "What makes this mechanic special", 5)],
    [Lit("What other mechanics should I explain?")])

  predicate KnownTemplate(name: string) {
    name == "concept" || name == "character_type" || name == "mechanic"
  }

  /** Every field of `p` is `{topic}` or `{series}`. */
  predicate TopicSeriesOnly(p: Pattern) {
    forall i :: 0 <= i < |p| && p[i].Field? ==> p[i].name == "topic" || p[i].name == "series"
  }

  /** Every field of `p` is `{topic}`. */
  predicate TopicOnly(p: Pattern) {
    forall i :: 0 <= i < |p| && p[i].Field? ==> p[i].name == "topic"
  }

  /** What the generator relies on: title and hook name at most topic and series, the outro only topic,
      the title both of them and the hook the topic; no section has a negative duration. */
  predicate WellFormed(t: Template) {
    && TopicSeriesOnly(t.title) && TopicSeriesOnly(t.hook) && TopicOnly(t.outro)
    && HasField(t.title, "topic") && HasField(t.title, "series") && HasField(t.hook, "topic")
    && (forall i :: 0 <= i < |t.sections| ==> t.sections[i].duration >= 0)
  }

  lemma ConceptWellFormed()
    ensures WellFormed(Concept)
  {
    assert Concept.title[1] == Field("topic") && Concept.title[3] == Field("series");
    assert Concept.hook[1] == Field("topic");
  }

  lemma CharacterTypeWellFormed()
    ensures WellFormed(CharacterType)
  {
    assert CharacterType.title[0] == Field("topic") && CharacterType.title[2] == Field("series");
    assert CharacterType.hook[0] == Field("topic");
  }

  lemma MechanicWellFormed()
    ensures WellFormed(Mechanic)
  {
    assert Mechanic.title[1] == Field("topic") && Mechanic.title[3] == Field("series");
    assert Mechanic.hook[1] == Field("topic");
  }

  /** `EXPLAINER_TEMPLATES.get(template, EXPLAINER_TEMPLATES['concept'])`. */
  function TemplateFor(name: string): (t: Template)
    ensures !KnownTemplate(name) ==> t == Concept
    ensures WellFormed(t)
  {
    if name == "character_type" then CharacterTypeWellFormed(); CharacterType
    else if name == "mechanic" then MechanicWellFormed(); Mechanic
    else ConceptWellFormed(); Concept
  }

  /** `sum(s['duration'] for s in sections)`. */
  function TotalDuration(sections: seq<Section>): int {
    if |sections| == 0 then 0 else sections[0].duration + TotalDuration(sections[1..])
  }

  /** The body of `generate_explainer` once the template `t` has been looked up under `name`. */
  function Generate(t: Template, topic: string, series: string, name: string): (r: Script)
    requires WellFormed(t)
    ensures r.kind == "explainer" && r.template == name && r.topic == topic && r.series == series
    ensures r.sections == t.sections
    ensures r.totalDuration == TotalDuration(t.sections) + 8
    ensures Contains(r.title, topic) && Contains(r.title, series) && Contains(r.hook, topic)
  {
    var both := map["topic" := topic, "series" := series];
    var one := map["topic" := topic];
    FieldContained(t.title, both, "topic");
    FieldContained(t.title, both, "series");
    FieldContained(t.hook, both, "topic");
    Script(
      "explainer", name, Format(t.title, both).value, Format(t.hook, both).value, topic, series,
      t.sections, Format(t.outro, one).value, TotalDuration(t.sections) + 8, Timing(3, 7, 5))
  }

  /** `generate_explainer(topic, series, template)`. */
  function GenerateExplainer(topic: string, series: string, name: string): Script {
    Generate(TemplateFor(name), topic, series, name)
  }

  /** An unknown template name produces the `concept` script, but the `template` field keeps the requested name. */
  lemma UnknownTemplateIsConcept(topic: string, series: string, name: string)
    requires !KnownTemplate(name)
    ensures GenerateExplainer(topic, series, name) == GenerateExplainer(topic, series, "concept").(template := name)
  {
  }

  lemma ConceptSeconds()
    ensures TotalDuration(Concept.sections) == 29
  {
    var s := Concept.sections;
    assert TotalDuration(s[3..]) == 6 by { assert s[3..][1..] == []; }
    assert s[2..][1..] == s[3..];
    assert s[1..][1..] == s[2..];
  }

  lemma CharacterTypeSeconds()
    ensures TotalDuration(CharacterType.sections) == 29
  {
    var s := CharacterType.sections;
    assert TotalDuration(s[3..]) == 5 by { assert s[3..][1..] == []; }
    assert s[2..][1..] == s[3..];
    assert s[1..][1..] == s[2..];
  }

  lemma MechanicSeconds()
    ensures TotalDuration(Mechanic.sections) == 30
  {
    var s := Mechanic.sections;
    assert TotalDuration(s[3..]) == 5 by { assert s[3..][1..] == []; }
    assert s[2..][1..] == s[3..];
    assert s[1..][1..] == s[2..];
  }

  /** The advertised lengths: 37 s for `concept` (and any unknown name), 37 s for `character_type`, 38 s for `mechanic`. */
  lemma ExplainerSeconds(topic: string, series: string, name: string)
    ensures GenerateExplainer(topic, series, name).totalDuration
      == (if name == "mechanic" then 38 else 37)
  {
    if name == "mechanic" {
      MechanicSeconds();
    } else if name == "character_type" {
      CharacterTypeSeconds();
    } else {
      ConceptSeconds();
    }
  }

  /** The outro names the topic only: it is the same whatever the series, and for two templates a fixed sentence. */
  lemma OutroIgnoresSeries(topic: string, name: string, a: string, b: string)
    ensures GenerateExplainer(topic, a, name).outro == GenerateExplainer(topic, b, name).outro
    ensures name == "concept" ==> GenerateExplainer(topic, a, name).outro == "Now you know! Follow for more anime explained."
  {
    if name == "concept" {
      FormatUsesOnlyFields(Concept.outro, map["topic" := topic], map[]);
    }
  }
}
