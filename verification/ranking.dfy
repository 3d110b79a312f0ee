/** The "Top N" ranking script generator (`generate_ranking`). */
module Ranking {
  import opened Text
  import opened Decimal
  import opened Formatting

  /** The third field of a template item: `anime` in two templates, `genre` in the third. */
  datatype Detail = Anime(series: string) | Genre(genre: string)

  datatype Item = Item(rank: int, name: string, detail: Detail, why: string)

  /** A ranking template; its items are listed from rank 10 down to rank 1. */
  datatype Template = Template(title: Pattern, hook: Pattern, items: seq<Item>, outro: string)

  /** The `timing` block, in seconds. */
  datatype Timing = Timing(hookDuration: real, timePerItem: real, dramaticPause: real, outroDuration: real)

  /** The generated script; the constant `visual_style` and `effects` blocks are not modelled. */
  datatype Script = Script(
    kind: string, style: string, title: string, topic: string, hook: string,
    items: seq<Item>, outro: string, totalDuration: real, timing: Timing)

  function Character(rank: int, why: string): Item {
    Item(rank, "[Character]", Anime("[Series]"), why)
  }

  function Form(rank: int, why: string): Item {
    Item(rank, "[Form Name]", Anime("[Series]"), why)
  }

  function Gem(rank: int, why: string): Item {
    Item(rank, "[Anime Title]", Genre("[Genre]"), why)
  }

  const Strongest: Template := Template(
    [Lit("Top "), Field("count"), Lit(" Strongest Anime Characters")],
    [Lit("Top "), Field("count"), Lit(" strongest anime characters of all time...")],
    [Character(10, "The baseline of power"), Character(9, "Way stronger than expected"),
     Character(8, "Destructive capability"), Character(7, "Speed and power combined"),
     Character(6, "Reality warper"), Character(5, "Casual planet buster"),
     Character(4, "Multiverse threat"), Character(3, "Conceptual manipulation"),
     Character(2, "Near omnipotent"), Character(1, "The GOAT")],
    "Agree with this list? Comment your top 3!")

  const Transformations: Template := Template(
    [Lit("Top "), Field("count"), Lit(" Anime Transformations")],
    [Lit("These transformations hit different...")],
    [Form(10, "The buildup was insane"), Form(9, "First time we saw true power"),
     Form(8, "Design is peak"), Form(7, "Emotional weight"),
     Form(6, "That entrance though"), Form(5, "Changed the series"),
     Form(4, "Goosebumps every time"), Form(3, "The animation quality"),
     Form(2, "Iconic moment"), Form(1, "Best in anime history")],
    "Which transformation is YOUR favorite?")

  const Underrated: Template := Template(
    [Lit("Top "), Field("count"), Lit(" Underrated Anime You Missed")],
    [Lit("You haven't seen these gems...")],
    [Gem(10, "Hidden masterpiece"), Gem(9, "Criminally overlooked"),
     Gem(8, "Better than mainstream"), Gem(7, "Story is incredible"),
     Gem(6, "Animation is gorgeous"), Gem(5, "Character development"),
     Gem(4, "Plot twists hit hard"), Gem(3, "Soundtrack alone"),
     Gem(2, "Deserves more fans"), Gem(1, "Perfect from start to finish")],
    "How many have you watched?")

  predicate KnownStyle(style: string) {
    style == "strongest" || style == "transformations" || style == "underrated"
  }

  /** The only field a ranking pattern uses is `{count}`. */
  predicate CountOnly(p: Pattern) {
    forall i :: 0 <= i < |p| && p[i].Field? ==> p[i].name == "count"
  }

  /** What the generator relies on in a template: ten items ranked 10 down to 1, `{count}` the only field. */
  predicate WellFormed(t: Template) {
    && |t.items| == 10 && (forall j :: 0 <= j < 10 ==> t.items[j].rank == 10 - j)
    && CountOnly(t.title) && CountOnly(t.hook)
    && |t.title| == 3 && t.title[1] == Field("count")
  }

  /** `RANKING_TEMPLATES.get(style, RANKING_TEMPLATES['strongest'])`. */
  function TemplateFor(style: string): (t: Template)
    ensures !KnownStyle(style) ==> t == Strongest
    ensures WellFormed(t)
  {
    if style == "transformations" then TransformationsWellFormed(); Transformations
    else if style == "underrated" then UnderratedWellFormed(); Underrated
    else StrongestWellFormed(); Strongest
  }

  lemma StrongestWellFormed()
    ensures WellFormed(Strongest)
  {
  }

  lemma TransformationsWellFormed()
    ensures WellFormed(Transformations)
  {
  }

  lemma UnderratedWellFormed()
    ensures WellFormed(Underrated)
  {
  }

  /** Python's `s[:n]`: a negative `n` counts from the end. */
  function PyPrefix<T>(s: seq<T>, n: int): seq<T> {
    if n >= |s| then s
    else if n >= 0 then s[..n]
    else if |s| + n >= 0 then s[..|s| + n]
    else []
  }

  /** `list.reverse()`. */
  function Reverse<T>(s: seq<T>): (r: seq<T>)
    ensures |r| == |s|
    ensures forall i :: 0 <= i < |s| ==> r[i] == s[|s| - 1 - i]
  {
    if |s| == 0 then [] else Reverse(s[1..]) + [s[0]]
  }

  /** The renumbering loop: the item at position `i` gets rank `first - i`. */
  function RankFrom(items: seq<Item>, first: int): (r: seq<Item>)
    ensures |r| == |items|
    ensures forall i :: 0 <= i < |items| ==> r[i] == items[i].(rank := first - i)
  {
    if |items| == 0 then [] else [items[0].(rank := first)] + RankFrom(items[1..], first - 1)
  }

  /** The body of `generate_ranking` once the template `t` has been looked up. */
  function Generate(t: Template, topic: string, count: int, style: string): (r: Script)
    requires WellFormed(t)
    ensures r.kind == "ranking" && r.style == style && r.topic == topic && r.outro == t.outro
    ensures 0 <= count ==> |r.items| == (if count < 10 then count else 10)
    ensures count < 0 ==> |r.items| == (if count > -10 then 10 + count else 0)
    ensures forall i :: 0 <= i < |r.items| ==> r.items[i] == t.items[|r.items| - 1 - i].(rank := count - i)
    ensures r.totalDuration == count as real * 1.5 + 5.0
    ensures r.timing.timePerItem == 1.5
  {
    var args := map["count" := IntToString(count)];
    var items := RankFrom(Reverse(PyPrefix(t.items, count)), count);
    Script(
      "ranking", style, Format(t.title, args).value, topic, Format(t.hook, args).value,
      items, t.outro, count as real * 1.5 + 5.0, Timing(2.0, 1.5, 3.0, 3.0))
  }

  /** `generate_ranking(topic, count, style)`. */
  function GenerateRanking(topic: string, count: int, style: string): Script {
    Generate(TemplateFor(style), topic, count, style)
  }

  /** Ranks count down by exactly one per item; for `0 < count <= 10` they run from `count` to 1. */
  lemma RanksCountDown(t: Template, topic: string, count: int, style: string)
    requires WellFormed(t)
    ensures var items := Generate(t, topic, count, style).items;
      forall i :: 0 <= i < |items| - 1 ==> items[i].rank == items[i + 1].rank + 1
    ensures var items := Generate(t, topic, count, style).items;
      0 < count <= 10 ==> items[0].rank == count && items[|items| - 1].rank == 1
  {
  }

  /** The `why` texts are not realigned: the template's rank-1 entry leads with rank 10. */
  lemma GoatLeads(topic: string)
    ensures var items := GenerateRanking(topic, 10, "strongest").items;
      items[0].why == "The GOAT" && items[0].rank == 10
      && items[9].why == "The baseline of power" && items[9].rank == 1
  {
    var items := GenerateRanking(topic, 10, "strongest").items;
    assert items[0] == Strongest.items[9].(rank := 10);
    assert items[9] == Strongest.items[0].(rank := 1);
  }

  /** Any style other than the three known ones produces the `strongest` script, still labelled with the requested style. */
  lemma UnknownStyleIsStrongest(topic: string, count: int, style: string)
    requires !KnownStyle(style)
    ensures GenerateRanking(topic, count, style) == GenerateRanking(topic, count, "strongest").(style := style)
  {
  }

  /** The template's own ranks: position `j` holds rank `10 - j`. */
  function RestoreRanks(items: seq<Item>): (r: seq<Item>)
    ensures |r| == |items|
    ensures forall j :: 0 <= j < |items| ==> r[j] == items[j].(rank := 10 - j)
  {
    RankFrom(items, 10)
  }

  /** Undoing the generator: reversing its items and restoring the template ranks gives back `items[:count]`. */
  lemma UndoRanking(t: Template, topic: string, count: int, style: string)
    requires WellFormed(t)
    ensures RestoreRanks(Reverse(Generate(t, topic, count, style).items)) == PyPrefix(t.items, count)
  {
    var items := Generate(t, topic, count, style).items;
    var back := RestoreRanks(Reverse(items));
    var want := PyPrefix(t.items, count);
    assert |want| == |items|;
    forall j | 0 <= j < |items|
      ensures back[j] == want[j]
    {
      assert Reverse(items)[j] == items[|items| - 1 - j];
      assert items[|items| - 1 - j] == t.items[j].(rank := count - (|items| - 1 - j));
      assert t.items[j].rank == 10 - j;
    }
  }

  /** The title always shows the requested count in decimal. */
  lemma TitleShowsCount(t: Template, topic: string, count: int, style: string)
    requires WellFormed(t)
    ensures Contains(Generate(t, topic, count, style).title, IntToString(count))
  {
    var args := map["count" := IntToString(count)];
    var k := FieldShown(t.title, args, 1);
    ContainsIff(Format(t.title, args).value, IntToString(count));
  }

  /** The `strongest` hook shows the count. */
  lemma StrongestHookShowsCount(topic: string, count: int)
    ensures Contains(GenerateRanking(topic, count, "strongest").hook, IntToString(count))
  {
    var args := map["count" := IntToString(count)];
    var k := FieldShown(Strongest.hook, args, 1);
    ContainsIff(Format(Strongest.hook, args).value, IntToString(count));
  }

  /** The other two hooks are fixed sentences that do not depend on the count. */
  lemma OtherHooksFixed(topic: string, count: int, other: int, style: string)
    requires style == "transformations" || style == "underrated"
    ensures GenerateRanking(topic, count, style).hook == GenerateRanking(topic, other, style).hook
  {
    var t := TemplateFor(style);
    assert forall i :: 0 <= i < |t.hook| ==> t.hook[i].Lit?;
    FormatUsesOnlyFields(t.hook, map["count" := IntToString(count)], map["count" := IntToString(other)]);
  }
}
