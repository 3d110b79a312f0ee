/** The generators' scripts as the video maker reads them back: the video each one yields and whether its
    length agrees with the script's own `total_duration`. */
module AnimePipeline {
  import opened Wrappers
  import opened Decimal
  import opened AnimeVideo
  import Ranking
  import Explainer
  import VsBattle
  import TikTokScript

  /** A ranking item as JSON: a `genre` item has no `anime` key. */
  function RankingItemData(it: Ranking.Item): ItemData {
    ItemData(Some(it.rank), Some(it.name), if it.detail.Anime? then Some(it.detail.series) else None)
  }

  /** The keys of a ranking script that the video maker reads. */
  function RankingData(s: Ranking.Script): ScriptData {
    ScriptData(
      Some(s.kind), Some(s.title), Some(s.hook), Some(s.outro),
      Some(seq(|s.items|, i requires 0 <= i < |s.items| => RankingItemData(s.items[i]))),
      Some(s.timing.timePerItem), None, None, Some(s.topic), None, None)
  }

  /** A generator's sections as JSON, whatever their other fields: each one's name and duration, in order. */
  function SectionsData<S>(sections: seq<S>, name: S -> string, seconds: S -> int): (r: seq<SectionData>)
    ensures |r| == |sections|
    ensures forall i :: 0 <= i < |sections| ==>
      r[i] == SectionData(Some(name(sections[i])), Some(seconds(sections[i]) as real))
  {
    seq(|sections|, i requires 0 <= i < |sections| =>
      SectionData(Some(name(sections[i])), Some(seconds(sections[i]) as real)))
  }

  function ExplainerName(x: Explainer.Section): string { x.name }
  function ExplainerSectionSeconds(x: Explainer.Section): int { x.duration }
  function VsName(x: VsBattle.Section): string { x.name }
  function VsSectionSeconds(x: VsBattle.Section): int { x.duration }

  function ExplainerData(s: Explainer.Script): ScriptData {
    ScriptData(
      Some(s.kind), Some(s.title), Some(s.hook), Some(s.outro), None, None, None, None,
      Some(s.topic), Some(s.series), Some(SectionsData(s.sections, ExplainerName, ExplainerSectionSeconds)))
  }

  function VsData(s: VsBattle.Script): ScriptData {
    ScriptData(
      Some(s.kind), Some(s.title), Some(s.hook), Some(s.outro), None, None,
      Some(s.char1.name), Some(s.char2.name), None, None, Some(SectionsData(s.sections, VsName, VsSectionSeconds)))
  }

  /** Sections of whole, non-negative seconds fill thirty frames per second each. */
  lemma {:induction false} ExplainerSectionFrames(sections: seq<Explainer.Section>, fallback: real)
    requires forall i :: 0 <= i < |sections| ==> sections[i].duration >= 0
    ensures Sum(SectionCounts(SectionsData(sections, ExplainerName, ExplainerSectionSeconds), fallback)) == 30 * Explainer.TotalDuration(sections)
    decreases |sections|
  {
    if |sections| > 0 {
      var c := SectionCounts(SectionsData(sections, ExplainerName, ExplainerSectionSeconds), fallback);
      assert c[1..] == SectionCounts(SectionsData(sections[1..], ExplainerName, ExplainerSectionSeconds), fallback);
      ExplainerSectionFrames(sections[1..], fallback);
      WholeSeconds(sections[0].duration);
    }
  }

  lemma {:induction false} VsSectionFrames(sections: seq<VsBattle.Section>, fallback: real)
    requires forall i :: 0 <= i < |sections| ==> sections[i].duration >= 0
    ensures Sum(SectionCounts(SectionsData(sections, VsName, VsSectionSeconds), fallback)) == 30 * VsBattle.TotalDuration(sections)
    decreases |sections|
  {
    if |sections| > 0 {
      var c := SectionCounts(SectionsData(sections, VsName, VsSectionSeconds), fallback);
      assert c[1..] == SectionCounts(SectionsData(sections[1..], VsName, VsSectionSeconds), fallback);
      VsSectionFrames(sections[1..], fallback);
      WholeSeconds(sections[0].duration);
    }
  }

  /** The ranking video's frame count: hook, one item time per item, outro. */
  lemma RankingFrames(t: Ranking.Template, topic: string, count: int, style: string, rendered: bool)
    requires Ranking.WellFormed(t)
    ensures var s := Ranking.Generate(t, topic, count, style);
      var o := CreateVideo(RankingData(s), rendered);
      o.video.Some? && |Frames(o.video.value)| == 150 + 45 * |s.items|
  {
    var s := Ranking.Generate(t, topic, count, style);
    var d := RankingData(s);
    assert d.kind == Some("ranking") && d.timePerItem == Some(1.5) && |d.items.GetOr([])| == |s.items|;
    RankingDataFrames(d, rendered);
  }

  /** Ranking data at 1.5 seconds an item goes to the ranking renderer: 60 + 45 per item + 90 frames. */
  lemma RankingDataFrames(d: ScriptData, rendered: bool)
    requires d.kind == Some("ranking") && d.timePerItem == Some(1.5)
    ensures CreateVideo(d, rendered).video == Some(RankingVideo(d))
    ensures |Frames(RankingVideo(d))| == 150 + 45 * |d.items.GetOr([])|
  {
    ItemFrames();
  }

  /** A ranking of at most ten items renders to exactly its declared length. */
  lemma RankingVideoLength(t: Ranking.Template, topic: string, count: int, style: string, rendered: bool)
    requires Ranking.WellFormed(t) && 0 <= count <= 10
    ensures var s := Ranking.Generate(t, topic, count, style);
      var o := CreateVideo(RankingData(s), rendered);
      o.video.Some? && |Frames(o.video.value)| as real == 30.0 * s.totalDuration
  {
    RankingFrames(t, topic, count, style, rendered);
  }

  /** Asking for more than ten items gives ten cards but a duration counted for all of them, so the video is
      shorter than the script says: 600 frames against 825 for fifteen. */
  lemma LongRankingVideoShort(t: Ranking.Template, topic: string, style: string, rendered: bool)
    requires Ranking.WellFormed(t)
    ensures var s := Ranking.Generate(t, topic, 15, style);
      var o := CreateVideo(RankingData(s), rendered);
      && o.video.Some?
      && |Frames(o.video.value)| == 600
      && 30.0 * s.totalDuration == 825.0
  {
    RankingFrames(t, topic, 15, style, rendered);
  }

  /** Card `i` of the ranking video shows the rank `count - i` the generator assigned. */
  lemma RankingCardNumber(t: Ranking.Template, topic: string, count: int, style: string, i: nat)
    requires Ranking.WellFormed(t)
    requires i < |Ranking.Generate(t, topic, count, style).items|
    ensures RankingVideo(RankingData(Ranking.Generate(t, topic, count, style))).slides[i + 1].number
      == IntToString(count - i)
  {
    var s := Ranking.Generate(t, topic, count, style);
    var d := RankingData(s);
    var items := d.items.GetOr([]);
    assert items[i] == RankingItemData(s.items[i]);
    assert items[i].rank == Some(count - i);
    assert RankingVideo(d).slides[i + 1] == Card(items, i);
  }

  /** Every explainer renders to exactly its declared length. */
  lemma ExplainerVideoLength(t: Explainer.Template, topic: string, series: string, name: string, rendered: bool)
    requires Explainer.WellFormed(t)
    ensures var s := Explainer.Generate(t, topic, series, name);
      var o := CreateVideo(ExplainerData(s), rendered);
      o.video.Some? && |Frames(o.video.value)| == 30 * s.totalDuration
  {
    var s := Explainer.Generate(t, topic, series, name);
    var d := ExplainerData(s);
    ExplainerSectionFrames(s.sections, 7.0);
    assert d.kind == Some("explainer");
    assert CreateVideo(d, rendered).video == Some(ExplainerVideo(d));
  }

  /** The standard battle renders to 1200 frames, its declared 40 seconds. */
  lemma VsVideoLength(char1: string, char2: string, series: string, rendered: bool)
    ensures var s := VsBattle.GenerateVs(char1, char2, series, "standard").value;
      var o := CreateVideo(VsData(s), rendered);
      o.video.Some? && |Frames(o.video.value)| == 30 * s.totalDuration == 1200
  {
    var s := VsBattle.GenerateVs(char1, char2, series, "standard").value;
    var d := VsData(s);
    VsBattle.BattleSeconds(char1, char2, series);
    VsSectionFrames(s.sections, 8.0);
    assert CreateVideo(d, rendered).video == Some(VsVideo(d));
  }

  /** The generic scripts carry types the video maker does not know: it exits with status 1 and renders nothing. */
  lemma GenericScriptsRejected(s: TikTokScript.Script, d: ScriptData, rendered: bool)
    requires d.kind == Some(TikTokScript.Kind(s))
    ensures CreateVideo(d, rendered) == Outcome(1, None)
  {
    Dispatch(d, rendered);
  }
}
