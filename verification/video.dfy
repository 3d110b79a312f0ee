/** The frame schedule of the anime video maker (`create_anime_video.py`): which slide is shown on
    each frame at 30 frames per second, the renumbered frame names, and the dispatch on the script type.
    Drawing the slides and running ffmpeg are not modelled; ffmpeg's verdict is a parameter. */
module AnimeVideo {
  import opened Wrappers
  import opened Text
  import opened Decimal

  /** A ranking item as read from the script JSON; a missing key is `None`. */
  datatype ItemData = ItemData(rank: Option<int>, name: Option<string>, anime: Option<string>)

  /** A VS or explainer section as read from the script JSON. */
  datatype SectionData = SectionData(name: Option<string>, duration: Option<real>)

  /** The keys of the script JSON the video maker reads (`timing.time_per_item` and
      `characters.charN.name` flattened); a missing key is `None`. */
  datatype ScriptData = ScriptData(
    kind: Option<string>, title: Option<string>, hook: Option<string>, outro: Option<string>,
    items: Option<seq<ItemData>>, timePerItem: Option<real>,
    char1: Option<string>, char2: Option<string>, topic: Option<string>, series: Option<string>,
    sections: Option<seq<SectionData>>)

  /** One distinct rendered image: a centred caption, a ranking card, a VS section card or an explainer section card. */
  datatype Slide =
    | Caption(text: string, fontSize: nat)
    | RankCard(number: string, name: string, anime: string)
    | VsCard(header: string, matchup: string)
    | TopicCard(header: string, reminder: string)

  /** The rendered images and how many consecutive frames each one fills, in order. */
  datatype Video = Video(slides: seq<Slide>, counts: seq<nat>)

  /** Python `int(x)`: truncation toward zero. */
  function Trunc(x: real): (n: int)
    ensures x >= 0.0 ==> n as real <= x < n as real + 1.0
    ensures x < 0.0 ==> x <= n as real <= 0.0
  {
    if x >= 0.0 then x.Floor else -((-x).Floor)
  }

  /** `range(int(seconds * 30))`: the frames a slide of `seconds` fills at 30 fps; a negative count gives none. */
  function FrameCount(seconds: real): (n: nat)
    ensures seconds >= 0.0 ==> n as real <= seconds * 30.0 < n as real + 1.0
    ensures seconds <= 0.0 ==> n == 0
  {
    var t := Trunc(seconds * 30.0);
    if t < 0 then 0 else t
  }

  /** A whole number of seconds fills exactly thirty frames per second. */
  lemma WholeSeconds(d: int)
    requires d >= 0
    ensures FrameCount(d as real) == 30 * d
  {
  }

  /** The default ranking item time of 1.5 s fills 45 frames. */
  lemma ItemFrames()
    ensures FrameCount(1.5) == 45
  {
    assert 1.5 * 30.0 == 45.0;
  }

  function Sum(counts: seq<nat>): nat {
    if |counts| == 0 then 0 else counts[0] + Sum(counts[1..])
  }

  lemma {:induction false} SumAppend(a: seq<nat>, b: seq<nat>)
    ensures Sum(a + b) == Sum(a) + Sum(b)
    decreases |a|
  {
    if |a| > 0 {
      assert (a + b)[1..] == a[1..] + b;
      SumAppend(a[1..], b);
    } else {
      assert a + b == b;
    }
  }

  lemma SumPrefixStep(c: seq<nat>, k: nat)
    requires k < |c|
    ensures Sum(c[..k + 1]) == Sum(c[..k]) + c[k]
  {
    assert c[..k + 1] == c[..k] + [c[k]];
    SumAppend(c[..k], [c[k]]);
    assert [c[k]][1..] == [];
  }

  lemma {:induction false} SumPrefixGrows(c: seq<nat>, a: nat, b: nat)
    requires a <= b <= |c|
    ensures Sum(c[..a]) <= Sum(c[..b])
    decreases b - a
  {
    if a < b {
      SumPrefixStep(c, b - 1);
      SumPrefixGrows(c, a, b - 1);
    }
  }

  /** The `frame_files` list: slide `k` repeated `counts[k]` times, slide after slide. */
  function Expand(counts: seq<nat>): (r: seq<nat>)
    ensures |r| == Sum(counts)
    ensures forall j :: 0 <= j < |r| ==> r[j] < |counts|
  {
    if |counts| == 0 then []
    else
      var k := |counts| - 1;
      SumPrefixStep(counts, k);
      assert counts[..k + 1] == counts;
      Expand(counts[..k]) + seq(counts[k], _ => k)
  }

  /** Slide `k` fills exactly the frames from `Sum(counts[..k])` up to, not including, `Sum(counts[..k + 1])`. */
  lemma {:induction false} ExpandBlock(counts: seq<nat>, k: nat, j: nat)
    requires k < |counts| && Sum(counts[..k]) <= j < Sum(counts[..k]) + counts[k]
    ensures j < |Expand(counts)| && Expand(counts)[j] == k
    decreases |counts|
  {
    var last := |counts| - 1;
    var front := counts[..last];
    SumPrefixStep(counts, last);
    assert counts[..last + 1] == counts;
    SumPrefixStep(counts, k);
    SumPrefixGrows(counts, k + 1, last + 1);
    if k < last {
      assert front[..k] == counts[..k];
      SumPrefixGrows(counts, k + 1, last);
      ExpandBlock(front, k, j);
    }
  }

  /** The frames of a video, as slide indices. */
  function Frames(v: Video): seq<nat> {
    Expand(v.counts)
  }

  /** A hook slide, `middle.Length` content slides and an outro slide, with their frame counts. */
  function Counts(hook: nat, middle: seq<nat>, outro: nat): (c: seq<nat>)
    ensures |c| == |middle| + 2
    ensures Sum(c) == hook + Sum(middle) + outro
  {
    SumAppend([hook], middle + [outro]);
    SumAppend(middle, [outro]);
    assert [hook][1..] == [];
    assert [outro][1..] == [];
    [hook] + (middle + [outro])
  }

  /** The hook slide fills the first `hook` frames. */
  lemma HookFrame(hook: nat, middle: seq<nat>, outro: nat, j: nat)
    requires j < hook
    ensures Expand(Counts(hook, middle, outro))[j] == 0
  {
    var c := Counts(hook, middle, outro);
    assert c[..0] == [];
    ExpandBlock(c, 0, j);
  }

  /** Content slide `i + 1` fills the frames after the hook and the first `i` content slides. */
  lemma ContentFrame(hook: nat, middle: seq<nat>, outro: nat, i: nat, j: nat)
    requires i < |middle| && hook + Sum(middle[..i]) <= j < hook + Sum(middle[..i]) + middle[i]
    ensures j < |Expand(Counts(hook, middle, outro))| && Expand(Counts(hook, middle, outro))[j] == i + 1
  {
    var c := Counts(hook, middle, outro);
    assert c == ([hook] + middle) + [outro];
    assert c[..i + 1] == [hook] + middle[..i];
    SumAppend([hook], middle[..i]);
    assert [hook][1..] == [];
    ExpandBlock(c, i + 1, j);
  }

  /** The outro slide fills the last `outro` frames. */
  lemma OutroFrame(hook: nat, middle: seq<nat>, outro: nat, j: nat)
    requires hook + Sum(middle) <= j < hook + Sum(middle) + outro
    ensures Expand(Counts(hook, middle, outro))[j] == |middle| + 1
  {
    var c := Counts(hook, middle, outro);
    assert c == ([hook] + middle) + [outro];
    assert c[..|middle| + 1] == [hook] + middle;
    SumAppend([hook], middle);
    assert [hook][1..] == [];
    ExpandBlock(c, |middle| + 1, j);
  }

  /** `n` copies of `x`. */
  function Repeat(x: nat, n: nat): seq<nat> {
    seq(n, _ => x)
  }

  lemma {:induction false} SumRepeat(x: nat, n: nat)
    ensures Sum(Repeat(x, n)) == n * x
  {
    if n > 0 {
      assert Repeat(x, n)[1..] == Repeat(x, n - 1);
      SumRepeat(x, n - 1);
    }
  }

  /** The card of ranking item `i`: a missing rank defaults to `len(items) - i`. */
  function Card(items: seq<ItemData>, i: nat): Slide
    requires i < |items|
  {
    RankCard(IntToString(items[i].rank.GetOr(|items| - i)), items[i].name.GetOr("[Character]"), items[i].anime.GetOr(""))
  }

  /** `create_ranking_video`: a 2 s hook, `time_per_item` (default 1.5 s) per item, a 3 s outro. */
  function RankingVideo(d: ScriptData): (v: Video)
    ensures var items := d.items.GetOr([]);
      && |v.slides| == |v.counts| == |items| + 2
      && |Frames(v)| == 60 + |items| * FrameCount(d.timePerItem.GetOr(1.5)) + 90
      && (forall i :: 0 <= i < |items| ==> v.slides[i + 1] == Card(items, i))
  {
    var items := d.items.GetOr([]);
    var each := FrameCount(d.timePerItem.GetOr(1.5));
    var cards := seq(|items|, i requires 0 <= i < |items| => Card(items, i));
    SumRepeat(each, |items|);
    Video(
      [Caption(d.hook.GetOr(d.title.GetOr("")), 80)] + cards + [Caption(d.outro.GetOr("Follow for more!"), 60)],
      Counts(60, Repeat(each, |items|), 90))
  }

  /** In a ranking video, item `i` is on screen from frame `60 + i * each` for `each` frames. */
  lemma RankingFrameAt(d: ScriptData, i: nat, j: nat)
    requires var each := FrameCount(d.timePerItem.GetOr(1.5));
      i < |d.items.GetOr([])| && 60 + i * each <= j < 60 + (i + 1) * each
    ensures Frames(RankingVideo(d))[j] == i + 1
  {
    var items := d.items.GetOr([]);
    var each := FrameCount(d.timePerItem.GetOr(1.5));
    var middle := Repeat(each, |items|);
    assert middle[..i] == Repeat(each, i);
    SumRepeat(each, i);
    ContentFrame(60, middle, 90, i, j);
  }

  /** Frames per section, `int(duration * 30)` with `fallback` seconds for a missing duration. */
  function SectionCounts(sections: seq<SectionData>, fallback: real): (c: seq<nat>)
    ensures |c| == |sections|
    ensures forall i :: 0 <= i < |sections| ==> c[i] == FrameCount(sections[i].duration.GetOr(fallback))
  {
    seq(|sections|, i requires 0 <= i < |sections| => FrameCount(sections[i].duration.GetOr(fallback)))
  }

  /** `create_vs_video`: a 3 s hook, each section for its duration (default 8 s), a 5 s outro. */
  function VsVideo(d: ScriptData): (v: Video)
    ensures var sections := d.sections.GetOr([]);
      && |v.slides| == |v.counts| == |sections| + 2
      && |Frames(v)| == 90 + Sum(SectionCounts(sections, 8.0)) + 150
  {
    var c1 := d.char1.GetOr("Char1");
    var c2 := d.char2.GetOr("Char2");
    var sections := d.sections.GetOr([]);
    var cards := seq(|sections|, i requires 0 <= i < |sections| =>
      VsCard(sections[i].name.GetOr(""), c1 + " VS " + c2));
    Video(
      [Caption(d.hook.GetOr(c1 + " vs " + c2), 70)] + cards + [Caption(d.outro.GetOr("Comment who wins!"), 60)],
      Counts(90, SectionCounts(sections, 8.0), 150))
  }

  /** `create_explainer_video`: a 3 s hook, each section for its duration (default 7 s), a 5 s outro. */
  function ExplainerVideo(d: ScriptData): (v: Video)
    ensures var sections := d.sections.GetOr([]);
      && |v.slides| == |v.counts| == |sections| + 2
      && |Frames(v)| == 90 + Sum(SectionCounts(sections, 7.0)) + 150
  {
    var topic := d.topic.GetOr("Topic");
    var series := d.series.GetOr("Anime");
    var sections := d.sections.GetOr([]);
    var cards := seq(|sections|, i requires 0 <= i < |sections| =>
      TopicCard(sections[i].name.GetOr(""), topic + " • " + series));
    Video(
      [Caption(d.hook.GetOr(topic + " explained..."), 70)] + cards + [Caption(d.outro.GetOr("Follow for more!"), 60)],
      Counts(90, SectionCounts(sections, 7.0), 150))
  }

  /** The copy step: frame `i` becomes `frame_{i:05d}.png`, paired with the slide it shows. */
  function Renumber(frames: seq<nat>): (r: seq<(string, nat)>)
    ensures |r| == |frames|
    ensures forall i :: 0 <= i < |frames| ==> r[i].1 == frames[i]
  {
    seq(|frames|, i requires 0 <= i < |frames| => ("frame_" + ZeroPad(i, 5) + ".png", frames[i]))
  }

  /** The copied names are distinct, each one carries its own index, and below 100000 frames all have the same width. */
  lemma RenumberedNames(frames: seq<nat>, i: nat, j: nat)
    requires i < |frames| && j < |frames|
    ensures var r := Renumber(frames);
      && (r[i].0 == r[j].0 <==> i == j)
      && ParseDigits(r[i].0[6..|r[i].0| - 4]) == i
      && (|frames| <= 100000 ==> |r[i].0| == 15)
  {
    var r := Renumber(frames);
    var a := ZeroPad(i, 5);
    var b := ZeroPad(j, 5);
    assert r[i].0[6..|r[i].0| - 4] == a;
    if r[i].0 == r[j].0 {
      assert |a| == |b|;
      assert r[j].0[6..|r[j].0| - 4] == b;
      ZeroPadInjective(i, j, 5);
    }
    if |frames| <= 100000 {
      PaddedWidth(i);
    }
  }

  lemma PaddedWidth(i: nat)
    requires i < 100000
    ensures |ZeroPad(i, 5)| == 5
  {
    ParseNatToString(i);
    if |NatToString(i)| > 5 {
      LongIsLarge(NatToString(i));
    }
  }

  /** A digit string of more than five digits without a leading zero denotes at least 100000. */
  lemma {:induction false} LongIsLarge(s: string)
    requires AllDigits(s) && |s| > 5 && s[0] != '0'
    ensures ParseDigits(s) >= 100000
    decreases |s|
  {
    if |s| == 6 {
      FirstDigitWeight(s);
      assert Power10(5) == 10 * Power10(4);
      assert Power10(4) == 10 * Power10(3);
      assert Power10(3) == 10 * Power10(2);
      assert Power10(2) == 10 * Power10(1);
      assert Power10(1) == 10 * Power10(0);
    } else {
      LongIsLarge(s[..|s| - 1]);
    }
  }

  lemma {:induction false} FirstDigitWeight(s: string)
    requires AllDigits(s) && |s| >= 1 && s[0] != '0'
    ensures ParseDigits(s) >= Power10(|s| - 1)
    decreases |s|
  {
    if |s| > 1 {
      FirstDigitWeight(s[..|s| - 1]);
    }
  }

  function Power10(n: nat): (p: nat)
    ensures p >= 1
  {
    if n == 0 then 1 else 10 * Power10(n - 1)
  }

  /** What the program ends with: its exit status and, for a known script type, the video it renders. */
  datatype Outcome = Outcome(exitCode: int, video: Option<Video>)

  /** `main` after loading the script: a missing `type` means `ranking`; an unknown type exits with 1 without
      rendering; otherwise the exit status is ffmpeg's verdict `rendered`. */
  function CreateVideo(d: ScriptData, rendered: bool): (o: Outcome)
    ensures o.exitCode == 0 || o.exitCode == 1
    ensures o.exitCode == 0 <==> rendered && o.video.Some?
  {
    var kind := d.kind.GetOr("ranking");
    if kind == "ranking" then Outcome(if rendered then 0 else 1, Some(RankingVideo(d)))
    else if kind == "vs_battle" then Outcome(if rendered then 0 else 1, Some(VsVideo(d)))
    else if kind == "explainer" then Outcome(if rendered then 0 else 1, Some(ExplainerVideo(d)))
    else Outcome(1, None)
  }

  /** The dispatch: which renderer a script type selects. */
  lemma Dispatch(d: ScriptData, rendered: bool)
    ensures d.kind.None? ==> CreateVideo(d, rendered).video == Some(RankingVideo(d))
    ensures d.kind == Some("vs_battle") ==> CreateVideo(d, rendered).video == Some(VsVideo(d))
    ensures d.kind == Some("explainer") ==> CreateVideo(d, rendered).video == Some(ExplainerVideo(d))
    ensures d.kind.Some? && d.kind.value != "ranking" && d.kind.value != "vs_battle" && d.kind.value != "explainer"
      ==> CreateVideo(d, rendered) == Outcome(1, None)
  {
  }
}
