/** The generic TikTok script generator (`generate_script` and the three builders it dispatches to). */
module TikTokScript {
  import opened Wrappers
  import opened Text
  import opened Formatting

  datatype ListItem = ListItem(rank: int, title: string, description: string, duration: int)

  datatype Pick = Pick(title: string, why: string, duration: int)

  datatype Captions = Captions(font: string, color: string, stroke: string, animation: string)

  /** The three script shapes; the `type` field of each is given by `Kind`. */
  datatype Script =
    | Listicle(title: string, hook: string, items: seq<ListItem>, outro: string, totalDuration: int, captions: Captions)
    | Commentary(topic: string, hook: string, points: seq<string>, opinion: string, outro: string,
                 totalDuration: int, captions: Captions)
    | Recommendation(title: string, hook: string, criteria: string, picks: seq<Pick>, outro: string,
                     totalDuration: int, captions: Captions)

  /** The script's `type` field. */
  function Kind(s: Script): string {
    match s
    case Listicle(_, _, _, _, _, _) => "listicle"
    case Commentary(_, _, _, _, _, _, _) => "commentary"
    case Recommendation(_, _, _, _, _, _, _) => "recommendation"
  }

  /** `HOOK_TEMPLATES`. */
  const HookTemplates: seq<Pattern> := [
    [Lit("Stop scrolling if you love "), Field("topic"), Lit("...")],
    [Lit("These "), Field("count"), Lit(" "), Field("topic"), Lit(" broke the internet")],
    [Lit("POV: You just discovered "), Field("topic")],
    [Lit("Nobody talks about "), Field("topic"), Lit(" but...")],
    [Lit("If you haven't seen "), Field("topic"), Lit(", we can't be friends")],
    [Lit("Ranking "), Field("topic"), Lit(" from worst to best")],
    [Lit("The "), Field("topic"), Lit(" that changed everything")],
    [Lit("Underrated "), Field("topic"), Lit(" that deserve more love")]
  ]

  /** `OUTRO_TEMPLATES`. */
  const OutroTemplates: seq<string> := [
    "Which one is your favorite? Comment below!",
    "Did I miss any? Let me know!",
    "Follow for more anime content!",
    "Part 2? \U{1F440}",
    "Agree or disagree? Drop a comment!",
    "Tag someone who needs to see this!"
  ]

  /** Every hook names the topic, and only topic and count are used. */
  predicate HookShape(p: Pattern) {
    && (forall i :: 0 <= i < |p| && p[i].Field? ==> p[i].name == "topic" || p[i].name == "count")
    && HasField(p, "topic")
  }

  lemma HooksShaped(pick: nat)
    requires pick < |HookTemplates|
    ensures HookShape(HookTemplates[pick])
  {
    var p := HookTemplates[pick];
    if pick == 1 {
      assert p[3] == Field("topic");
    } else if pick == 0 || pick == 3 || pick == 4 || pick == 5 || pick == 6 || pick == 7 {
      assert p[1] == Field("topic");
    } else {
      assert p[1] == Field("topic");
    }
  }

  /** `generate_hook`: `random.choice(HOOK_TEMPLATES)` is the template at index `pick`, formatted with `count=5`. */
  function Hook(topic: string, pick: nat): string
    requires pick < |HookTemplates|
  {
    HooksShaped(pick);
    Format(HookTemplates[pick], map["topic" := topic, "count" := "5"]).value
  }

  /** Whichever template is picked, the hook shows the topic. */
  lemma HookShowsTopic(topic: string, pick: nat)
    requires pick < |HookTemplates|
    ensures Contains(Hook(topic, pick), topic)
  {
    HooksShaped(pick);
    FieldContained(HookTemplates[pick], map["topic" := topic, "count" := "5"], "topic");
  }

  const ListicleItems: seq<ListItem> := [
    ListItem(5, "The one that started it all",
      "You know this one had to be on the list. The original that set the standard for everything that came after.", 8),
    ListItem(4, "The emotional one",
      "This hit different. The animation, the music, the stakes. Everything peaked right here.", 8),
    ListItem(3, "The fan favorite",
      "Ask any fan and they will bring this up immediately. Iconic is an understatement.", 8),
    ListItem(2, "The controversial pick",
      "I know some of you will disagree, but you cannot deny the impact this had on the community.", 8),
    ListItem(1, "The GOAT", "Number one and it is not even close. This is what perfection looks like.", 10)
  ]

  /** `generate_listicle_script`; the two random choices are the indices `hookPick` and `outroPick`. */
  function ListicleScript(topic: string, hookPick: nat, outroPick: nat): Script
    requires hookPick < |HookTemplates| && outroPick < |OutroTemplates|
  {
    Listicle("Top 5 " + topic, Hook(topic, hookPick), ListicleItems, OutroTemplates[outroPick], 45,
      Captions("bold", "white", "black", "pop-in"))
  }

  /** `generate_commentary_script`. */
  function CommentaryScript(topic: string, outroPick: nat): Script
    requires outroPick < |OutroTemplates|
  {
    Commentary(topic, "Unpopular opinion about " + topic + "...",
      ["Let me explain why I think this way", "The evidence is right there if you look",
       "Most fans miss this crucial detail", "It all makes sense when you connect the dots"],
      "At the end of the day, " + topic + " is more complex than people give it credit for.",
      OutroTemplates[outroPick], 45, Captions("bold", "yellow", "black", "typewriter"))
  }

  /** `generate_recommendation_script`. */
  function RecommendationScript(topic: string, outroPick: nat): Script
    requires outroPick < |OutroTemplates|
  {
    Recommendation("If you love " + topic + ", watch these",
      "Loved " + topic + "? Here are 3 anime that hit the same",
      "Similar vibes, animation quality, and emotional impact",
      [Pick("Recommendation 1", "Same energy, different story", 12),
       Pick("Recommendation 2", "Fans of the original love this one", 12),
       Pick("Recommendation 3", "The hidden gem you missed", 12)],
      OutroTemplates[outroPick], 45, Captions("bold", "cyan", "black", "slide-up"))
  }

  /** The optional `--template` file: absent, naming no file, or a file holding valid or malformed JSON. */
  datatype TemplateFile = NoFile | NotFound | ValidJson | MalformedJson

  /** `generate_script(topic, style, template_file)`. A template file is read and then ignored;
      `None` is the exception `json.load` raises on a malformed one. */
  function GenerateScript(topic: string, style: string, file: TemplateFile, hookPick: nat, outroPick: nat): (r: Option<Script>)
    requires hookPick < |HookTemplates| && outroPick < |OutroTemplates|
    ensures r.None? <==> file == MalformedJson
  {
    if file == MalformedJson then None
    else if style == "listicle" then Some(ListicleScript(topic, hookPick, outroPick))
    else if style == "ranking" then Some(ListicleScript(topic, hookPick, outroPick))
    else if style == "commentary" then Some(CommentaryScript(topic, outroPick))
    else if style == "recommendation" then Some(RecommendationScript(topic, outroPick))
    else Some(ListicleScript(topic, hookPick, outroPick))
  }

  /** `listicle`, `ranking` and any unknown style give the listicle; `commentary` and `recommendation` their own
      scripts. */
  lemma ScriptKinds(topic: string, style: string, hookPick: nat, outroPick: nat)
    requires hookPick < |HookTemplates| && outroPick < |OutroTemplates|
    ensures var r := GenerateScript(topic, style, NoFile, hookPick, outroPick).value;
      && (r.Commentary? <==> style == "commentary")
      && (r.Recommendation? <==> style == "recommendation")
      && (r.Listicle? <==> style != "commentary" && style != "recommendation")
  {
  }

  /** Every style claims 45 seconds, whatever its items add up to. */
  lemma AlwaysFortyFive(topic: string, style: string, hookPick: nat, outroPick: nat)
    requires hookPick < |HookTemplates| && outroPick < |OutroTemplates|
    ensures GenerateScript(topic, style, NoFile, hookPick, outroPick).value.totalDuration == 45
  {
  }

  /** A template file that loads has no effect on the script. */
  lemma TemplateFileIgnored(topic: string, style: string, file: TemplateFile, hookPick: nat, outroPick: nat)
    requires hookPick < |HookTemplates| && outroPick < |OutroTemplates|
    requires file != MalformedJson
    ensures GenerateScript(topic, style, file, hookPick, outroPick) == GenerateScript(topic, style, NoFile, hookPick, outroPick)
  {
  }

  /** The listicle counts down: five items ranked 5, 4, 3, 2, 1, the last one the longest. */
  lemma ListicleCountsDown(topic: string, style: string, hookPick: nat, outroPick: nat)
    requires hookPick < |HookTemplates| && outroPick < |OutroTemplates|
    requires style != "commentary" && style != "recommendation"
    ensures var r := GenerateScript(topic, style, NoFile, hookPick, outroPick).value;
      r.Listicle? && |r.items| == 5 && forall i :: 0 <= i < 5 ==> r.items[i].rank == 5 - i
  {
  }

  /** The hook is one of the hook templates filled with the topic and a count of 5, and always shows the topic;
      the outro is one of the outro templates. */
  lemma ListicleHookAndOutro(topic: string, hookPick: nat, outroPick: nat)
    requires hookPick < |HookTemplates| && outroPick < |OutroTemplates|
    ensures var r := GenerateScript(topic, "listicle", NoFile, hookPick, outroPick).value;
      && (exists i :: 0 <= i < |HookTemplates| && Some(r.hook) == Format(HookTemplates[i], map["topic" := topic, "count" := "5"]))
      && Contains(r.hook, topic)
      && r.outro in OutroTemplates
  {
    var r := GenerateScript(topic, "listicle", NoFile, hookPick, outroPick).value;
    HookShowsTopic(topic, hookPick);
    assert Some(r.hook) == Format(HookTemplates[hookPick], map["topic" := topic, "count" := "5"]);
  }

  /** The second hook template is the one that shows the count. */
  lemma CountHook(topic: string, outroPick: nat)
    requires outroPick < |OutroTemplates|
    ensures GenerateScript(topic, "listicle", NoFile, 1, outroPick).value.hook
      == "These 5 " + topic + " broke the internet"
  {
    var p := HookTemplates[1];
    var args := map["topic" := topic, "count" := "5"];
    var tail := " broke the internet";
    assert Format(p[4..], args) == Some(tail) by {
      assert p[4..][1..] == [];
      assert tail + "" == tail;
    }
    assert p[3..][1..] == p[4..];
    assert Format(p[3..], args) == Some(topic + tail);
    assert p[2..][1..] == p[3..];
    assert Format(p[2..], args) == Some(" " + (topic + tail));
    assert p[1..][1..] == p[2..];
    assert Format(p[1..], args) == Some("5" + (" " + (topic + tail)));
    assert Format(p, args) == Some("These " + ("5" + (" " + (topic + tail))));
    assert "These " + ("5" + (" " + (topic + tail))) == "These 5 " + topic + tail;
  }
}
