/**
 * The recipe-to-shopping-list converter (`recipe_to_list.py`): an ordered filter over the
 * recipe's lines picks out ingredient lines, and a first-match keyword table gives each
 * ingredient an emoji for its reminder title.
 */
module Recipe {
  import opened Wrappers
  import opened Text

  // ---------------------------------------------------------------------------
  // The line filter

  const SkipWords: seq<string> :=
    ["instructions", "directions", "method", "steps", "prep", "cook", "servings", "serves"]

  /** The characters `lstrip('-•* ')` removes. */
  const BulletChars: set<char> := {'-', '\U{2022}', '*', ' '}

  /** Python `line[:3]`. */
  function Head3(s: string): (r: string)
    ensures |r| == if |s| < 3 then |s| else 3
    ensures r == s[..|r|]
  {
    if |s| < 3 then s else s[..3]
  }

  /** A section header such as "Ingredients:". */
  predicate IsHeader(line: string) {
    EndsWith(line, ":")
  }

  /** A numbered step such as "1. Heat oil" or "2) Stir". */
  predicate IsStep(line: string) {
    line != "" && IsDigit(line[0]) && ('.' in Head3(line) || ')' in Head3(line))
  }

  /** The line mentions a skip word, ignoring case. */
  predicate HasSkipWord(line: string) {
    ContainsAny(Lower(line), SkipWords)
  }

  /** `line.lstrip('-•* ').strip()` */
  function Clean(line: string): string {
    PyStrip(TrimStart(line, BulletChars))
  }

  /**
   * One raw line through the filter: stripped, then dropped if blank, a header, a step or
   * mentioning a skip word; otherwise its bullet is cleaned off and it is kept if longer
   * than two characters.
   */
  function Ingredient(raw: string): (r: Option<string>)
    ensures var line := PyStrip(raw);
      r.None? <==> line == "" || IsHeader(line) || IsStep(line) || HasSkipWord(line) || |Clean(line)| <= 2
    ensures r.Some? ==> r.value == Clean(PyStrip(raw)) && |r.value| > 2
  {
    var line := PyStrip(raw);
    if line == "" || IsHeader(line) then None
    else if IsStep(line) then None
    else if HasSkipWord(line) then None
    else
      var ingredient := Clean(line);
      if |ingredient| > 2 then Some(ingredient) else None
  }

  /** The kept lines, in their original order. */
  function Ingredients(lines: seq<string>): (r: seq<string>)
    ensures |r| <= |lines|
  {
    if lines == [] then []
    else
      match Ingredient(lines[0])
      case Some(x) => [x] + Ingredients(lines[1..])
      case None => Ingredients(lines[1..])
  }

  /** `recipe_text.strip().split('\n')` filtered line by line. */
  function RecipeIngredients(text: string): seq<string> {
    Ingredients(Split(PyStrip(text), '\n'))
  }

  /** The filter works line by line: the ingredients of two runs of lines are those of each, in order. */
  lemma {:induction false} IngredientsAppend(a: seq<string>, b: seq<string>)
    ensures Ingredients(a + b) == Ingredients(a) + Ingredients(b)
    decreases |a|
  {
    if a == [] {
      assert a + b == b;
    } else {
      assert (a + b)[0] == a[0] && (a + b)[1..] == a[1..] + b;
      IngredientsAppend(a[1..], b);
    }
  }

  /** Every kept ingredient comes from some line, through the filter. */
  lemma {:induction false} IngredientsFromLines(lines: seq<string>, x: string)
    requires x in Ingredients(lines)
    ensures exists i :: 0 <= i < |lines| && Ingredient(lines[i]) == Some(x)
    decreases |lines|
  {
    if Ingredient(lines[0]) != Some(x) {
      IngredientsFromLines(lines[1..], x);
      var i :| 0 <= i < |lines| - 1 && Ingredient(lines[1..][i]) == Some(x);
      assert Ingredient(lines[i + 1]) == Some(x);
    }
  }

  /** Where the cleaned text sits in a stripped line: inside it, and ending where it ends. */
  lemma CleanPosition(line: string) returns (p: nat)
    requires Trimmed(line, PyWhitespace)
    ensures OccursAt(line, Clean(line), p)
    ensures Clean(line) != "" ==> p + |Clean(line)| == |line|
  {
    p := TrimAfterStart(line, BulletChars, PyWhitespace);
  }

  /** A skip word inside a piece of a line is a skip word in the line. */
  lemma SkipWordInfix(line: string, x: string, p: nat)
    requires OccursAt(line, x, p) && HasSkipWord(x)
    ensures HasSkipWord(line)
  {
    LowerContainsAnyInfix(line, x, p, SkipWords);
  }

  /** The cleaned text of a line without skip words has none either. */
  lemma CleanHasNoSkipWord(line: string)
    requires Trimmed(line, PyWhitespace) && !HasSkipWord(line)
    ensures !HasSkipWord(Clean(line))
  {
    var p := CleanPosition(line);
    if HasSkipWord(Clean(line)) {
      SkipWordInfix(line, Clean(line), p);
    }
  }

  /** The cleaned text of a line that is not a header is not one either: both end alike. */
  lemma CleanIsNoHeader(line: string)
    requires Trimmed(line, PyWhitespace) && !IsHeader(line)
    ensures !IsHeader(Clean(line))
  {
    var p := CleanPosition(line);
    if Clean(line) != "" {
      EndsWithTail(line, Clean(line), p, ":");
    }
  }

  /** A kept ingredient is a piece of its line, so it cannot carry a skip word or end a header. */
  lemma IngredientInsideLine(raw: string) returns (p: nat)
    requires Ingredient(raw).Some?
    ensures OccursAt(PyStrip(raw), Ingredient(raw).value, p)
    ensures !HasSkipWord(Ingredient(raw).value) && !IsHeader(Ingredient(raw).value)
  {
    p := CleanPosition(PyStrip(raw));
    CleanHasNoSkipWord(PyStrip(raw));
    CleanIsNoHeader(PyStrip(raw));
  }

  // ---------------------------------------------------------------------------
  // The emoji classifier

  datatype Category = Category(emoji: char, words: seq<string>)

  /** The categories in the order they are tried. */
  const Categories: seq<Category> := [
    Category('\U{1F95B}', ["milk", "cheese", "butter", "cream", "yogurt"]),
    Category('\U{1F35E}', ["bread", "roll", "bun", "bagel"]),
    Category('\U{1F95A}', ["egg"]),
    Category('\U{1F969}', ["chicken", "beef", "pork", "mince", "steak"]),
    Category('\U{1F35D}', ["pasta", "spaghetti", "noodle"]),
    Category('\U{1F96C}', ["tomato", "lettuce", "carrot", "onion", "garlic", "potato", "vegetable"]),
    Category('\U{1F34E}', ["apple", "banana", "orange", "fruit"]),
    Category('\U{1FAD2}', ["oil", "olive"]),
    Category('\U{1F9C2}', ["salt", "pepper", "spice", "herb"]),
    Category('\U{1F96B}', ["sauce", "ketchup", "mustard", "mayo"]),
    Category('\U{1F35A}', ["rice"]),
    Category('\U{1F961}', ["sugar", "flour", "baking"])
  ]

  const Cart: char := '\U{1F6D2}'

  /** Some word of `c` occurs in the lower-cased item. */
  predicate Hits(c: Category, itemLower: string) {
    ContainsAny(itemLower, c.words)
  }

  /** Index of the first category from `from` on that the item hits, if any. */
  function FirstHit(itemLower: string, from: nat): (r: Option<nat>)
    ensures r.Some? ==> from <= r.value < |Categories| && Hits(Categories[r.value], itemLower)
    ensures r.Some? ==> forall j :: from <= j < r.value ==> !Hits(Categories[j], itemLower)
    ensures r.None? ==> forall j :: from <= j < |Categories| ==> !Hits(Categories[j], itemLower)
    decreases |Categories| - from
  {
    if from >= |Categories| then None
    else if Hits(Categories[from], itemLower) then Some(from)
    else FirstHit(itemLower, from + 1)
  }

  /** The emoji of the first category with a case-insensitive hit, or the cart. */
  function EmojiFor(item: string): char {
    match FirstHit(Lower(item), 0)
    case Some(j) => Categories[j].emoji
    case None => Cart
  }

  /**
   * The cart exactly when no category is hit; otherwise the emoji of a hit category that
   * no earlier category precedes.
   */
  lemma EmojiForFirstHit(item: string)
    ensures EmojiFor(item) == Cart <==> forall j :: 0 <= j < |Categories| ==> !Hits(Categories[j], Lower(item))
    ensures EmojiFor(item) != Cart ==>
      exists j :: 0 <= j < |Categories| && EmojiFor(item) == Categories[j].emoji && Hits(Categories[j], Lower(item))
        && forall i :: 0 <= i < j ==> !Hits(Categories[i], Lower(item))
  {
    match FirstHit(Lower(item), 0)
    case Some(j) =>
      assert Categories[j].emoji != Cart;
    case None =>
  }

  /** The reminder's title. */
  function Title(item: string): string {
    [EmojiFor(item)] + " " + item
  }

  /** The title is the item's emoji and a space before the item itself, which can be read back. */
  lemma TitleShape(item: string)
    ensures var t := Title(item);
      |t| == |item| + 2 && t[0] == EmojiFor(item) && t[1] == ' ' && t[2..] == item
  {
  }

  /** The ordering matters: "minced" hits the meat row before "garlic" reaches the vegetable row. */
  lemma GarlicMincedIsMeat(item: string)
    requires item == "2 cloves garlic, minced"
    ensures EmojiFor(item) == '\U{1F969}'
  {
    GarlicLower(item);
    GarlicFirstHit(Lower(item));
  }

  lemma GarlicLower(item: string)
    requires item == "2 cloves garlic, minced"
    ensures Lower(item) == item
  {
    forall i | 0 <= i < |item|
      ensures Lower(item)[i] == item[i]
    {
      assert !('A' <= item[i] <= 'Z');
    }
  }

  lemma GarlicFirstHit(l: string)
    requires l == "2 cloves garlic, minced"
    ensures FirstHit(l, 0) == Some(3)
  {
    MincedHit(l);
    NoMeatlessHit0(l);
    NoMeatlessHit1(l);
    NoMeatlessHit2(l);
  }

  lemma MincedHit(l: string)
    requires l == "2 cloves garlic, minced"
    ensures Hits(Categories[3], l)
  {
    assert l[17..22] == "mince";
    assert OccursAt(l, "mince", 17);
    assert Categories[3].words[3] == "mince";
  }

  /** A character missing from `l` rules out every word containing it. */
  lemma AbsentChar(l: string, w: string, j: nat)
    requires j < |w| && w[j] !in l
    ensures !Contains(l, w)
  {
  }

  /** An occurrence of `w` puts each adjacent pair of its characters somewhere in `l`. */
  lemma PairAt(l: string, w: string, j: nat) returns (i: nat)
    requires Contains(l, w) && j + 1 < |w|
    ensures i + 1 < |l| && l[i] == w[j] && l[i + 1] == w[j + 1]
  {
    var k := IndexOf(l, w).value;
    assert l[k..k + |w|] == w;
    i := k + j;
  }

  /** Where 'r' and 'g' sit in the example. */
  lemma GarlicLetters(l: string)
    requires l == "2 cloves garlic, minced"
    ensures forall i :: 0 <= i < |l| && l[i] == 'r' ==> i == 11
    ensures forall i :: 0 <= i < |l| && l[i] == 'g' ==> i == 9
  {
  }

  lemma NoMeatlessHit0(l: string)
    requires l == "2 cloves garlic, minced"
    ensures !Hits(Categories[0], l)
  {
    NotMilkCheese(l);
    NotButterYogurt(l);
    NotCream(l);
    assert Categories[0].words == ["milk", "cheese", "butter", "cream", "yogurt"];
  }

  lemma NotMilkCheese(l: string)
    requires l == "2 cloves garlic, minced"
    ensures !Contains(l, "milk") && !Contains(l, "cheese")
  {
    AbsentChar(l, "milk", 3);
    AbsentChar(l, "cheese", 1);
  }

  lemma NotButterYogurt(l: string)
    requires l == "2 cloves garlic, minced"
    ensures !Contains(l, "butter") && !Contains(l, "yogurt")
  {
    AbsentChar(l, "butter", 0);
    AbsentChar(l, "yogurt", 0);
  }

  lemma NotCream(l: string)
    requires l == "2 cloves garlic, minced"
    ensures !Contains(l, "cream")
  {
    GarlicLetters(l);
    if Contains(l, "cream") {
      var i := PairAt(l, "cream", 0);
    }
  }

  lemma NoMeatlessHit1(l: string)
    requires l == "2 cloves garlic, minced"
    ensures !Hits(Categories[1], l)
  {
    AbsentChar(l, "bread", 0);
    AbsentChar(l, "bun", 0);
    AbsentChar(l, "bagel", 0);
    NotRoll(l);
    assert Categories[1].words == ["bread", "roll", "bun", "bagel"];
  }

  lemma NotRoll(l: string)
    requires l == "2 cloves garlic, minced"
    ensures !Contains(l, "roll")
  {
    GarlicLetters(l);
    if Contains(l, "roll") {
      var i := PairAt(l, "roll", 0);
    }
  }

  lemma NoMeatlessHit2(l: string)
    requires l == "2 cloves garlic, minced"
    ensures !Hits(Categories[2], l)
  {
    GarlicLetters(l);
    if Contains(l, "egg") {
      var i := PairAt(l, "egg", 1);
    }
    assert Categories[2].words == ["egg"];
  }

  // ---------------------------------------------------------------------------
  // recipe_to_shopping_list

  /** The number of `true`s among the first `n` outcomes; a missing outcome counts as a failure. */
  function Successes(ok: seq<bool>, n: nat): (c: nat)
    ensures c <= n
  {
    if n == 0 then 0 else Successes(ok, n - 1) + (if n - 1 < |ok| && ok[n - 1] then 1 else 0)
  }

  /**
   * The loop over the ingredients: `ok[i]` is whether the reminders command for the i-th
   * call succeeded. Returns the titles handed to the command and how many were added.
   */
  method AddAll(ings: seq<string>, ok: seq<bool>) returns (titles: seq<string>, added: nat)
    ensures |titles| == |ings| && forall i :: 0 <= i < |ings| ==> titles[i] == Title(ings[i])
    ensures added == Successes(ok, |ings|) && added <= |ings|
  {
    titles := [];
    added := 0;
    var i := 0;
    while i < |ings|
      invariant 0 <= i <= |ings|
      invariant |titles| == i
      invariant forall j :: 0 <= j < i ==> titles[j] == Title(ings[j])
      invariant added == Successes(ok, i)
    {
      var t := Title(ings[i]);
      ghost var before := titles;
      titles := titles + [t];
      assert forall j :: 0 <= j < i ==> titles[j] == before[j];
      if i < |ok| && ok[i] {
        added := added + 1;
      }
      i := i + 1;
    }
  }

  /** `recipe_to_shopping_list`: nothing is added when no ingredient is found. */
  method ToShoppingList(text: string, ok: seq<bool>) returns (titles: seq<string>, added: nat)
    ensures var ings := RecipeIngredients(text);
      && |titles| == |ings|
      && (forall i :: 0 <= i < |ings| ==> titles[i] == Title(ings[i]))
      && added == Successes(ok, |ings|) && added <= |ings|
    ensures RecipeIngredients(text) == [] ==> titles == [] && added == 0
  {
    var ings := RecipeIngredients(text);
    if ings == [] {
      return [], 0;
    }
    titles, added := AddAll(ings, ok);
  }
}
