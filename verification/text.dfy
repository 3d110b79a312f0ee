/** Character classes and string operations shared by the JavaScript and Python code. */
module Text {
  import opened Wrappers

  /** ASCII decimal digit: JavaScript's `\d`, and Python's `isdigit`/`\d` restricted to ASCII. */
  predicate IsDigit(c: char) {
    '0' <= c <= '9'
  }

  predicate AllDigits(s: string) {
    forall i :: 0 <= i < |s| ==> IsDigit(s[i])
  }

  /** The characters JavaScript's `String.prototype.trim` removes (WhiteSpace and LineTerminator). */
  const JsWhitespace: set<char> := {
    '\t', '\n', '\U{000B}', '\U{000C}', '\r', ' ', '\U{00A0}', '\U{1680}',
    '\U{2000}', '\U{2001}', '\U{2002}', '\U{2003}', '\U{2004}', '\U{2005}',
    '\U{2006}', '\U{2007}', '\U{2008}', '\U{2009}', '\U{200A}',
    '\U{2028}', '\U{2029}', '\U{202F}', '\U{205F}', '\U{3000}', '\U{FEFF}'
  }

  /** The characters Python's argument-less `str.strip` removes (those for which `isspace` holds). */
  const PyWhitespace: set<char> := {
    '\t', '\n', '\U{000B}', '\U{000C}', '\r',
    '\U{001C}', '\U{001D}', '\U{001E}', '\U{001F}', ' ', '\U{0085}', '\U{00A0}', '\U{1680}',
    '\U{2000}', '\U{2001}', '\U{2002}', '\U{2003}', '\U{2004}', '\U{2005}',
    '\U{2006}', '\U{2007}', '\U{2008}', '\U{2009}', '\U{200A}',
    '\U{2028}', '\U{2029}', '\U{202F}', '\U{205F}', '\U{3000}'
  }

  /** Removes the longest prefix made of characters in `ws`. */
  function TrimStart(s: string, ws: set<char>): (r: string)
    ensures |r| <= |s| && r == s[|s| - |r|..]
    ensures |r| > 0 ==> r[0] !in ws
    ensures forall i :: 0 <= i < |s| - |r| ==> s[i] in ws
  {
    if |s| > 0 && s[0] in ws then TrimStart(s[1..], ws) else s
  }

  /** Removes the longest suffix made of characters in `ws`. */
  function TrimEnd(s: string, ws: set<char>): (r: string)
    ensures |r| <= |s| && r == s[..|r|]
    ensures |r| > 0 ==> r[|r| - 1] !in ws
    ensures forall i :: |r| <= i < |s| ==> s[i] in ws
  {
    if |s| > 0 && s[|s| - 1] in ws then TrimEnd(s[..|s| - 1], ws) else s
  }

  /** Removes leading and trailing characters in `ws`; `trim()` and `strip()` are instances. */
  function Trim(s: string, ws: set<char>): (r: string)
    ensures |r| <= |s|
    ensures |r| > 0 ==> r[0] !in ws && r[|r| - 1] !in ws
  {
    TrimEnd(TrimStart(s, ws), ws)
  }

  /** Trimming leaves nothing exactly when every character is in `ws`. */
  lemma TrimEmpty(s: string, ws: set<char>)
    ensures Trim(s, ws) == "" <==> forall i :: 0 <= i < |s| ==> s[i] in ws
  {
  }

  /** Where the trimmed string sits: after a prefix made only of characters in `ws`. */
  lemma TrimPosition(s: string, ws: set<char>) returns (k: nat)
    ensures OccursAt(s, Trim(s, ws), k)
    ensures forall i :: 0 <= i < k ==> s[i] in ws
    ensures forall i :: k + |Trim(s, ws)| <= i < |s| ==> s[i] in ws
  {
    var t := TrimStart(s, ws);
    var r := TrimEnd(t, ws);
    k := |s| - |t|;
    assert s[k..k + |r|] == t[..|r|];
  }

  /** `s` has nothing to trim at either end. */
  predicate Trimmed(s: string, ws: set<char>) {
    s == "" || (s[0] !in ws && s[|s| - 1] !in ws)
  }

  /** Trimming leaves an already trimmed string alone. */
  lemma TrimTrimmed(s: string, ws: set<char>)
    requires Trimmed(s, ws)
    ensures Trim(s, ws) == s
  {
    assert TrimStart(s, ws) == s;
  }

  /** A leading character in `ws` is trimmed away. */
  lemma TrimLeading(c: char, s: string, ws: set<char>)
    requires c in ws
    ensures Trim([c] + s, ws) == Trim(s, ws)
  {
    assert ([c] + s)[1..] == s;
  }

  /** The result of trimming has nothing left to trim. */
  lemma TrimIsTrimmed(s: string, ws: set<char>)
    ensures Trimmed(Trim(s, ws), ws)
  {
  }

  /** A character absent from `s` is absent from its trimmed form. */
  lemma NotInTrim(s: string, ws: set<char>, c: char)
    requires c !in s
    ensures c !in Trim(s, ws)
  {
    var k := TrimPosition(s, ws);
    var r := Trim(s, ws);
    forall j | 0 <= j < |r|
      ensures r[j] != c
    {
      assert r[j] == s[k..k + |r|][j];
    }
  }

  /** A first character outside `ws` stays first. */
  lemma TrimFirst(s: string, ws: set<char>)
    requires |s| > 0 && s[0] !in ws
    ensures |Trim(s, ws)| > 0 && Trim(s, ws)[0] == s[0]
  {
    assert TrimStart(s, ws) == s;
    TrimEmpty(s, ws);
  }

  /** A trimmed string whose first character is kept cannot start with a prefix that begins differently. */
  lemma TrimNotStartsWith(s: string, ws: set<char>, prefix: string)
    requires |s| > 0 && s[0] !in ws && |prefix| > 0 && s[0] != prefix[0]
    ensures !StartsWith(Trim(s, ws), prefix)
  {
    TrimFirst(s, ws);
    var r := Trim(s, ws);
    if |prefix| <= |r| {
      assert r[..|prefix|][0] == r[0];
    }
  }

  /** Trimming a suffix of a trimmed string gives an infix that ends where the string ends. */
  lemma TrimOfSuffix(s: string, j: nat, t: string, ws: set<char>) returns (p: nat)
    requires Trimmed(s, ws) && j <= |s| && t == s[j..]
    ensures OccursAt(s, Trim(t, ws), p)
    ensures Trim(t, ws) != "" ==> p + |Trim(t, ws)| == |s|
  {
    assert t == [] || t[|t| - 1] == s[|s| - 1];
    var k := TrimOfTrailing(t, ws);
    p := j + k;
    TailOccurs(s, t, j, k, Trim(t, ws));
  }

  /** Stripping `bullets` and then trimming a trimmed string gives an infix that ends where it ends. */
  lemma TrimAfterStart(s: string, bullets: set<char>, ws: set<char>) returns (p: nat)
    requires Trimmed(s, ws)
    ensures OccursAt(s, Trim(TrimStart(s, bullets), ws), p)
    ensures Trim(TrimStart(s, bullets), ws) != "" ==> p + |Trim(TrimStart(s, bullets), ws)| == |s|
  {
    var t := TrimStart(s, bullets);
    p := TrimOfSuffix(s, |s| - |t|, t, ws);
  }

  /** A tail of the suffix starting at `j` occurs in `s` where it starts, and runs to the end. */
  lemma TailOccurs(s: string, t: string, j: nat, k: nat, r: string)
    requires j <= |s| && t == s[j..] && k <= |t| && r == t[k..]
    ensures OccursAt(s, r, j + k) && j + k + |r| == |s|
  {
    assert r == s[j + k..];
  }

  /** When the last character is kept, trimming only removes a prefix. */
  lemma TrimOfTrailing(t: string, ws: set<char>) returns (k: nat)
    requires t == [] || t[|t| - 1] !in ws
    ensures k <= |t| && Trim(t, ws) == t[k..]
  {
    var u := TrimStart(t, ws);
    k := |t| - |u|;
    assert TrimEnd(u, ws) == u;
  }

  /** An occurrence in a suffix of `s` is an occurrence in `s`, shifted. */
  lemma OccursInSuffix(s: string, j: nat, x: string, k: nat)
    requires j <= |s| && OccursAt(s[j..], x, k)
    ensures OccursAt(s, x, j + k)
  {
    assert s[j + k..j + k + |x|] == s[j..][k..k + |x|];
  }

  /** Cutting a string at two positions and gluing the pieces back gives the string. */
  lemma CutTwice(s: string, k: nat, m: nat)
    requires k <= m <= |s|
    ensures s == s[..k] + (s[k..m] + s[m..])
  {
    assert s[k..] == s[k..m] + s[m..];
    assert s == s[..k] + s[k..];
  }

  /** JavaScript `s.trim()`. */
  function JsTrim(s: string): string {
    Trim(s, JsWhitespace)
  }

  /** Python `s.strip()`. */
  function PyStrip(s: string): string {
    Trim(s, PyWhitespace)
  }

  predicate StartsWith(s: string, prefix: string) {
    |prefix| <= |s| && s[..|prefix|] == prefix
  }

  predicate EndsWith(s: string, suffix: string) {
    |suffix| <= |s| && s[|s| - |suffix|..] == suffix
  }

  /** An infix that runs to the end of `s` ends the way `s` does. */
  lemma EndsWithTail(s: string, x: string, p: nat, suffix: string)
    requires OccursAt(s, x, p) && p + |x| == |s| && |suffix| <= |x|
    ensures EndsWith(x, suffix) <==> EndsWith(s, suffix)
  {
    assert x[|x| - |suffix|..] == s[|s| - |suffix|..];
  }

  /** `sub` occurs in `s` starting at index `i`. */
  predicate OccursAt(s: string, sub: string, i: int) {
    0 <= i && i + |sub| <= |s| && s[i..i + |sub|] == sub
  }

  /** The leftmost occurrence of `sub` in `s` at or after `from`. */
  function IndexFrom(s: string, sub: string, from: nat): (r: Option<nat>)
    ensures r.Some? ==> from <= r.value && OccursAt(s, sub, r.value)
    ensures r.Some? ==> forall j :: from <= j < r.value ==> !OccursAt(s, sub, j)
    ensures r.None? ==> forall j :: from <= j ==> !OccursAt(s, sub, j)
    decreases |s| - from
  {
    if from + |sub| > |s| then None
    else if s[from..from + |sub|] == sub then Some(from)
    else IndexFrom(s, sub, from + 1)
  }

  /** JavaScript `s.indexOf(sub)` / Python `s.find(sub)`, as an option. */
  function IndexOf(s: string, sub: string): (r: Option<nat>)
    ensures r.Some? ==> OccursAt(s, sub, r.value)
    ensures r.Some? ==> forall j :: 0 <= j < r.value ==> !OccursAt(s, sub, j)
    ensures r.None? ==> forall j :: !OccursAt(s, sub, j)
  {
    IndexFrom(s, sub, 0)
  }

  /** Before the leftmost occurrence of a non-empty `sub` there is no occurrence of it. */
  lemma NoneBeforeFirst(s: string, sub: string, q: nat)
    requires IndexOf(s, sub) == Some(q)
    ensures |sub| > 0 ==> !Contains(s[..q], sub)
  {
    if |sub| > 0 && Contains(s[..q], sub) {
      var j := IndexOf(s[..q], sub).value;
      assert s[..q][j..j + |sub|] == s[j..j + |sub|];
      assert OccursAt(s, sub, j);
    }
  }

  /** JavaScript `s.includes(sub)` / Python `sub in s`. */
  predicate Contains(s: string, sub: string)
  {
    IndexOf(s, sub).Some?
  }

  lemma ContainsIff(s: string, sub: string)
    ensures Contains(s, sub) <==> exists i :: OccursAt(s, sub, i)
  {
  }

  /** A string contains whatever is written between two other strings. */
  lemma ContainsMiddle(a: string, x: string, b: string)
    ensures Contains(a + x + b, x)
  {
    assert (a + x + b)[|a|..|a| + |x|] == x;
    assert OccursAt(a + x + b, x, |a|);
  }

  /** Text built from fixed parts around three values contains each value. */
  lemma ContainsEachPart(p0: string, x0: string, p1: string, x1: string, p2: string, x2: string, p3: string)
    ensures var t := p0 + x0 + p1 + x1 + p2 + x2 + p3;
      Contains(t, x0) && Contains(t, x1) && Contains(t, x2)
  {
    var t := p0 + x0 + p1 + x1 + p2 + x2 + p3;
    assert t == p0 + x0 + (p1 + x1 + p2 + x2 + p3);
    ContainsMiddle(p0, x0, p1 + x1 + p2 + x2 + p3);
    assert t == p0 + x0 + p1 + x1 + (p2 + x2 + p3);
    ContainsMiddle(p0 + x0 + p1, x1, p2 + x2 + p3);
    ContainsMiddle(p0 + x0 + p1 + x1 + p2, x2, p3);
  }

  /** An occurrence of `sub` inside an infix of `s` is an occurrence in `s`. */
  lemma ContainsInfix(s: string, k: nat, m: nat, sub: string)
    requires k <= m <= |s|
    requires Contains(s[k..m], sub)
    ensures Contains(s, sub)
  {
    var i := IndexOf(s[k..m], sub).value;
    var t := s[k..m];
    assert t[i..i + |sub|] == sub;
    forall j | 0 <= j < |sub|
      ensures s[k + i + j] == sub[j]
    {
      assert s[k + i + j] == t[i + j] == t[i..i + |sub|][j];
    }
    assert s[k + i..k + i + |sub|] == sub;
    assert OccursAt(s, sub, k + i);
  }

  /** Some word of `words` occurs in `s`. */
  predicate ContainsAny(s: string, words: seq<string>) {
    exists i :: 0 <= i < |words| && Contains(s, words[i])
  }

  /** A word inside an infix of `s` is a word in `s`. */
  lemma ContainsAnyInfix(s: string, k: nat, m: nat, words: seq<string>)
    requires k <= m <= |s| && ContainsAny(s[k..m], words)
    ensures ContainsAny(s, words)
  {
    var i :| 0 <= i < |words| && Contains(s[k..m], words[i]);
    ContainsInfix(s, k, m, words[i]);
  }

  /** Trimming cannot create an occurrence. */
  lemma NotContainsTrim(s: string, ws: set<char>, sub: string)
    requires !Contains(s, sub)
    ensures !Contains(Trim(s, ws), sub)
  {
    var k := TrimPosition(s, ws);
    var r := Trim(s, ws);
    assert r == s[k..k + |r|];
    if Contains(r, sub) {
      ContainsInfix(s, k, k + |r|, sub);
    }
  }


  /** ASCII lower-casing of one character. */
  function LowerChar(c: char): char {
    if 'A' <= c <= 'Z' then (c as int + 32) as char else c
  }

  /** Lower-casing, restricted to ASCII letters (Python `str.lower`). */
  function Lower(s: string): (r: string)
    ensures |r| == |s|
    ensures forall i :: 0 <= i < |s| ==> r[i] == LowerChar(s[i])
  {
    seq(|s|, i requires 0 <= i < |s| => LowerChar(s[i]))
  }

  /** Lower-casing commutes with taking an infix. */
  lemma LowerInfix(s: string, x: string, p: nat)
    requires OccursAt(s, x, p)
    ensures OccursAt(Lower(s), Lower(x), p)
  {
    assert Lower(s)[p..p + |x|] == Lower(x);
  }

  /** A case-insensitive word inside an infix of `s` is a case-insensitive word in `s`. */
  lemma LowerContainsAnyInfix(s: string, x: string, p: nat, words: seq<string>)
    requires OccursAt(s, x, p) && ContainsAny(Lower(x), words)
    ensures ContainsAny(Lower(s), words)
  {
    LowerInfix(s, x, p);
    var i :| 0 <= i < |words| && Contains(Lower(x), words[i]);
    ContainsInfix(Lower(s), p, p + |x|, words[i]);
  }

  /** `parts` joined with `sep` between consecutive elements (JavaScript/Python `join`). */
  function Join(parts: seq<string>, sep: string): string
  {
    if |parts| == 0 then ""
    else if |parts| == 1 then parts[0]
    else parts[0] + sep + Join(parts[1..], sep)
  }

  /** Python's `xs[:n]`: the first `n` elements, or all of them when there are fewer. */
  function Take<T>(xs: seq<T>, n: nat): (r: seq<T>)
    ensures |r| == if |xs| <= n then |xs| else n
    ensures r == xs[..|r|]
  {
    if |xs| <= n then xs else xs[..n]
  }

  /** Index of the first `c` in `s`. */
  function FirstIndexOf(s: string, c: char): (i: nat)
    requires c in s
    ensures i < |s| && s[i] == c && c !in s[..i]
  {
    if s[0] == c then 0 else 1 + FirstIndexOf(s[1..], c)
  }

  /** The first occurrence is the only position holding `c` with no `c` before it. */
  lemma FirstIndexOfUnique(s: string, c: char)
    requires c in s
    ensures forall i :: 0 <= i < |s| && s[i] == c && c !in s[..i] ==> i == FirstIndexOf(s, c)
  {
  }

  /** Python `s.split(sep)` for a one-character separator. */
  function Split(s: string, sep: char): (r: seq<string>)
    ensures |r| >= 1
    ensures forall i :: 0 <= i < |r| ==> sep !in r[i]
    ensures |r[0]| <= |s| && r[0] == s[..|r[0]|]
    ensures |r[0]| == |s| || s[|r[0]|] == sep
    decreases |s|
  {
    if sep !in s then [s]
    else
      var i := FirstIndexOf(s, sep);
      [s[..i]] + Split(s[i + 1..], sep)
  }

  /** The first piece of a split ends at the first separator. */
  lemma SplitFirst(s: string, sep: char, k: nat)
    requires k < |s| && s[k] == sep && sep !in s[..k]
    ensures Split(s, sep)[0] == s[..k]
  {
  }

  /** Splitting and joining again gives back the original string. */
  lemma {:induction false} JoinSplit(s: string, sep: char)
    ensures Join(Split(s, sep), [sep]) == s
    decreases |s|
  {
    if sep in s {
      var i := FirstIndexOf(s, sep);
      var tail := s[i + 1..];
      JoinSplit(tail, sep);
      JoinCons(s[..i], Split(tail, sep), [sep]);
      assert s[..i] + [sep] + tail == s;
    }
  }

  /** Joining a list of at least two parts puts the separator after the first. */
  lemma JoinCons(head: string, rest: seq<string>, sep: string)
    requires |rest| >= 1
    ensures Join([head] + rest, sep) == head + sep + Join(rest, sep)
  {
    assert ([head] + rest)[1..] == rest;
  }
}
