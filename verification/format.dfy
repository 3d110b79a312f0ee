/** Python `str.format` with keyword arguments, over a format string already split into pieces. */
module Formatting {
  import opened Wrappers
  import opened Text

  /** One piece of a format string: literal text, or a `{name}` replacement field. */
  datatype Piece = Lit(text: string) | Field(name: string)

  type Pattern = seq<Piece>

  /** Every field of `p` has a value in `args`; a field without one makes `str.format` raise `KeyError`. */
  predicate Fills(p: Pattern, args: map<string, string>) {
    forall i :: 0 <= i < |p| && p[i].Field? ==> p[i].name in args
  }

  /** The text one piece contributes, or `None` for a field without a value. */
  function PieceText(x: Piece, args: map<string, string>): Option<string> {
    match x
    case Lit(t) => Some(t)
    case Field(n) => if n in args then Some(args[n]) else None
  }

  /** `p.format(**args)`; `None` stands for the `KeyError`. */
  function Format(p: Pattern, args: map<string, string>): (r: Option<string>)
    ensures r.Some? <==> Fills(p, args)
  {
    if |p| == 0 then Some("")
    else
      var head := PieceText(p[0], args);
      var tail := Format(p[1..], args);
      assert Fills(p, args) <==> head.Some? && Fills(p[1..], args) by {
        if head.Some? && Fills(p[1..], args) {
          forall i | 0 <= i < |p| && p[i].Field?
            ensures p[i].name in args
          {
            if i > 0 {
              assert p[i] == p[1..][i - 1];
            }
          }
        }
      }
      if head.Some? && tail.Some? then Some(head.value + tail.value) else None
  }

  /** The value of every field appears in the formatted text, at the position the field sits. */
  lemma {:induction false} FieldShown(p: Pattern, args: map<string, string>, i: nat) returns (k: nat)
    requires Fills(p, args) && i < |p| && p[i].Field?
    ensures OccursAt(Format(p, args).value, args[p[i].name], k)
    decreases |p|
  {
    var head := PieceText(p[0], args).value;
    var tail := Format(p[1..], args).value;
    var v := args[p[i].name];
    assert Format(p, args).value == head + tail;
    if i == 0 {
      k := 0;
      assert (head + tail)[..|v|] == v;
    } else {
      assert p[1..][i - 1] == p[i];
      var k' := FieldShown(p[1..], args, i - 1);
      k := |head| + k';
      assert (head + tail)[k..k + |v|] == tail[k'..k' + |v|];
    }
  }

  /** `args` and `other` agree on every field `p` names. */
  predicate AgreeOn(p: Pattern, args: map<string, string>, other: map<string, string>) {
    forall i :: 0 <= i < |p| && p[i].Field? ==>
      (p[i].name in args <==> p[i].name in other) && (p[i].name in args ==> args[p[i].name] == other[p[i].name])
  }

  /** The result depends only on the arguments the pattern names: unused keyword arguments are ignored. */
  lemma {:induction false} FormatUsesOnlyFields(p: Pattern, args: map<string, string>, other: map<string, string>)
    requires AgreeOn(p, args, other)
    ensures Format(p, args) == Format(p, other)
    decreases |p|
  {
    if |p| > 0 {
      assert AgreeOn(p[1..], args, other) by {
        forall i | 0 <= i < |p[1..]| && p[1..][i].Field?
          ensures p[1..][i].name in args <==> p[1..][i].name in other
          ensures p[1..][i].name in args ==> args[p[1..][i].name] == other[p[1..][i].name]
        {
          assert p[1..][i] == p[i + 1];
        }
      }
      FormatUsesOnlyFields(p[1..], args, other);
      assert PieceText(p[0], args) == PieceText(p[0], other);
    }
  }

  /** `p` has a `{name}` field. */
  predicate HasField(p: Pattern, name: string) {
    exists i :: 0 <= i < |p| && p[i] == Field(name)
  }

  /** A named field's value is a substring of the formatted text. */
  lemma FieldContained(p: Pattern, args: map<string, string>, name: string)
    requires Fills(p, args) && HasField(p, name)
    ensures name in args && Contains(Format(p, args).value, args[name])
  {
    var i :| 0 <= i < |p| && p[i] == Field(name);
    var k := FieldShown(p, args, i);
    ContainsIff(Format(p, args).value, args[name]);
  }
}
