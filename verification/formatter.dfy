/**
  The formatter: turns the heterogeneous argument list of one Print call into
  a log line and a label set.
 */
module Formatter {
  import opened Wrappers
  import opened Configuration

  /**
    One argument of a Print call, described by its capabilities.
    `rendering` is the value's default textual form; `stringMethod` is the
    result of its `String()` method when it has one; `labelsMethod` is the
    result of its `Labels()` method when it has one. For a value with
    `String()` the default rendering is not used.
   */
  datatype Arg = Arg(rendering: string, stringMethod: Option<string>, labelsMethod: Option<Labels>)

  /** The argument satisfies the `stringer` interface. */
  predicate IsStringer(a: Arg) {
    a.stringMethod.Some?
  }

  /** The argument satisfies `logLabeler`, which embeds `stringer`: both methods are needed. */
  predicate IsLabeler(a: Arg) {
    IsStringer(a) && a.labelsMethod.Some?
  }

  /** The text an argument contributes: its own `String()` if any, else its default rendering. */
  function Text(a: Arg): (r: string)
    ensures IsStringer(a) ==> r == a.stringMethod.value
    ensures !IsStringer(a) ==> r == a.rendering
  {
    if IsStringer(a) then a.stringMethod.value else a.rendering
  }

  function Texts(args: seq<Arg>): seq<string> {
    seq(|args|, i requires 0 <= i < |args| => Text(args[i]))
  }

  /** The labels an argument adds to the record: none unless it is a labeler. */
  function Contribution(a: Arg): Labels {
    if IsLabeler(a) then a.labelsMethod.value else map[]
  }

  /** Argument `a` supplies a value for key `k`. */
  predicate Contributes(a: Arg, k: string) {
    IsLabeler(a) && k in a.labelsMethod.value
  }

  // ---------------------------------------------------------------------------
  // The log line

  /** Texts joined with a single space between neighbours and none at the ends. */
  function SpaceJoin(ts: seq<string>): string
    decreases |ts|
  {
    if |ts| == 0 then "" else if |ts| == 1 then ts[0] else ts[0] + " " + SpaceJoin(ts[1..])
  }

  /** The texts from the first non-empty one onwards. */
  function DropLeadingEmpty(ts: seq<string>): (r: seq<string>)
    ensures |r| <= |ts|
    ensures forall j :: 0 <= j < |r| ==> r[j] == ts[|ts| - |r| + j]
    ensures forall j :: 0 <= j < |ts| - |r| ==> ts[j] == ""
    ensures r == [] || r[0] != ""
    decreases |ts|
  {
    if |ts| == 0 then []
    else if ts[0] == "" then
      var r := DropLeadingEmpty(ts[1..]);
      assert forall j :: 0 <= j < |ts| - |r| ==> ts[j] == "" by {
        forall j | 0 < j < |ts| - |r|
          ensures ts[j] == ""
        {
          assert ts[j] == ts[1..][j - 1];
        }
      }
      r
    else ts
  }

  /** One step of the accumulation loop: an empty accumulator is replaced, otherwise extended. */
  function AppendText(acc: string, t: string): string {
    if acc == "" then t else acc + " " + t
  }

  lemma {:induction false} SpaceJoinAppend(xs: seq<string>, t: string)
    requires |xs| > 0
    ensures SpaceJoin(xs + [t]) == SpaceJoin(xs) + " " + t
    decreases |xs|
  {
    if |xs| == 1 {
      assert (xs + [t])[1..] == [t];
    } else {
      assert (xs + [t])[1..] == xs[1..] + [t];
      SpaceJoinAppend(xs[1..], t);
    }
  }

  lemma {:induction false} DropLeadingEmptyAppend(ts: seq<string>, t: string)
    ensures DropLeadingEmpty(ts + [t]) ==
      if DropLeadingEmpty(ts) == [] then (if t == "" then [] else [t])
      else DropLeadingEmpty(ts) + [t]
    decreases |ts|
  {
    if |ts| == 0 {
      assert ts + [t] == [t];
      assert [t][1..] == [];
    } else if ts[0] == "" {
      assert (ts + [t])[1..] == ts[1..] + [t];
      DropLeadingEmptyAppend(ts[1..], t);
    }
  }

  /**
    The Go accumulation loop computes the space-join of the texts with the
    leading empty ones dropped: one more argument is one more loop step.
   */
  lemma LineStep(ts: seq<string>, t: string)
    ensures SpaceJoin(DropLeadingEmpty(ts + [t])) == AppendText(SpaceJoin(DropLeadingEmpty(ts)), t)
  {
    var d := DropLeadingEmpty(ts);
    DropLeadingEmptyAppend(ts, t);
    if d != [] {
      assert SpaceJoin(d) != "" by {
        if |d| > 1 {
          assert |SpaceJoin(d)| >= |d[0]|;
        }
      }
      SpaceJoinAppend(d, t);
    }
  }

  /** With no empty text anywhere, the line is the plain space-join of all texts. */
  lemma NonEmptyTextsJoinPlainly(args: seq<Arg>)
    requires forall i :: 0 <= i < |args| ==> Text(args[i]) != ""
    ensures SpaceJoin(DropLeadingEmpty(Texts(args))) == SpaceJoin(Texts(args))
  {
    if |args| > 0 {
      assert Texts(args)[0] == Text(args[0]);
    }
  }

  // ---------------------------------------------------------------------------
  // The label set

  /** Labels merged in argument order, later keys overwriting earlier ones. */
  function MergeLabels(args: seq<Arg>): (r: Labels)
    ensures forall k {:trigger Supplied(args, k)} :: k in r <==> Supplied(args, k)
    decreases |args|
  {
    if |args| == 0 then map[]
    else
      var r := MergeLabels(args[..|args| - 1]) + Contribution(args[|args| - 1]);
      assert forall k :: k in r <==> Supplied(args, k) by {
        forall k
          ensures k in r <==> Supplied(args, k)
        {
          SuppliedSnoc(args, k);
        }
      }
      r
  }

  /** Some argument supplies a value for key `k`. */
  ghost predicate Supplied(args: seq<Arg>, k: string) {
    exists i :: 0 <= i < |args| && Contributes(args[i], k)
  }

  /** Argument `i` supplies key `k` and no later argument does. */
  ghost predicate LastWriter(args: seq<Arg>, i: int, k: string) {
    && 0 <= i < |args|
    && Contributes(args[i], k)
    && forall j :: i < j < |args| ==> !Contributes(args[j], k)
  }

  /**
    Independent description of the label set: it holds exactly the keys some
    labeler supplies, each with the value of the LAST labeler supplying it.
   */
  ghost predicate LastWriterWins(args: seq<Arg>, m: Labels) {
    && (forall k :: k in m <==> Supplied(args, k))
    && (forall k :: k in m ==> exists i :: LastWriter(args, i, k) && m[k] == args[i].labelsMethod.value[k])
  }

  lemma MergeLabelsPrefix(args: seq<Arg>)
    requires |args| > 0
    ensures MergeLabels(args) == MergeLabels(args[..|args| - 1]) + Contribution(args[|args| - 1])
  {
  }

  lemma SuppliedSnoc(args: seq<Arg>, k: string)
    requires |args| > 0
    ensures Supplied(args, k) <==> Supplied(args[..|args| - 1], k) || Contributes(args[|args| - 1], k)
  {
    var p := args[..|args| - 1];
    if Supplied(args, k) && !Contributes(args[|args| - 1], k) {
      var i :| 0 <= i < |args| && Contributes(args[i], k);
      assert p[i] == args[i];
    }
    if Supplied(p, k) {
      var i :| 0 <= i < |p| && Contributes(p[i], k);
      assert p[i] == args[i];
    }
  }

  lemma LastWriterSnoc(args: seq<Arg>, i: int, k: string)
    requires |args| > 0
    requires LastWriter(args[..|args| - 1], i, k)
    requires !Contributes(args[|args| - 1], k)
    ensures LastWriter(args, i, k)
  {
    var p := args[..|args| - 1];
    assert p[i] == args[i];
    forall j | i < j < |args|
      ensures !Contributes(args[j], k)
    {
      if j < |p| {
        assert p[j] == args[j];
      }
    }
  }

  lemma {:induction false} MergeLabelsLastWriterWins(args: seq<Arg>)
    ensures LastWriterWins(args, MergeLabels(args))
    decreases |args|
  {
    if |args| > 0 {
      var n := |args| - 1;
      var p := args[..n];
      var a := args[n];
      var m := MergeLabels(p);
      var r := MergeLabels(args);
      MergeLabelsPrefix(args);
      MergeLabelsLastWriterWins(p);
      forall k
        ensures k in r <==> Supplied(args, k)
      {
        SuppliedSnoc(args, k);
      }
      forall k | k in r
        ensures exists i :: LastWriter(args, i, k) && r[k] == args[i].labelsMethod.value[k]
      {
        if Contributes(a, k) {
          assert LastWriter(args, n, k);
        } else {
          var i :| LastWriter(p, i, k) && m[k] == p[i].labelsMethod.value[k];
          LastWriterSnoc(args, i, k);
          assert args[i] == p[i];
        }
      }
    }
  }

  /** The description pins the label set down: at most one map satisfies it. */
  lemma LastWriterWinsUnique(args: seq<Arg>, m1: Labels, m2: Labels)
    requires LastWriterWins(args, m1) && LastWriterWins(args, m2)
    ensures m1 == m2
  {
    assert m1.Keys == m2.Keys;
    forall k | k in m1
      ensures m1[k] == m2[k]
    {
      var i1 :| LastWriter(args, i1, k) && m1[k] == args[i1].labelsMethod.value[k];
      var i2 :| LastWriter(args, i2, k) && m2[k] == args[i2].labelsMethod.value[k];
      assert i1 == i2;
    }
  }

  /** An argument that is not a labeler (including one with `Labels()` but no `String()`) adds nothing. */
  lemma NonLabelersContributeNothing(args: seq<Arg>)
    requires forall i :: 0 <= i < |args| ==> !IsLabeler(args[i])
    ensures MergeLabels(args) == map[]
  {
    MergeLabelsLastWriterWins(args);
  }

  // ---------------------------------------------------------------------------
  // The formatter itself

  /** Extending the processed prefix by one argument advances the line and the merged labels by one step. */
  lemma FormatStep(args: seq<Arg>, i: int)
    requires 0 <= i < |args|
    ensures SpaceJoin(DropLeadingEmpty(Texts(args[..i + 1])))
         == AppendText(SpaceJoin(DropLeadingEmpty(Texts(args[..i]))), Text(args[i]))
    ensures MergeLabels(args[..i + 1]) == MergeLabels(args[..i]) + Contribution(args[i])
  {
    TextsSnoc(args, i);
    LineStep(Texts(args[..i]), Text(args[i]));
    assert args[..i + 1][..i] == args[..i];
  }

  lemma TextsSnoc(args: seq<Arg>, i: int)
    requires 0 <= i < |args|
    ensures Texts(args[..i + 1]) == Texts(args[..i]) + [Text(args[i])]
  {
  }

  /** Walks the arguments in order, as the Go loop does, building the line and the labels. */
  method Format(args: seq<Arg>) returns (line: string, labels: Labels)
    ensures line == SpaceJoin(DropLeadingEmpty(Texts(args)))
    ensures LastWriterWins(args, labels)
  {
    labels := map[];
    line := "";
    var i := 0;
    while i < |args|
      invariant 0 <= i <= |args|
      invariant line == SpaceJoin(DropLeadingEmpty(Texts(args[..i])))
      invariant labels == MergeLabels(args[..i])
    {
      var item := args[i];
      var itemText := item.rendering;
      if item.stringMethod.Some? {
        itemText := item.stringMethod.value;
      }
      ghost var merged := labels;
      if IsLabeler(item) {
        labels := labels + item.labelsMethod.value;
      } else {
        assert Contribution(item) == map[];
        assert merged + map[] == merged;
      }
      assert labels == merged + Contribution(item);
      FormatStep(args, i);
      if line == "" {
        line := itemText;
      } else {
        line := line + " " + itemText;
      }
      assert line == SpaceJoin(DropLeadingEmpty(Texts(args[..i + 1])));
      assert labels == MergeLabels(args[..i + 1]);
      i := i + 1;
    }
    assert args[..|args|] == args;
    MergeLabelsLastWriterWins(args);
  }
}
