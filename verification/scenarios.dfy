/** The repository's test cases, restated about the model. */
module Scenarios {
  import opened Wrappers
  import opened Decimal
  import opened Configuration
  import opened Formatter
  import opened PayloadBuilder
  import opened Transport

  /** A value with only a default rendering (a plain string, number or boolean). */
  function Plain(text: string): Arg {
    Arg(text, None, None)
  }

  /** The arguments of the "Mixed types" case: a stringer, a labeler and a number. */
  const MixedArgs := [Arg("custom", Some("custom"), None),
                      Arg("log", Some("log"), Some(map["component" := "test"])),
                      Plain("123")]

  /** "Mixed types": the line joins the three texts and the labels come from the labeler alone. */
  lemma MixedTypesFormat()
    ensures SpaceJoin(DropLeadingEmpty(Texts(MixedArgs))) == "custom log 123"
    ensures MergeLabels(MixedArgs) == map["component" := "test"]
  {
    var args := MixedArgs;
    var ts := ["custom", "log", "123"];
    assert Texts(args) == ts;
    assert DropLeadingEmpty(ts) == ts;
    assert ts[1..][1..] == ["123"];
    assert SpaceJoin(ts[1..]) == "log 123";
    assert args[..2][..1] == args[..1];
    assert args[..1][..0] == [];
    assert MergeLabels(args[..1]) == map[];
    assert MergeLabels(args[..2]) == map["component" := "test"];
  }

  /** An empty rendering is dropped in front but kept (as a double space) inside. */
  lemma EmptyRenderings()
    ensures SpaceJoin(DropLeadingEmpty(Texts([Plain(""), Plain("a"), Plain(""), Plain("b")]))) == "a  b"
  {
    assert Texts([Plain(""), Plain("a"), Plain(""), Plain("b")]) == ["", "a", "", "b"];
    assert ["", "a", "", "b"][1..] == ["a", "", "b"];
  }

  /** A value with `Labels()` but no `String()` is not a labeler and adds no labels. */
  lemma LabelsWithoutStringIgnored(rendering: string, labels: Labels)
    ensures MergeLabels([Arg(rendering, None, Some(labels))]) == map[]
  {
    assert [Arg(rendering, None, Some(labels))][..0] == [];
  }

  /** Defaults `{app: test}` with call labels `{env: dev}`. */
  lemma PayloadLabelsScenario(now: nat)
    ensures var p := BuildPayload(Config("", 0, map["app" := "test"]), "test log message",
                                  Some(map["env" := "dev"]), now);
      && p.streams[0].stream == map["app" := "test", "env" := "dev"]
      && p.streams[0].values[0][1] == "test log message"
  {
  }

  /** A 500 answer fails with a text that starts with "loki response: 500". */
  lemma Status500Text(body: string)
    ensures var t := ErrorText(StatusRejected(500, body));
      |t| >= 18 && t[..18] == "loki response: 500"
  {
    assert FromNat(500) == "500" by {
      assert FromNat(50) == "50";
    }
    var t := ErrorText(StatusRejected(500, body));
    assert t == "loki response: " + "500" + ("\t request was: " + body);
  }
}
