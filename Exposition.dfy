/** Lines of the Prometheus text exposition format as the two scripts write them:
    `name{label="value",...} sample`, or `name sample` when there are no labels.
    Label values are written as they are, without escaping. */
module Exposition {
  import opened PyText

  datatype Label = Label(name: string, value: string)

  function LabelPairs(labels: seq<Label>): string
  {
    if labels == [] then ""
    else
      var pair := labels[0].name + "=\"" + labels[0].value + "\"";
      if |labels| == 1 then pair else pair + "," + LabelPairs(labels[1..])
  }

  /** The label set of a line: empty, or the pairs between braces. */
  function LabelSet(labels: seq<Label>): (t: string)
    ensures labels == [] <==> t == []
    ensures t != [] ==> t[0] == '{'
  {
    if labels == [] then "" else "{" + LabelPairs(labels) + "}"
  }

  /** A metric name as the scripts write one: lower-case letters and underscores. */
  predicate Word(name: string)
  {
    name != [] && forall i :: 0 <= i < |name| ==> ('a' <= name[i] <= 'z') || name[i] == '_'
  }

  lemma WordPlain(name: string)
    requires Word(name)
    ensures ' ' !in name && '{' !in name && '\n' !in name
  {
    forall i | 0 <= i < |name| ensures name[i] != ' ' && name[i] != '{' && name[i] != '\n' {
    }
  }

  lemma WordConcat(a: string, b: string)
    requires Word(a) && Word(b)
    ensures Word(a + b)
  {
    forall i | 0 <= i < |a + b| ensures ('a' <= (a + b)[i] <= 'z') || (a + b)[i] == '_' {
      if i >= |a| {
        assert (a + b)[i] == b[i - |a|];
      }
    }
  }

  /** One sample line: `name{label="value",...} value`, or `name value` without labels. */
  function SampleText(name: string, labels: seq<Label>, value: string): string
  {
    name + LabelSet(labels) + " " + value
  }

  /** The text after the last space of a line: where a reader finds the sample value. */
  function ValueOf(line: string): string
  {
    if line == [] || line[|line| - 1] == ' ' then ""
    else ValueOf(line[..|line| - 1]) + [line[|line| - 1]]
  }

  /** The text before the first `{` or space of a line: where a reader finds the metric
      name. */
  function NameOf(line: string): string
  {
    if line == [] || line[0] == '{' || line[0] == ' ' then ""
    else [line[0]] + NameOf(line[1..])
  }

  lemma {:induction false} ValueOfAfterSpace(prefix: string, value: string)
    requires ' ' !in value
    ensures ValueOf(prefix + " " + value) == value
    decreases |value|
  {
    var line := prefix + " " + value;
    if value == [] {
      assert line[|line| - 1] == ' ';
    } else {
      var shorter := value[..|value| - 1];
      assert line[..|line| - 1] == prefix + " " + shorter;
      assert line[|line| - 1] == value[|value| - 1];
      ValueOfAfterSpace(prefix, shorter);
      assert shorter + [value[|value| - 1]] == value;
    }
  }

  lemma {:induction false} NameOfBeforeDelimiter(name: string, rest: string)
    requires '{' !in name && ' ' !in name
    requires rest != [] && (rest[0] == '{' || rest[0] == ' ')
    ensures NameOf(name + rest) == name
    decreases |name|
  {
    var line := name + rest;
    if name == [] {
      assert line == rest;
    } else {
      assert line[0] == name[0] && line[1..] == name[1..] + rest;
      NameOfBeforeDelimiter(name[1..], rest);
      assert [name[0]] + name[1..] == name;
    }
  }

  /** A reader recovers the value of a sample line, provided the value holds no space. */
  lemma SampleTextValue(name: string, labels: seq<Label>, value: string)
    requires ' ' !in value
    ensures ValueOf(SampleText(name, labels, value)) == value
  {
    ValueOfAfterSpace(name + LabelSet(labels), value);
  }

  /** A reader recovers the metric name of a sample line, provided the name holds no
      brace and no space. */
  lemma SampleTextName(name: string, labels: seq<Label>, value: string)
    requires '{' !in name && ' ' !in name
    ensures NameOf(SampleText(name, labels, value)) == name
  {
    var rest := LabelSet(labels) + " " + value;
    assert SampleText(name, labels, value) == name + rest;
    NameOfBeforeDelimiter(name, rest);
  }

  /** No part of the labels holds a line break. */
  predicate OneLineLabels(labels: seq<Label>)
  {
    forall l :: l in labels ==> '\n' !in l.name && '\n' !in l.value
  }

  /** A sample line is one line of text when its parts are. */
  lemma SampleTextNoNewline(name: string, labels: seq<Label>, value: string)
    requires '\n' !in name && '\n' !in value && OneLineLabels(labels)
    ensures '\n' !in SampleText(name, labels, value)
  {
    LabelPairsNoNewline(labels);
  }

  lemma {:induction false} LabelPairsNoNewline(labels: seq<Label>)
    requires OneLineLabels(labels)
    ensures '\n' !in LabelPairs(labels)
  {
    if labels != [] {
      assert labels[0] in labels;
      assert forall l :: l in labels[1..] ==> l in labels;
      LabelPairsNoNewline(labels[1..]);
    }
  }
}
