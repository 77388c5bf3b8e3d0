/** internal/k8s/metadata.go: the common label set of every managed object. */
module Metadata {

  type Labels = map<string, string>

  /** The single label `app=<name>` that ties a record's objects together. */
  function CreateLabels(name: string): (labels: Labels)
    ensures labels.Keys == {"app"}
    ensures |labels| == 1
    ensures labels["app"] == name
  {
    var labels := map["app" := name];
    assert labels.Keys == {"app"};
    labels
  }

  /** Different records get different label sets. */
  lemma CreateLabelsInjective(a: string, b: string)
    ensures CreateLabels(a) == CreateLabels(b) <==> a == b
  {
    if CreateLabels(a) == CreateLabels(b) {
      assert CreateLabels(a)["app"] == CreateLabels(b)["app"];
    }
  }
}
