/** The labels every Curvine resource carries
    (src/infrastructure/kubernetes/resources/pod/builders/traits.rs). */
module Labels {
  import opened K8s
  import opened Constants

  /** `PodBuilder::get_labels`: the cluster, the component and the fixed
      type marker. */
  function ResourceLabels(clusterId: string, component: string): (r: StringMap)
    ensures r.Keys == {LABEL_APP, LABEL_COMPONENT, LABEL_TYPE}
    ensures r[LABEL_APP] == clusterId && r[LABEL_COMPONENT] == component && r[LABEL_TYPE] == LABEL_TYPE_VALUE
  {
    map[LABEL_APP := clusterId, LABEL_COMPONENT := component, LABEL_TYPE := LABEL_TYPE_VALUE]
  }

  /** `PodBuilder::get_selector_labels`: the cluster and the component. */
  function SelectorLabels(clusterId: string, component: string): (r: StringMap)
    ensures r.Keys == {LABEL_APP, LABEL_COMPONENT}
  {
    map[LABEL_APP := clusterId, LABEL_COMPONENT := component]
  }

  /** The selector is the labels without the type marker, so every resource
      carrying the labels is matched by the selector. */
  lemma SelectorWithinLabels(clusterId: string, component: string)
    ensures SelectorLabels(clusterId, component) == ResourceLabels(clusterId, component) - {LABEL_TYPE}
    ensures forall k :: k in SelectorLabels(clusterId, component) ==>
      k in ResourceLabels(clusterId, component)
      && ResourceLabels(clusterId, component)[k] == SelectorLabels(clusterId, component)[k]
  {
  }

  /** Distinct clusters or components are told apart by their selectors. */
  lemma SelectorsDistinguish(id1: string, c1: string, id2: string, c2: string)
    ensures SelectorLabels(id1, c1) == SelectorLabels(id2, c2) <==> id1 == id2 && c1 == c2
  {
    if SelectorLabels(id1, c1) == SelectorLabels(id2, c2) {
      assert SelectorLabels(id1, c1)[LABEL_APP] == id1;
      assert SelectorLabels(id2, c2)[LABEL_COMPONENT] == c2;
    }
  }

  /** `LabeledResourceBuilder::get_selector_labels` by default: the labels
      themselves. */
  function LabeledSelector(labels: StringMap): (r: StringMap)
    ensures r == labels
  {
    map k | k in labels :: labels[k]
  }
}
