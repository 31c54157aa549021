/** A pod split into its main container and everything else
    (src/infrastructure/kubernetes/resources/pod/template.rs). */
module PodTemplate {
  import opened Wrappers
  import opened K8s

  /** `CurvinePod`: the pod with its main container taken out, and that
      container. */
  datatype CurvinePod = CurvinePod(podWithoutMain: Pod, mainContainer: Container)

  /** The containers not named `name`, in their original order. */
  function Others(cs: seq<Container>, name: string): (r: seq<Container>)
    ensures |r| <= |cs|
  {
    if |cs| == 0 then []
    else Others(cs[..|cs| - 1], name) + (if cs[|cs| - 1].name == name then [] else [cs[|cs| - 1]])
  }

  /** The last container named `name`, if any. */
  function LastNamed(cs: seq<Container>, name: string): Option<Container> {
    if |cs| == 0 then None
    else if cs[|cs| - 1].name == name then Some(cs[|cs| - 1])
    else LastNamed(cs[..|cs| - 1], name)
  }

  /** What `CurvinePod::new` leaves in the pod: the other containers, or a
      default spec when the pod has none. */
  function WithoutMain(pod: Pod, name: string): Pod {
    if pod.spec.Some? then pod.(spec := Some(pod.spec.value.(containers := Others(pod.spec.value.containers, name))))
    else pod.(spec := Some(DefaultPodSpec))
  }

  /** The main container `CurvinePod::new` picks: the last one named
      `name`, or a default container of that name. */
  function MainOf(pod: Pod, name: string): Container {
    var found := if pod.spec.Some? then LastNamed(pod.spec.value.containers, name) else None;
    found.GetOr(DefaultContainer.(name := name))
  }

  /** `CurvinePod::new`: one pass over the containers, keeping the last one
      named `name` as the main container and collecting the others. */
  method NewCurvinePod(pod: Pod, name: string) returns (cp: CurvinePod)
    ensures cp.podWithoutMain == WithoutMain(pod, name)
    ensures cp.mainContainer == MainOf(pod, name)
  {
    var podWithoutMain := pod;
    var main: Option<Container> := None;
    if pod.spec.Some? {
      var cs := pod.spec.value.containers;
      var others: seq<Container> := [];
      var i := 0;
      while i < |cs|
        invariant i <= |cs|
        invariant others == Others(cs[..i], name)
        invariant main == LastNamed(cs[..i], name)
      {
        assert cs[..i + 1][..i] == cs[..i];
        if cs[i].name == name {
          main := Some(cs[i]);
        } else {
          others := others + [cs[i]];
        }
        i := i + 1;
      }
      assert cs[..i] == cs;
      podWithoutMain := pod.(spec := Some(pod.spec.value.(containers := others)));
    } else {
      podWithoutMain := pod.(spec := Some(DefaultPodSpec));
    }
    cp := CurvinePod(podWithoutMain, main.GetOr(DefaultContainer.(name := name)));
  }

  /** `build_pod`: the main container appended after the others. */
  function BuildPod(cp: CurvinePod): Pod {
    var pod := cp.podWithoutMain;
    if pod.spec.Some? then pod.(spec := Some(pod.spec.value.(containers := pod.spec.value.containers + [cp.mainContainer])))
    else pod
  }

  /** `copy`: an equal value. */
  function Copy(cp: CurvinePod): (r: CurvinePod)
    ensures r == cp
  {
    CurvinePod(cp.podWithoutMain, cp.mainContainer)
  }

  // ----------------------------------------------------- split properties

  /** The rest holds no container named `name`, and holds exactly the
      containers of `cs` with another name. */
  lemma {:induction false} OthersContents(cs: seq<Container>, name: string)
    ensures forall c :: c in Others(cs, name) ==> c.name != name
    ensures forall c :: c in Others(cs, name) <==> c in cs && c.name != name
  {
    if |cs| > 0 {
      OthersContents(cs[..|cs| - 1], name);
      assert cs == cs[..|cs| - 1] + [cs[|cs| - 1]];
    }
  }

  /** Without a container named `name`, nothing is removed and the order is
      kept. */
  lemma {:induction false} OthersUnnamed(cs: seq<Container>, name: string)
    requires forall c :: c in cs ==> c.name != name
    ensures Others(cs, name) == cs
  {
    if |cs| > 0 {
      OthersUnnamed(cs[..|cs| - 1], name);
      assert cs == cs[..|cs| - 1] + [cs[|cs| - 1]];
    }
  }

  /** The main container found is the one at the last index with that name,
      and none is found only when no container has the name. */
  lemma {:induction false} LastNamedIsLast(cs: seq<Container>, name: string)
    ensures LastNamed(cs, name).None? <==> forall j :: 0 <= j < |cs| ==> cs[j].name != name
    ensures LastNamed(cs, name).Some? ==>
      exists j :: 0 <= j < |cs| && cs[j] == LastNamed(cs, name).value && cs[j].name == name
                  && forall k :: j < k < |cs| ==> cs[k].name != name
  {
    if |cs| > 0 {
      var init := cs[..|cs| - 1];
      LastNamedIsLast(init, name);
      if cs[|cs| - 1].name != name && LastNamed(init, name).Some? {
        var j :| 0 <= j < |init| && init[j] == LastNamed(init, name).value && init[j].name == name
                 && forall k :: j < k < |init| ==> init[k].name != name;
        assert cs[j] == init[j];
      }
    }
  }

  /** After the split the pod always has a spec, the main container carries
      the name asked for, and the rest has no container of that name. */
  lemma NewCurvinePodShape(pod: Pod, name: string)
    ensures WithoutMain(pod, name).spec.Some?
    ensures pod.spec.None? ==> WithoutMain(pod, name).spec == Some(DefaultPodSpec)
    ensures MainOf(pod, name).name == name
    ensures forall c :: c in WithoutMain(pod, name).spec.value.containers ==> c.name != name
    ensures WithoutMain(pod, name).metadata == pod.metadata
  {
    if pod.spec.Some? {
      var cs := pod.spec.value.containers;
      OthersContents(cs, name);
      LastNamedIsLast(cs, name);
      if LastNamed(cs, name).Some? {
        var j :| 0 <= j < |cs| && cs[j] == LastNamed(cs, name).value && cs[j].name == name
                 && forall k :: j < k < |cs| ==> cs[k].name != name;
      }
    }
  }

  /** Splitting a pod whose only container named `name` comes last, then
      building it again, gives the pod back. */
  lemma SplitThenBuild(pod: Pod, name: string)
    requires pod.spec.Some? && |pod.spec.value.containers| > 0
    requires pod.spec.value.containers[|pod.spec.value.containers| - 1].name == name
    requires forall j :: 0 <= j < |pod.spec.value.containers| - 1 ==> pod.spec.value.containers[j].name != name
    ensures BuildPod(CurvinePod(WithoutMain(pod, name), MainOf(pod, name))) == pod
  {
    var spec := pod.spec.value;
    var cs := spec.containers;
    var init := cs[..|cs| - 1];
    OthersUnnamed(init, name);
    assert Others(cs, name) == init;
    assert MainOf(pod, name) == cs[|cs| - 1];
    assert init + [cs[|cs| - 1]] == cs;
    assert BuildPod(CurvinePod(WithoutMain(pod, name), MainOf(pod, name)))
        == pod.(spec := Some(spec.(containers := init + [cs[|cs| - 1]])));
  }

  /** Building then splitting again gives the same parts back, when the
      rest holds no container named like the main one. */
  lemma BuildThenSplit(cp: CurvinePod)
    requires cp.podWithoutMain.spec.Some?
    requires forall c :: c in cp.podWithoutMain.spec.value.containers ==> c.name != cp.mainContainer.name
    ensures WithoutMain(BuildPod(cp), cp.mainContainer.name) == cp.podWithoutMain
    ensures MainOf(BuildPod(cp), cp.mainContainer.name) == cp.mainContainer
  {
    var cs := cp.podWithoutMain.spec.value.containers;
    var name := cp.mainContainer.name;
    OthersUnnamed(cs, name);
    var built := cs + [cp.mainContainer];
    assert built[..|cs|] == cs;
    assert Others(built, name) == cs;
    assert LastNamed(built, name) == Some(cp.mainContainer);
  }

  // ------------------------------------------------------------- builder

  /** `CurvinePodBuilder`: both parts optional until `build`. */
  datatype CurvinePodBuilder = CurvinePodBuilder(podWithoutMain: Option<Pod>, mainContainer: Option<Container>)

  /** An empty pod with a default spec, what the builder starts from. */
  const EmptyPod := Pod(EmptyMeta, Some(DefaultPodSpec))

  /** `CurvinePodBuilder::new` */
  function NewBuilder(): (b: CurvinePodBuilder)
    ensures b.podWithoutMain == Some(EmptyPod) && b.mainContainer == Some(DefaultContainer)
  {
    CurvinePodBuilder(Some(EmptyPod), Some(DefaultContainer))
  }

  /** `CurvinePodBuilder::from` */
  function BuilderFrom(cp: CurvinePod): CurvinePodBuilder {
    CurvinePodBuilder(Some(cp.podWithoutMain), Some(cp.mainContainer))
  }

  function WithPod(b: CurvinePodBuilder, pod: Pod): CurvinePodBuilder {
    b.(podWithoutMain := Some(pod))
  }

  function WithMainContainer(b: CurvinePodBuilder, c: Container): CurvinePodBuilder {
    b.(mainContainer := Some(c))
  }

  /** `build`: an absent pod becomes the empty pod with a default spec, an
      absent container the default container. */
  function Build(b: CurvinePodBuilder): CurvinePod {
    CurvinePod(b.podWithoutMain.GetOr(EmptyPod), b.mainContainer.GetOr(DefaultContainer))
  }

  /** A fresh builder builds a pod with a spec and the default container;
      a builder taken from a pod builds that pod again; each setter
      decides its own part and leaves the other. */
  lemma BuilderProperties(cp: CurvinePod, b: CurvinePodBuilder, pod: Pod, c: Container)
    ensures Build(NewBuilder()).podWithoutMain.spec == Some(DefaultPodSpec)
    ensures Build(NewBuilder()).mainContainer == DefaultContainer
    ensures Build(BuilderFrom(cp)) == cp
    ensures Build(WithPod(b, pod)).podWithoutMain == pod
    ensures Build(WithPod(b, pod)).mainContainer == Build(b).mainContainer
    ensures Build(WithMainContainer(b, c)).mainContainer == c
    ensures Build(WithMainContainer(b, c)).podWithoutMain == Build(b).podWithoutMain
  {
  }
}
