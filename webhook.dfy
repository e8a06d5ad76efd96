/**
 * The mutating admission webhook `kubeimageswap`: its construction from
 * the configured filters (`newDefaulter`) and the per-request `Default`,
 * which skips the pod when a filter matches and otherwise rewrites every
 * container image in place, recording the changed containers in the
 * `containers.mutated` annotation.
 */
module Webhook {
  import opened Wrappers
  import opened GoStrings
  import opened Reference
  import opened Exemption
  import opened Rewrite

  const MutatedAnnotation: string := "containers.mutated"
  const NameSeparator: char := ','

  /** The two fields of `corev1.Container` (and of an ephemeral container) the webhook uses. */
  datatype Container = Container(name: string, image: string)

  /** The value of the pod fields the webhook reads and writes; `None` annotations is a nil map. */
  datatype PodValue = PodValue(
    containers: seq<Container>,
    initContainers: seq<Container>,
    ephemeralContainers: seq<Container>,
    annotations: Option<map<string, string>>)

  /** `corev1.Pod`, updated in place by the webhook. */
  class Pod {
    var containers: array<Container>
    var initContainers: array<Container>
    var ephemeralContainers: array<Container>
    var annotations: Option<map<string, string>>

    /** The three container lists are separate slices. */
    ghost predicate Valid()
      reads this
    {
      containers != initContainers && containers != ephemeralContainers && initContainers != ephemeralContainers
    }

    function Value(): PodValue
      reads this, containers, initContainers, ephemeralContainers
    {
      PodValue(containers[..], initContainers[..], ephemeralContainers[..], annotations)
    }

    /** A pod as decoded from an admission request. */
    constructor (value: PodValue)
      ensures Valid() && Value() == value
      ensures fresh(containers) && fresh(initContainers) && fresh(ephemeralContainers)
    {
      var c, i, e := value.containers, value.initContainers, value.ephemeralContainers;
      containers := new Container[|c|](k requires 0 <= k < |c| => c[k]);
      initContainers := new Container[|i|](k requires 0 <= k < |i| => i[k]);
      ephemeralContainers := new Container[|e|](k requires 0 <= k < |e| => e[k]);
      annotations := value.annotations;
    }
  }

  /** The `runtime.Object` handed to the webhook. */
  datatype Object = PodObject(pod: Pod) | OtherObject(typeName: string)

  /** The webhook's configuration: the compiled filters and the registry mapping. */
  datatype ImageSwap = ImageSwap(queries: seq<Query>, mapping: Mapping)

  /** The library code the webhook calls: JSON conversion of a pod and query search. */
  datatype Engine = Engine(marshal: PodValue -> Option<Json>, search: Search)

  datatype WebhookError = NotAPod(typeName: string) | TransformFailed(cause: RefError)

  // ---------------------------------------------------------------------
  // Specification of a run of Default

  /** A container after the rewrite: same name, image one of `transform`'s outcomes. */
  ghost predicate ContainerRewritten(before: Container, after: Container, mapping: Mapping) {
    after.name == before.name && Transforms(before.image, mapping, Success(after.image))
  }

  ghost predicate GroupRewritten(before: seq<Container>, after: seq<Container>, mapping: Mapping) {
    |after| == |before| && forall i :: 0 <= i < |before| ==> ContainerRewritten(before[i], after[i], mapping)
  }

  /** The rewrite stopped at container `j`, whose image is not a valid reference. */
  ghost predicate GroupFailedAt(before: seq<Container>, after: seq<Container>, mapping: Mapping, j: nat, e: RefError) {
    && j < |before| == |after|
    && GroupRewritten(before[..j], after[..j], mapping)
    && after[j..] == before[j..]
    && Transforms(before[j].image, mapping, Failure(e))
  }

  ghost predicate GroupFailed(before: seq<Container>, after: seq<Container>, mapping: Mapping, e: RefError) {
    exists j: nat :: GroupFailedAt(before, after, mapping, j, e)
  }

  /** The names of the containers whose image changed, in order. */
  function ChangedNames(before: seq<Container>, after: seq<Container>): (names: seq<string>)
    requires |before| == |after|
    ensures |names| <= |before|
  {
    if |before| == 0 then []
    else
      var n := |before| - 1;
      ChangedNames(before[..n], after[..n]) + (if after[n].image != before[n].image then [after[n].name] else [])
  }

  function MutatedNames(before: PodValue, after: PodValue): seq<string>
    requires |before.containers| == |after.containers|
    requires |before.initContainers| == |after.initContainers|
    requires |before.ephemeralContainers| == |after.ephemeralContainers|
  {
    ChangedNames(before.containers, after.containers)
      + ChangedNames(before.initContainers, after.initContainers)
      + ChangedNames(before.ephemeralContainers, after.ephemeralContainers)
  }

  function InitAnnotations(annotations: Option<map<string, string>>): map<string, string> {
    if annotations.None? then map[] else annotations.value
  }

  /** The pod as the filters see it: annotations are initialised before they run. */
  function Seen(pod: PodValue): PodValue {
    pod.(annotations := Some(InitAnnotations(pod.annotations)))
  }

  /** The annotations after a successful rewrite. */
  function Annotate(annotations: map<string, string>, names: seq<string>): map<string, string> {
    if |names| > 0 then annotations[MutatedAnnotation := Join(names, [NameSeparator])] else annotations
  }

  /** The rewrite of the three container groups, regular, init, then ephemeral. */
  ghost predicate RewriteOutcome(mapping: Mapping, before: PodValue, after: PodValue, err: Option<WebhookError>)
    ensures RewriteOutcome(mapping, before, after, err) ==>
      && (err.None? || err.value.TransformFailed?)
      && |after.containers| == |before.containers|
      && |after.initContainers| == |before.initContainers|
      && |after.ephemeralContainers| == |before.ephemeralContainers|
  {
    var b, a := before, after;
    match err
    case None =>
      && GroupRewritten(b.containers, a.containers, mapping)
      && GroupRewritten(b.initContainers, a.initContainers, mapping)
      && GroupRewritten(b.ephemeralContainers, a.ephemeralContainers, mapping)
      && a.annotations == Some(Annotate(InitAnnotations(b.annotations), MutatedNames(b, a)))
    case Some(NotAPod(_)) => false
    case Some(TransformFailed(e)) =>
      && a.annotations == b.annotations
      && (|| (GroupFailed(b.containers, a.containers, mapping, e)
              && a.initContainers == b.initContainers && a.ephemeralContainers == b.ephemeralContainers)
          || (GroupRewritten(b.containers, a.containers, mapping)
              && GroupFailed(b.initContainers, a.initContainers, mapping, e)
              && a.ephemeralContainers == b.ephemeralContainers)
          || (GroupRewritten(b.containers, a.containers, mapping)
              && GroupRewritten(b.initContainers, a.initContainers, mapping)
              && GroupFailed(b.ephemeralContainers, a.ephemeralContainers, mapping, e)))
  }

  /** The possible effects of `Default` on a pod. */
  ghost predicate Defaulted(k: ImageSwap, engine: Engine, before: PodValue, after: PodValue, err: Option<WebhookError>)
    ensures Defaulted(k, engine, before, after, err) ==> after.annotations.Some?
    ensures Defaulted(k, engine, before, after, err) ==> err.None? || err.value.TransformFailed?
  {
    var seen := Seen(before);
    if Evaluation(k.queries, engine.marshal(seen), engine.search).matched then err == None && after == seen
    else RewriteOutcome(k.mapping, seen, after, err)
  }

  // ---------------------------------------------------------------------
  // The webhook

  /**
   * `newDefaulter`: every filter is compiled, in order; the first compile
   * error aborts construction.
   */
  method NewDefaulter(filters: seq<string>, mapping: Mapping, compile: string -> Option<string>)
    returns (d: Result<ImageSwap, string>)
    ensures d.Success? <==> forall i :: 0 <= i < |filters| ==> compile(filters[i]).None?
    ensures d.Success? ==>
      && d.value.mapping == mapping
      && |d.value.queries| == |filters|
      && forall i :: 0 <= i < |filters| ==> d.value.queries[i] == Query(filters[i])
    ensures d.Failure? ==>
      exists i :: && 0 <= i < |filters|
                  && compile(filters[i]) == Some(d.error)
                  && forall j :: 0 <= j < i ==> compile(filters[j]).None?
  {
    var queries: seq<Query> := [];
    for i := 0 to |filters|
      invariant |queries| == i
      invariant forall j :: 0 <= j < i ==> compile(filters[j]).None? && queries[j] == Query(filters[j])
    {
      var err := compile(filters[i]);
      if err.Some? {
        return Failure(err.value);
      }
      queries := queries + [Query(filters[i])];
    }
    return Success(ImageSwap(queries, mapping));
  }

  lemma ChangedNamesSnoc(before: seq<Container>, after: seq<Container>, i: nat)
    requires i < |before| == |after|
    ensures ChangedNames(before[..i + 1], after[..i + 1])
      == ChangedNames(before[..i], after[..i]) + (if after[i].image != before[i].image then [after[i].name] else [])
  {
    assert before[..i + 1][..i] == before[..i];
    assert after[..i + 1][..i] == after[..i];
  }

  /** The body of the container loops: rewrite each image of one group, in order. */
  method RewriteContainers(containers: array<Container>, mapping: Mapping, mutated: seq<string>)
    returns (mutated': seq<string>, failure: Option<RefError>, ghost failedAt: nat)
    modifies containers
    ensures failure.None? ==>
      && GroupRewritten(old(containers[..]), containers[..], mapping)
      && mutated' == mutated + ChangedNames(old(containers[..]), containers[..])
    ensures failure.Some? ==> GroupFailedAt(old(containers[..]), containers[..], mapping, failedAt, failure.value)
  {
    ghost var before := containers[..];
    mutated' := mutated;
    for i := 0 to containers.Length
      invariant forall j :: i <= j < containers.Length ==> containers[j] == before[j]
      invariant forall j :: 0 <= j < i ==> ContainerRewritten(before[j], containers[j], mapping)
      invariant mutated' == mutated + ChangedNames(before[..i], containers[..i])
    {
      var ctr := containers[i];
      var ret := Transform(ctr.image, mapping);
      if ret.Failure? {
        assert GroupFailedAt(before, containers[..], mapping, i, ret.error);
        return mutated', Some(ret.error), i;
      }
      ghost var prefix := containers[..i];
      if ret.value != ctr.image {
        containers[i] := ctr.(image := ret.value);
        mutated' := mutated' + [ctr.name];
      }
      assert containers[..i] == prefix;
      ChangedNamesSnoc(before, containers[..], i);
    }
    assert before[..containers.Length] == before;
    assert containers[..containers.Length] == containers[..];
    return mutated', None, 0;
  }

  /** The container loops and the annotation write of `Default`, on a pod that is not skipped. */
  method RewriteImages(pod: Pod, mapping: Mapping) returns (err: Option<WebhookError>)
    requires pod.Valid() && pod.annotations.Some?
    modifies pod, pod.containers, pod.initContainers, pod.ephemeralContainers
    ensures pod.containers == old(pod.containers)
    ensures pod.initContainers == old(pod.initContainers)
    ensures pod.ephemeralContainers == old(pod.ephemeralContainers)
    ensures pod.Valid()
    ensures RewriteOutcome(mapping, old(pod.Value()), pod.Value(), err)
  {
    ghost var before := pod.Value();
    var mutated: seq<string> := [];
    var failure: Option<RefError>;
    ghost var at: nat;
    mutated, failure, at := RewriteContainers(pod.containers, mapping, mutated);
    if failure.Some? {
      assert GroupFailed(before.containers, pod.containers[..], mapping, failure.value);
      return Some(TransformFailed(failure.value));
    }
    mutated, failure, at := RewriteContainers(pod.initContainers, mapping, mutated);
    if failure.Some? {
      assert GroupFailed(before.initContainers, pod.initContainers[..], mapping, failure.value);
      return Some(TransformFailed(failure.value));
    }
    mutated, failure, at := RewriteContainers(pod.ephemeralContainers, mapping, mutated);
    if failure.Some? {
      assert GroupFailed(before.ephemeralContainers, pod.ephemeralContainers[..], mapping, failure.value);
      return Some(TransformFailed(failure.value));
    }
    assert mutated == MutatedNames(before, pod.Value());
    if |mutated| > 0 {
      pod.annotations := Some(pod.annotations.value[MutatedAnnotation := Join(mutated, [NameSeparator])]);
    }
    return None;
  }

  /** `(*kubeimageswap).Default`. */
  method Default(k: ImageSwap, obj: Object, engine: Engine) returns (err: Option<WebhookError>)
    requires obj.PodObject? ==> obj.pod.Valid()
    modifies if obj.PodObject? then {obj.pod, obj.pod.containers, obj.pod.initContainers, obj.pod.ephemeralContainers} else {}
    ensures obj.OtherObject? ==> err == Some(NotAPod(obj.typeName))
    ensures obj.PodObject? ==>
      && obj.pod.containers == old(obj.pod.containers)
      && obj.pod.initContainers == old(obj.pod.initContainers)
      && obj.pod.ephemeralContainers == old(obj.pod.ephemeralContainers)
      && obj.pod.Valid()
      && Defaulted(k, engine, old(obj.pod.Value()), obj.pod.Value(), err)
  {
    if obj.OtherObject? {
      return Some(NotAPod(obj.typeName));
    }
    var pod := obj.pod;
    if pod.annotations.None? {
      pod.annotations := Some(map[]);
    }
    assert pod.Value() == Seen(old(pod.Value()));

    var matched, evalErr := EvaluatesJMESPaths(k.queries, engine.marshal(pod.Value()), engine.search);
    // evalErr is logged and otherwise ignored
    if matched {
      return None;
    }
    err := RewriteImages(pod, k.mapping);
  }

  // ---------------------------------------------------------------------
  // Properties of Default

  /** The pod is skipped, unchanged but for initialised annotations, when a filter yields `true`. */
  lemma FilterMatchSkipsPod(k: ImageSwap, engine: Engine, before: PodValue, after: PodValue, err: Option<WebhookError>, tree: Json, i: nat)
    requires engine.marshal(Seen(before)) == Some(tree)
    requires FirstTrue(k.queries, tree, engine.search, i)
    requires Defaulted(k, engine, before, after, err)
    ensures err == None && after == Seen(before)
  {
    MatchedIffFirstTrue(k.queries, tree, engine.search);
  }

  /** Otherwise the images are rewritten: a filter decides only by yielding `true` first. */
  lemma NoFilterMatchRewrites(k: ImageSwap, engine: Engine, before: PodValue, after: PodValue, err: Option<WebhookError>, tree: Json)
    requires engine.marshal(Seen(before)) == Some(tree)
    requires forall i: nat :: !FirstTrue(k.queries, tree, engine.search, i)
    ensures Defaulted(k, engine, before, after, err) <==> RewriteOutcome(k.mapping, Seen(before), after, err)
  {
    MatchedIffFirstTrue(k.queries, tree, engine.search);
  }

  /** A pod that cannot be converted to JSON is skipped, whatever the filters. */
  lemma ConversionFailureSkipsPod(k: ImageSwap, engine: Engine, before: PodValue, after: PodValue, err: Option<WebhookError>)
    requires engine.marshal(Seen(before)) == None
    ensures Defaulted(k, engine, before, after, err) <==> err == None && after == Seen(before)
  {
  }

  /** With no filters configured, every convertible pod is rewritten. */
  lemma NoFiltersNeverSkip(k: ImageSwap, engine: Engine, before: PodValue, after: PodValue, err: Option<WebhookError>)
    requires k.queries == []
    requires engine.marshal(Seen(before)).Some?
    ensures Defaulted(k, engine, before, after, err) <==> RewriteOutcome(k.mapping, Seen(before), after, err)
  {
  }

  /** The names in `ChangedNames` are exactly those of the containers whose image changed. */
  lemma {:induction false} ChangedNamesMembers(before: seq<Container>, after: seq<Container>, x: string)
    requires |before| == |after|
    ensures x in ChangedNames(before, after) <==>
      exists i :: 0 <= i < |before| && after[i].image != before[i].image && after[i].name == x
  {
    if |before| > 0 {
      var n := |before| - 1;
      var b, a := before[..n], after[..n];
      ChangedNamesMembers(b, a, x);
      if x in ChangedNames(before, after) {
        if x in ChangedNames(b, a) {
          var i :| 0 <= i < n && a[i].image != b[i].image && a[i].name == x;
          assert after[i] == a[i] && before[i] == b[i];
        } else {
          assert after[n].image != before[n].image && after[n].name == x;
        }
      } else {
        forall i | 0 <= i < |before| && after[i].image != before[i].image
          ensures after[i].name != x
        {
          if i < n {
            assert after[i] == a[i] && before[i] == b[i];
          }
        }
      }
    }
  }

  /** No name is recorded exactly when no image of the group changed. */
  lemma NoChangeNoNames(before: seq<Container>, after: seq<Container>)
    requires |before| == |after|
    ensures ChangedNames(before, after) == [] <==> forall i :: 0 <= i < |before| ==> after[i].image == before[i].image
  {
    if ChangedNames(before, after) != [] {
      var x := ChangedNames(before, after)[0];
      ChangedNamesMembers(before, after, x);
    } else {
      forall i | 0 <= i < |before| ensures after[i].image == before[i].image {
        ChangedNamesMembers(before, after, after[i].name);
      }
    }
  }

  /** The container names and the group sizes are never changed. */
  ghost predicate NamesKept(before: seq<Container>, after: seq<Container>) {
    |after| == |before| && forall i :: 0 <= i < |before| ==> after[i].name == before[i].name
  }

  lemma GroupFailedKeepsNames(before: seq<Container>, after: seq<Container>, mapping: Mapping, e: RefError)
    requires GroupFailed(before, after, mapping, e)
    ensures NamesKept(before, after)
  {
    var j: nat :| GroupFailedAt(before, after, mapping, j, e);
    forall i | 0 <= i < |before| ensures after[i].name == before[i].name {
      if i < j {
        assert ContainerRewritten(before[..j][i], after[..j][i], mapping);
        assert before[..j][i] == before[i] && after[..j][i] == after[i];
      } else {
        assert after[j..][i - j] == before[j..][i - j];
      }
    }
  }

  /** Whatever happens, `Default` keeps every container's name and every group's size. */
  lemma DefaultKeepsNames(k: ImageSwap, engine: Engine, before: PodValue, after: PodValue, err: Option<WebhookError>)
    requires Defaulted(k, engine, before, after, err)
    ensures NamesKept(before.containers, after.containers)
    ensures NamesKept(before.initContainers, after.initContainers)
    ensures NamesKept(before.ephemeralContainers, after.ephemeralContainers)
  {
    var seen := Seen(before);
    if !Evaluation(k.queries, engine.marshal(seen), engine.search).matched && err.Some? {
      var e := err.value.cause;
      if GroupFailed(seen.containers, after.containers, k.mapping, e) {
        GroupFailedKeepsNames(seen.containers, after.containers, k.mapping, e);
      }
      if GroupFailed(seen.initContainers, after.initContainers, k.mapping, e) {
        GroupFailedKeepsNames(seen.initContainers, after.initContainers, k.mapping, e);
      }
      if GroupFailed(seen.ephemeralContainers, after.ephemeralContainers, k.mapping, e) {
        GroupFailedKeepsNames(seen.ephemeralContainers, after.ephemeralContainers, k.mapping, e);
      }
    }
  }

  /** A rewrite that fails leaves the annotations as the filters saw them. */
  lemma FailureWritesNoAnnotation(k: ImageSwap, engine: Engine, before: PodValue, after: PodValue, e: RefError)
    requires Defaulted(k, engine, before, after, Some(TransformFailed(e)))
    ensures after.annotations == Some(InitAnnotations(before.annotations))
  {
  }

  /** A rewrite fails only on an image that is not a valid reference, with the parser's error. */
  lemma FailureNamesInvalidImage(k: ImageSwap, engine: Engine, before: PodValue, after: PodValue, err: Option<WebhookError>)
    requires Defaulted(k, engine, before, after, err)
    ensures err.Some? ==> err.value.TransformFailed?
    ensures err.Some? ==>
      exists c :: && (c in before.containers || c in before.initContainers || c in before.ephemeralContainers)
                  && CanonicalString(c.image) == Failure(err.value.cause)
  {
    if err.Some? {
      var e := err.value.cause;
      var seen := Seen(before);
      var m := k.mapping;
      var group: seq<Container>, j: nat;
      if GroupFailed(seen.containers, after.containers, m, e) {
        group := seen.containers;
        j :| GroupFailedAt(group, after.containers, m, j, e);
      } else if GroupFailed(seen.initContainers, after.initContainers, m, e) {
        group := seen.initContainers;
        j :| GroupFailedAt(group, after.initContainers, m, j, e);
      } else {
        group := seen.ephemeralContainers;
        j :| GroupFailedAt(group, after.ephemeralContainers, m, j, e);
      }
      TransformFailureCause(group[j].image, m, e);
      assert group[j] in group;
    }
  }

  /** Every image is a valid reference. */
  ghost predicate ImagesValid(cs: seq<Container>) {
    forall c :: c in cs ==> CanonicalString(c.image).Success?
  }

  /** A pod whose images are all valid references is never refused. */
  lemma ValidImagesNeverFail(k: ImageSwap, engine: Engine, before: PodValue, after: PodValue, err: Option<WebhookError>)
    requires Defaulted(k, engine, before, after, err)
    requires ImagesValid(before.containers) && ImagesValid(before.initContainers) && ImagesValid(before.ephemeralContainers)
    ensures err == None
  {
    FailureNamesInvalidImage(k, engine, before, after, err);
  }

  /** No container name holds the annotation's separator (true of DNS-label names). */
  ghost predicate NamesFree(cs: seq<Container>) {
    forall i :: 0 <= i < |cs| ==> NameSeparator !in cs[i].name
  }

  lemma ChangedNamesFree(before: seq<Container>, after: seq<Container>, mapping: Mapping, x: string)
    requires GroupRewritten(before, after, mapping) && NamesFree(before)
    requires x in ChangedNames(before, after)
    ensures NameSeparator !in x
  {
    ChangedNamesMembers(before, after, x);
    var i :| 0 <= i < |before| && after[i].image != before[i].image && after[i].name == x;
    assert ContainerRewritten(before[i], after[i], mapping);
  }

  /**
   * After a successful rewrite the `containers.mutated` annotation lists,
   * separated by commas, the containers whose image changed; it is not
   * written when none changed.
   */
  lemma AnnotationRecordsMutatedNames(k: ImageSwap, engine: Engine, before: PodValue, after: PodValue)
    requires !Evaluation(k.queries, engine.marshal(Seen(before)), engine.search).matched
    requires Defaulted(k, engine, before, after, None)
    requires NamesFree(before.containers) && NamesFree(before.initContainers) && NamesFree(before.ephemeralContainers)
    ensures after.annotations.Some?
    ensures var names := MutatedNames(Seen(before), after);
      if |names| > 0 then
        && after.annotations.value == InitAnnotations(before.annotations)[MutatedAnnotation := after.annotations.value[MutatedAnnotation]]
        && Split(after.annotations.value[MutatedAnnotation], NameSeparator) == names
      else after.annotations == Some(InitAnnotations(before.annotations))
  {
    var seen := Seen(before);
    var names := MutatedNames(seen, after);
    if |names| > 0 {
      forall i | 0 <= i < |names| ensures NameSeparator !in names[i] {
        var x := names[i];
        assert x in names;
        if x in ChangedNames(seen.containers, after.containers) {
          ChangedNamesFree(seen.containers, after.containers, k.mapping, x);
        } else if x in ChangedNames(seen.initContainers, after.initContainers) {
          ChangedNamesFree(seen.initContainers, after.initContainers, k.mapping, x);
        } else {
          ChangedNamesFree(seen.ephemeralContainers, after.ephemeralContainers, k.mapping, x);
        }
      }
      SplitJoin(names, NameSeparator);
    }
  }

  lemma {:induction false} EmptyMappingKeepsGroup(before: seq<Container>, after: seq<Container>)
    requires GroupRewritten(before, after, map[])
    ensures after == before
  {
    forall i | 0 <= i < |before| ensures after[i] == before[i] {
      assert ContainerRewritten(before[i], after[i], map[]);
      EmptyMappingKeepsImage(before[i].image, Success(after[i].image));
    }
  }

  /** With an empty mapping a successful run changes nothing but the nil annotations. */
  lemma EmptyMappingChangesNothing(k: ImageSwap, engine: Engine, before: PodValue, after: PodValue)
    requires k.mapping == map[]
    requires Defaulted(k, engine, before, after, None)
    ensures after == Seen(before)
  {
    var seen := Seen(before);
    if !Evaluation(k.queries, engine.marshal(seen), engine.search).matched {
      EmptyMappingKeepsGroup(seen.containers, after.containers);
      EmptyMappingKeepsGroup(seen.initContainers, after.initContainers);
      EmptyMappingKeepsGroup(seen.ephemeralContainers, after.ephemeralContainers);
      NoChangeNoNames(seen.containers, after.containers);
      NoChangeNoNames(seen.initContainers, after.initContainers);
      NoChangeNoNames(seen.ephemeralContainers, after.ephemeralContainers);
    }
  }
}
