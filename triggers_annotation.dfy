/**
 * The triggers-annotation enricher of the fabric8 Maven plugin.
 *
 * For every StatefulSet, ReplicaSet and DaemonSet of a generated resource list
 * that does not yet carry the `image.openshift.io/triggers` annotation, the
 * enricher builds one ImageStreamTag image-change trigger per container whose
 * image is local (no registry, no user), serialises the trigger list to JSON
 * (falling back to "[]" when serialisation fails) and stores the string under
 * that annotation key, creating the metadata and the annotation map if needed.
 */
module TriggersAnnotation {
  import opened Wrappers

  const TRIGGERS_ANNOTATION: string := "image.openshift.io/triggers"
  const IMAGE_STREAM_TAG: string := "ImageStreamTag"
  const DEFAULT_TAG: string := "latest"
  /** The annotation value written when the trigger list cannot be serialised. */
  const EMPTY_TRIGGER_LIST: string := "[]"
  const FIELD_PATH_PREFIX: string := "spec.template.spec.containers[?(@.name==\""
  const FIELD_PATH_SUFFIX: string := "\")].image"

  // ---------------------------------------------------------------------------
  // Data model
  // ---------------------------------------------------------------------------

  /** A parsed image reference `[registry/][user/]simpleName[:tag]`. */
  datatype ImageName = ImageName(
    registry: Option<string>,
    user: Option<string>,
    simpleName: string,
    tag: Option<string>)

  /** A container of a pod template: its name and its (parsed) image. */
  datatype Container = Container(name: string, image: ImageName)

  /** The part of a resource's metadata that the enricher reads or preserves. */
  datatype ObjectMeta = ObjectMeta(
    name: Option<string>,
    labels: Option<map<string, string>>,
    annotations: Option<map<string, string>>)

  /**
   * The resources of a generated list. `containers` are the containers a
   * container visitor reaches inside the resource, in visiting order.
   */
  datatype Resource =
    | StatefulSet(metadata: Option<ObjectMeta>, containers: seq<Container>)
    | ReplicaSet(metadata: Option<ObjectMeta>, containers: seq<Container>)
    | DaemonSet(metadata: Option<ObjectMeta>, containers: seq<Container>)
    | Other(kind: string, metadata: Option<ObjectMeta>, containers: seq<Container>)

  /** The kind of a resource, as a typed visitor selects it. */
  datatype Kind = StatefulSetKind | ReplicaSetKind | DaemonSetKind | OtherKind(name: string)

  /** `from` of an image-change trigger. */
  datatype ObjectReference = ObjectReference(kind: string, name: string)

  /** An image-change trigger with its `fieldPath` additional property. */
  datatype ImageChangeTrigger = ImageChangeTrigger(from: ObjectReference, fieldPath: string)

  /** The JSON mapper: it turns a trigger list into a string, or fails. */
  type Serializer = seq<ImageChangeTrigger> -> Result<string, string>

  function KindOf(r: Resource): Kind
  {
    match r
    case StatefulSet(_, _) => StatefulSetKind
    case ReplicaSet(_, _) => ReplicaSetKind
    case DaemonSet(_, _) => DaemonSetKind
    case Other(k, _, _) => OtherKind(k)
  }

  predicate IsWorkloadKind(k: Kind)
  {
    !k.OtherKind?
  }

  /** The resources the enricher visits: StatefulSet, ReplicaSet and DaemonSet. */
  predicate IsWorkload(r: Resource)
  {
    IsWorkloadKind(KindOf(r))
  }

  /** The annotations of a resource, the empty map when metadata or annotations are null. */
  function AnnotationsOf(r: Resource): map<string, string>
  {
    if r.metadata.Some? && r.metadata.value.annotations.Some?
    then r.metadata.value.annotations.value
    else map[]
  }

  // ---------------------------------------------------------------------------
  // canWriteTriggers
  // ---------------------------------------------------------------------------

  /** Triggers may be written unless the triggers annotation is already there. */
  predicate CanWriteTriggers(r: Resource): (b: bool)
    ensures b <==> TRIGGERS_ANNOTATION !in AnnotationsOf(r)
  {
    || r.metadata.None?
    || r.metadata.value.annotations.None?
    || TRIGGERS_ANNOTATION !in r.metadata.value.annotations.value
  }

  // ---------------------------------------------------------------------------
  // One trigger per local container
  // ---------------------------------------------------------------------------

  /** Images in the same namespace: neither a registry nor a user. */
  predicate IsLocal(image: ImageName): (b: bool)
    ensures b <==> image == ImageName(None, None, image.simpleName, image.tag)
  {
    image.registry.None? && image.user.None?
  }

  /** The image's tag, `latest` when it has none. */
  function TagOrDefault(image: ImageName): (tag: string)
    ensures image.tag.Some? ==> tag == image.tag.value
    ensures image.tag.None? ==> tag == DEFAULT_TAG
  {
    if image.tag.Some? then image.tag.value else DEFAULT_TAG
  }

  /** The ImageStreamTag a local image is tracked by: `simpleName:tag`. */
  function ImageStreamTagName(image: ImageName): (s: string)
    ensures |s| == |image.simpleName| + 1 + |TagOrDefault(image)|
    ensures s[..|image.simpleName|] == image.simpleName && s[|image.simpleName|] == ':'
    ensures s[|image.simpleName| + 1..] == TagOrDefault(image)
  {
    image.simpleName + ":" + TagOrDefault(image)
  }

  /** The JSONPath-like selector of the `image` field of the container called `containerName`. */
  function FieldPath(containerName: string): (path: string)
    ensures |path| == |FIELD_PATH_PREFIX| + |containerName| + |FIELD_PATH_SUFFIX|
    ensures path[..|FIELD_PATH_PREFIX|] == FIELD_PATH_PREFIX
    ensures path[|path| - |FIELD_PATH_SUFFIX|..] == FIELD_PATH_SUFFIX
    ensures path[|FIELD_PATH_PREFIX|..|path| - |FIELD_PATH_SUFFIX|] == containerName
  {
    FIELD_PATH_PREFIX + containerName + FIELD_PATH_SUFFIX
  }

  /** The trigger of one local container: its ImageStreamTag, and a field path naming the container. */
  function TriggerFor(c: Container): (t: ImageChangeTrigger)
    ensures t.from.kind == IMAGE_STREAM_TAG
    ensures t.from.name == ImageStreamTagName(c.image)
    ensures ContainerNameOf(t.fieldPath) == Some(c.name)
  {
    ImageChangeTrigger(ObjectReference(IMAGE_STREAM_TAG, ImageStreamTagName(c.image)), FieldPath(c.name))
  }

  /** What one visited container adds to the trigger list. */
  function Contribution(c: Container): seq<ImageChangeTrigger>
  {
    if IsLocal(c.image) then [TriggerFor(c)] else []
  }

  /** The trigger list built from `cs`, in visiting order. */
  function TriggersOf(cs: seq<Container>): (ts: seq<ImageChangeTrigger>)
    ensures |ts| == CountLocal(cs) <= |cs|
  {
    if cs == [] then [] else Contribution(cs[0]) + TriggersOf(cs[1..])
  }

  /** The number of containers in `cs` with a local image. */
  function CountLocal(cs: seq<Container>): nat
  {
    if cs == [] then 0 else (if IsLocal(cs[0].image) then 1 else 0) + CountLocal(cs[1..])
  }

  /** The annotation value for a trigger list: its serialisation, or "[]" on failure. */
  function AnnotationValue(triggers: seq<ImageChangeTrigger>, serialize: Serializer): (v: string)
    ensures serialize(triggers).Success? ==> v == serialize(triggers).value
    ensures serialize(triggers).Failure? ==> v == EMPTY_TRIGGER_LIST
  {
    match serialize(triggers)
    case Success(s) => s
    case Failure(_) => EMPTY_TRIGGER_LIST
  }

  /**
   * createAnnotation: visits the containers, accumulates the triggers of the
   * local ones and serialises the list, falling back to "[]".
   */
  method CreateAnnotation(containers: seq<Container>, serialize: Serializer) returns (value: string)
    ensures value == AnnotationValue(TriggersOf(containers), serialize)
  {
    var triggerList: seq<ImageChangeTrigger> := [];
    for i := 0 to |containers|
      invariant triggerList == TriggersOf(containers[..i])
    {
      var c := containers[i];
      if IsLocal(c.image) {
        triggerList := triggerList + [TriggerFor(c)];
      }
      TriggersOfSnoc(containers[..i], c);
      assert containers[..i + 1] == containers[..i] + [c];
    }
    assert containers[..|containers|] == containers;
    var result := serialize(triggerList);
    if result.Success? {
      value := result.value;
    } else {
      value := EMPTY_TRIGGER_LIST;
    }
  }

  // ---------------------------------------------------------------------------
  // Writing the annotation
  // ---------------------------------------------------------------------------

  /**
   * editOrNewMetadata().addToAnnotations(key, value): creates the metadata and
   * the annotation map when absent, then puts the entry.
   */
  function AddToAnnotations(r: Resource, key: string, value: string): (out: Resource)
    ensures KindOf(out) == KindOf(r) && out.containers == r.containers
    ensures out.metadata.Some? && out.metadata.value.annotations.Some?
    ensures AnnotationsOf(out) == AnnotationsOf(r)[key := value]
    ensures r.metadata.Some? ==>
      out.metadata.value.name == r.metadata.value.name && out.metadata.value.labels == r.metadata.value.labels
    ensures r.metadata.None? ==> out.metadata.value.name.None? && out.metadata.value.labels.None?
  {
    var meta := if r.metadata.Some? then r.metadata.value else ObjectMeta(None, None, None);
    var annotations := if meta.annotations.Some? then meta.annotations.value else map[];
    r.(metadata := Some(meta.(annotations := Some(annotations[key := value]))))
  }

  /** The body of the typed visitor for kind `k`, applied to one resource of the list. */
  function Visit(k: Kind, r: Resource, serialize: Serializer): (out: Resource)
    ensures KindOf(out) == KindOf(r) && out.containers == r.containers
    ensures KindOf(r) != k || !CanWriteTriggers(r) ==> out == r
    ensures KindOf(r) == k ==> !CanWriteTriggers(out)
    ensures KindOf(r) == k && CanWriteTriggers(r) ==>
      AnnotationsOf(out) == AnnotationsOf(r)[TRIGGERS_ANNOTATION := AnnotationValue(TriggersOf(r.containers), serialize)]
  {
    if KindOf(r) == k && CanWriteTriggers(r)
    then AddToAnnotations(r, TRIGGERS_ANNOTATION, AnnotationValue(TriggersOf(r.containers), serialize))
    else r
  }

  /** The effect of `adapt` on one resource. */
  function Enrich(r: Resource, serialize: Serializer): (out: Resource)
    ensures KindOf(out) == KindOf(r) && out.containers == r.containers
    ensures !IsWorkload(r) || !CanWriteTriggers(r) ==> out == r
    ensures IsWorkload(r) ==> !CanWriteTriggers(out)
    ensures IsWorkload(r) && CanWriteTriggers(r) ==>
      out.metadata.Some? && out.metadata.value.annotations.Some? &&
      AnnotationsOf(out) == AnnotationsOf(r)[TRIGGERS_ANNOTATION := AnnotationValue(TriggersOf(r.containers), serialize)]
  {
    if IsWorkload(r) && CanWriteTriggers(r)
    then AddToAnnotations(r, TRIGGERS_ANNOTATION, AnnotationValue(TriggersOf(r.containers), serialize))
    else r
  }

  /** The effect of `adapt` on a whole resource list. */
  function AdaptList(rs: seq<Resource>, serialize: Serializer): seq<Resource>
  {
    seq(|rs|, i requires 0 <= i < |rs| => Enrich(rs[i], serialize))
  }

  /** The effect of one typed visitor pass over a whole resource list. */
  function VisitList(k: Kind, rs: seq<Resource>, serialize: Serializer): seq<Resource>
  {
    seq(|rs|, i requires 0 <= i < |rs| => Visit(k, rs[i], serialize))
  }

  /** The list of resources `adapt` works on (a KubernetesListBuilder), edited in place. */
  class KubernetesList {
    var items: seq<Resource>

    constructor (items: seq<Resource>)
      ensures this.items == items
    {
      this.items := items;
    }

    /** adapt: the StatefulSet, ReplicaSet and DaemonSet visitors, run one after the other. */
    method Adapt(serialize: Serializer)
      modifies this
      ensures items == AdaptList(old(items), serialize)
    {
      ghost var original := items;
      VisitAll(StatefulSetKind, serialize);
      VisitAll(ReplicaSetKind, serialize);
      VisitAll(DaemonSetKind, serialize);
      forall i | 0 <= i < |original|
        ensures items[i] == AdaptList(original, serialize)[i]
      {
        ThreePassesEnrich(original[i], serialize);
      }
    }

    /** One typed visitor: every resource of kind `k` that can take triggers gets the annotation. */
    method VisitAll(k: Kind, serialize: Serializer)
      requires IsWorkloadKind(k)
      modifies this
      ensures items == VisitList(k, old(items), serialize)
    {
      var i := 0;
      while i < |items|
        invariant 0 <= i <= |items| == |old(items)|
        invariant forall j :: 0 <= j < i ==> items[j] == Visit(k, old(items)[j], serialize)
        invariant forall j :: i <= j < |items| ==> items[j] == old(items)[j]
      {
        var r := items[i];
        if KindOf(r) == k && CanWriteTriggers(r) {
          var value := CreateAnnotation(r.containers, serialize);
          items := items[i := AddToAnnotations(r, TRIGGERS_ANNOTATION, value)];
        }
        i := i + 1;
      }
    }
  }

  // ---------------------------------------------------------------------------
  // Lemmas: the trigger list
  // ---------------------------------------------------------------------------

  /** Visiting one more container appends exactly its contribution. */
  lemma {:induction false} TriggersOfSnoc(cs: seq<Container>, c: Container)
    ensures TriggersOf(cs + [c]) == TriggersOf(cs) + Contribution(c)
  {
    if cs == [] {
      assert [c][1..] == [];
    } else {
      assert (cs + [c])[1..] == cs[1..] + [c];
      TriggersOfSnoc(cs[1..], c);
    }
  }

  /** The trigger list of a concatenation is the concatenation: triggers keep container order. */
  lemma {:induction false} TriggersOfAppend(a: seq<Container>, b: seq<Container>)
    ensures TriggersOf(a + b) == TriggersOf(a) + TriggersOf(b)
  {
    if a == [] {
      assert a + b == b;
    } else {
      assert (a + b)[0] == a[0] && (a + b)[1..] == a[1..] + b;
      TriggersOfAppend(a[1..], b);
      calc {
        TriggersOf(a + b);
        Contribution(a[0]) + TriggersOf(a[1..] + b);
        Contribution(a[0]) + (TriggersOf(a[1..]) + TriggersOf(b));
        (Contribution(a[0]) + TriggersOf(a[1..])) + TriggersOf(b);
      }
    }
  }

  /** A trigger is in the list exactly when it is the trigger of some local container. */
  lemma {:induction false} TriggersOfMembership(cs: seq<Container>, t: ImageChangeTrigger)
    ensures t in TriggersOf(cs) <==> exists j :: 0 <= j < |cs| && IsLocal(cs[j].image) && t == TriggerFor(cs[j])
  {
    if cs != [] {
      TriggersOfMembership(cs[1..], t);
      if t in TriggersOf(cs[1..]) {
        var j :| 0 <= j < |cs[1..]| && IsLocal(cs[1..][j].image) && t == TriggerFor(cs[1..][j]);
        assert cs[j + 1] == cs[1..][j];
      }
      if exists j :: 0 <= j < |cs| && IsLocal(cs[j].image) && t == TriggerFor(cs[j]) {
        var j :| 0 <= j < |cs| && IsLocal(cs[j].image) && t == TriggerFor(cs[j]);
        if j > 0 {
          assert cs[1..][j - 1] == cs[j];
        }
      }
    }
  }

  /** Containers with a registry or a user contribute nothing: all-remote gives the empty list. */
  lemma {:induction false} TriggersOfNoLocal(cs: seq<Container>)
    requires forall j :: 0 <= j < |cs| ==> !IsLocal(cs[j].image)
    ensures TriggersOf(cs) == []
  {
    if cs != [] {
      assert !IsLocal(cs[0].image);
      TriggersOfNoLocal(cs[1..]);
    }
  }

  /** When every container is local, the i-th trigger belongs to the i-th container. */
  lemma {:induction false} TriggersOfAllLocal(cs: seq<Container>)
    requires forall j :: 0 <= j < |cs| ==> IsLocal(cs[j].image)
    ensures |TriggersOf(cs)| == |cs|
    ensures forall i :: 0 <= i < |cs| ==> TriggersOf(cs)[i] == TriggerFor(cs[i])
  {
    if cs != [] {
      assert IsLocal(cs[0].image);
      TriggersOfAllLocal(cs[1..]);
      assert TriggersOf(cs) == [TriggerFor(cs[0])] + TriggersOf(cs[1..]);
    }
  }

  /** Every trigger in the list is an ImageStreamTag trigger. */
  lemma {:induction false} TriggersOfKind(cs: seq<Container>)
    ensures forall t :: t in TriggersOf(cs) ==> t.from.kind == IMAGE_STREAM_TAG
  {
    forall t | t in TriggersOf(cs)
      ensures t.from.kind == IMAGE_STREAM_TAG
    {
      TriggersOfMembership(cs, t);
    }
  }

  /** No tag means the `latest` ImageStreamTag. */
  lemma ImageStreamTagNameDefault(image: ImageName)
    requires image.tag.None?
    ensures ImageStreamTagName(image) == image.simpleName + ":latest"
  {
  }

  // ---------------------------------------------------------------------------
  // Lemmas: the strings a trigger is made of can be read back
  // ---------------------------------------------------------------------------

  /** The position of the last `c` in `s`, if any. */
  function LastIndexOf(s: string, c: char): (r: Option<nat>)
    ensures r.Some? ==> r.value < |s| && s[r.value] == c && forall j :: r.value < j < |s| ==> s[j] != c
    ensures r.None? ==> forall j :: 0 <= j < |s| ==> s[j] != c
  {
    if |s| == 0 then None
    else if s[|s| - 1] == c then Some(|s| - 1)
    else LastIndexOf(s[..|s| - 1], c)
  }

  /** Splits an ImageStreamTag name `name:tag` at its last colon. */
  function SplitImageStreamTag(s: string): Option<(string, string)>
  {
    match LastIndexOf(s, ':')
    case None => None
    case Some(i) => Some((s[..i], s[i + 1..]))
  }

  /** The ImageStreamTag name gives back the simple name and the (defaulted) tag. */
  lemma ImageStreamTagNameRoundTrip(image: ImageName)
    requires image.tag.Some? ==> ':' !in image.tag.value
    ensures SplitImageStreamTag(ImageStreamTagName(image)) == Some((image.simpleName, TagOrDefault(image)))
  {
  }

  /** Reads the container name back out of a field path, if it has the selector's shape. */
  function ContainerNameOf(path: string): Option<string>
  {
    var p, q := |FIELD_PATH_PREFIX|, |FIELD_PATH_SUFFIX|;
    if |path| >= p + q && path[..p] == FIELD_PATH_PREFIX && path[|path| - q..] == FIELD_PATH_SUFFIX
    then Some(path[p..|path| - q])
    else None
  }

  /** A trigger's field path names that very container. */
  lemma FieldPathRoundTrip(containerName: string)
    ensures ContainerNameOf(FieldPath(containerName)) == Some(containerName)
  {
  }

  /** Containers with different names get different field paths. */
  lemma FieldPathInjective(a: string, b: string)
    ensures FieldPath(a) == FieldPath(b) ==> a == b
  {
  }

  // ---------------------------------------------------------------------------
  // Lemmas: adapt
  // ---------------------------------------------------------------------------

  /** The three visitor passes have the effect of `Enrich` on every resource. */
  lemma ThreePassesEnrich(r: Resource, serialize: Serializer)
    ensures Visit(DaemonSetKind, Visit(ReplicaSetKind, Visit(StatefulSetKind, r, serialize), serialize), serialize)
         == Enrich(r, serialize)
  {
  }

  /** A second `adapt` changes nothing. */
  lemma AdaptIdempotent(rs: seq<Resource>, serialize: Serializer)
    ensures AdaptList(AdaptList(rs, serialize), serialize) == AdaptList(rs, serialize)
  {
  }

  /** `adapt` keeps the list's length and order; only writable workloads change. */
  lemma AdaptFrame(rs: seq<Resource>, serialize: Serializer, i: nat)
    requires i < |rs|
    ensures |AdaptList(rs, serialize)| == |rs|
    ensures !IsWorkload(rs[i]) ==> AdaptList(rs, serialize)[i] == rs[i]
    ensures !CanWriteTriggers(rs[i]) ==> AdaptList(rs, serialize)[i] == rs[i]
    ensures KindOf(AdaptList(rs, serialize)[i]) == KindOf(rs[i])
  {
  }

  /**
   * After `adapt` every workload carries the triggers annotation, a writable
   * one with the computed value, and all other annotations are kept.
   */
  lemma AdaptWritesTriggers(rs: seq<Resource>, serialize: Serializer, i: nat)
    requires i < |rs| && IsWorkload(rs[i])
    ensures TRIGGERS_ANNOTATION in AnnotationsOf(AdaptList(rs, serialize)[i])
    ensures CanWriteTriggers(rs[i]) ==>
      AnnotationsOf(AdaptList(rs, serialize)[i])[TRIGGERS_ANNOTATION]
        == AnnotationValue(TriggersOf(rs[i].containers), serialize)
    ensures forall key :: key != TRIGGERS_ANNOTATION ==>
      (key in AnnotationsOf(rs[i]) <==> key in AnnotationsOf(AdaptList(rs, serialize)[i]))
    ensures forall key :: key != TRIGGERS_ANNOTATION && key in AnnotationsOf(rs[i]) ==>
      AnnotationsOf(AdaptList(rs, serialize)[i])[key] == AnnotationsOf(rs[i])[key]
  {
  }

  // ---------------------------------------------------------------------------
  // Scenarios
  // ---------------------------------------------------------------------------

  /** Container `app` running `myapp:v2` gets one trigger on ImageStreamTag `myapp:v2`. */
  lemma LocalImageScenario()
    ensures TriggersOf([Container("app", ImageName(None, None, "myapp", Some("v2")))])
         == [ImageChangeTrigger(ObjectReference("ImageStreamTag", "myapp:v2"),
                                "spec.template.spec.containers[?(@.name==\"app\")].image")]
  {
    var image := ImageName(None, None, "myapp", Some("v2"));
    assert ImageStreamTagName(image) == "myapp:v2";
    assert FieldPath("app") == "spec.template.spec.containers[?(@.name==\"app\")].image";
    assert TriggersOf([Container("app", image)]) == Contribution(Container("app", image)) + TriggersOf([]);
  }

  /** A resource whose only image is `quay.io/foo/bar:v1` gets the serialised empty list. */
  lemma RemoteImageScenario(serialize: Serializer)
    ensures AnnotationValue(TriggersOf([Container("bar", ImageName(Some("quay.io"), Some("foo"), "bar", Some("v1")))]), serialize)
         == AnnotationValue([], serialize)
  {
  }
}
