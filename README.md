# Triggers annotation and build-then-tag, modelled in Dafny

This project models two parts of the fabric8 Maven plugin.

**The triggers-annotation enricher** (`TriggersAnnotation`, in `triggers_annotation.dfy`).
It post-processes a generated list of Kubernetes resources so that OpenShift redeploys them when an ImageStream changes.
It acts only on StatefulSets, ReplicaSets and DaemonSets.
Each of these that does not yet carry the `image.openshift.io/triggers` annotation gets one.
The annotation value is the JSON list of ImageStreamTag triggers, one per container whose image has no registry and no user.
Each trigger names `simpleName:tag`, with the tag defaulting to `latest`.
Each trigger's field path selects that container's `image` by the container's name.
When serialisation fails, the value is `[]`.
The metadata and the annotation map are created when they are missing.

- `adapt` is a method on a resource list (`KubernetesList`) that edits its `items` in place.
- It runs three typed-visitor passes, one per workload kind. Each pass is a loop.
- The three passes are proved equal to one per-resource function, `Enrich`.
- `createAnnotation` is a loop that accumulates the trigger list. It is proved equal to the recursive `TriggersOf`.

**The build-then-tag contract of the Docker build service** (`DockerBuild`, in `docker_build.dfy`).
The model follows the unit test.
`build(image)` asks the build service to build the image with the configured pull manager and build context.
It then asks it to tag the image with the image's name.
The build service is a recorder of calls, standing in for the test's mocked build service.
The test's cache store is a one-slot class: it ignores its key, and every put overwrites the slot.

`Wrappers` (in `wrappers.dfy`) holds `Option` (Java's nullable references) and `Result`.

Inputs:
- Image references come already parsed, as `ImageName(registry?, user?, simpleName, tag?)`.
- The JSON mapper is a function parameter of type `seq<ImageChangeTrigger> -> Result<string, string>`.

## Model

| member | source | states |
|---|---|---|
| `TriggersAnnotation.CanWriteTriggers` | enricher/standard/src/main/java/io/fabric8/maven/enricher/standard/TriggersAnnotationEnricher.java:91-95 | true exactly when the triggers key is not among the resource's annotations, where null metadata or null annotations count as no annotations |
| `TriggersAnnotation.AnnotationValue` | enricher/standard/src/main/java/io/fabric8/maven/enricher/standard/TriggersAnnotationEnricher.java:123-128 | the serialised list when serialisation succeeds, exactly `[]` when it fails; there is no failing outcome |
| `TriggersAnnotation.CreateAnnotation` | enricher/standard/src/main/java/io/fabric8/maven/enricher/standard/TriggersAnnotationEnricher.java:97-129 | the accumulating loop yields the annotation value of `TriggersOf(containers)` |
| `TriggersAnnotation.AddToAnnotations` | enricher/standard/src/main/java/io/fabric8/maven/enricher/standard/TriggersAnnotationEnricher.java:60-62 | metadata and annotation map exist afterwards; annotations become the old ones with the key set to the value; kind, containers, name and labels are kept; new metadata has no name or labels |
| `TriggersAnnotation.IsLocal` | enricher/standard/src/main/java/io/fabric8/maven/enricher/standard/TriggersAnnotationEnricher.java:106 | an image is local exactly when it is its simple name and tag alone: no registry and no user |
| `TriggersAnnotation.TagOrDefault` | enricher/standard/src/main/java/io/fabric8/maven/enricher/standard/TriggersAnnotationEnricher.java:108 | the image's own tag when it has one, `latest` otherwise |
| `TriggersAnnotation.ImageStreamTagName` | enricher/standard/src/main/java/io/fabric8/maven/enricher/standard/TriggersAnnotationEnricher.java:113 | the simple name, then one colon, then the (defaulted) tag, and nothing else |
| `TriggersAnnotation.FieldPath` | enricher/standard/src/main/java/io/fabric8/maven/enricher/standard/TriggersAnnotationEnricher.java:117 | the selector prefix, then exactly the container name, then the `image` suffix |
| `TriggersAnnotation.TriggerFor` | enricher/standard/src/main/java/io/fabric8/maven/enricher/standard/TriggersAnnotationEnricher.java:110-117 | an `ImageStreamTag` trigger on the image's ImageStreamTag name, whose field path reads back as the container's own name |
| `TriggersAnnotation.TriggersOf` | enricher/standard/src/main/java/io/fabric8/maven/enricher/standard/TriggersAnnotationEnricher.java:98-121 | the reference the loop is proved against; it has exactly one trigger per container with a local image, so never more triggers than containers |
| `TriggersAnnotation.Visit` | enricher/standard/src/main/java/io/fabric8/maven/enricher/standard/TriggersAnnotationEnricher.java:58-64 | one visitor body: kind and containers are kept; a resource of another kind or already annotated is unchanged; a resource of the visitor's kind ends up annotated, a writable one with exactly the triggers key added |
| `TriggersAnnotation.Enrich` | enricher/standard/src/main/java/io/fabric8/maven/enricher/standard/TriggersAnnotationEnricher.java:56-87 | kind and containers are kept; a non-workload or an already-annotated resource is returned unchanged; every workload ends up with the triggers key; a writable workload gains exactly that key with the computed value |
| `TriggersAnnotation.KubernetesList.Adapt` | enricher/standard/src/main/java/io/fabric8/maven/enricher/standard/TriggersAnnotationEnricher.java:53-89 | after the three visitor passes, the items are the old items each passed through `Enrich` |
| `TriggersAnnotation.KubernetesList.VisitAll` | enricher/standard/src/main/java/io/fabric8/maven/enricher/standard/TriggersAnnotationEnricher.java:56-65 | one typed-visitor pass annotates every writable resource of its kind and leaves every other item as it was |
| `TriggersAnnotation.ThreePassesEnrich` | enricher/standard/src/main/java/io/fabric8/maven/enricher/standard/TriggersAnnotationEnricher.java:54-89 | the StatefulSet, ReplicaSet and DaemonSet passes in sequence act on each resource exactly as `Enrich` |
| `TriggersAnnotation.AdaptIdempotent` | enricher/standard/src/main/java/io/fabric8/maven/enricher/standard/TriggersAnnotationEnricher.java:59-63 | adapting an adapted list changes nothing |
| `TriggersAnnotation.AdaptFrame` | enricher/standard/src/main/java/io/fabric8/maven/enricher/standard/TriggersAnnotationEnricher.java:56-87 | the list keeps its length, order and kinds; other kinds and already-annotated resources are untouched |
| `TriggersAnnotation.AdaptWritesTriggers` | enricher/standard/src/main/java/io/fabric8/maven/enricher/standard/TriggersAnnotationEnricher.java:59-62 | every workload has the triggers key afterwards, a writable one with the computed value; every other annotation keeps its presence and value |
| `TriggersAnnotation.TriggersOfSnoc` | enricher/standard/src/main/java/io/fabric8/maven/enricher/standard/TriggersAnnotationEnricher.java:99-120 | visiting one more container appends its trigger if it is local, and nothing otherwise |
| `TriggersAnnotation.TriggersOfAppend` | enricher/standard/src/main/java/io/fabric8/maven/enricher/standard/TriggersAnnotationEnricher.java:98-121 | the triggers of concatenated containers are the concatenated triggers, so triggers follow container order |
| `TriggersAnnotation.TriggersOfMembership` | enricher/standard/src/main/java/io/fabric8/maven/enricher/standard/TriggersAnnotationEnricher.java:106-118 | a trigger is in the list if and only if it is the trigger of some local container |
| `TriggersAnnotation.TriggersOfNoLocal` | enricher/standard/src/main/java/io/fabric8/maven/enricher/standard/TriggersAnnotationEnricher.java:106 | containers with a registry or a user contribute nothing, so all-remote images give the empty list |
| `TriggersAnnotation.TriggersOfAllLocal` | enricher/standard/src/main/java/io/fabric8/maven/enricher/standard/TriggersAnnotationEnricher.java:106-118 | with only local images there is exactly one trigger per container, the i-th trigger for the i-th container |
| `TriggersAnnotation.TriggersOfKind` | enricher/standard/src/main/java/io/fabric8/maven/enricher/standard/TriggersAnnotationEnricher.java:110-115 | every trigger's `from` kind is `ImageStreamTag` |
| `TriggersAnnotation.ImageStreamTagNameDefault` | enricher/standard/src/main/java/io/fabric8/maven/enricher/standard/TriggersAnnotationEnricher.java:108 | an image without a tag is tracked as `simpleName:latest` |
| `TriggersAnnotation.ImageStreamTagNameRoundTrip` | enricher/standard/src/main/java/io/fabric8/maven/enricher/standard/TriggersAnnotationEnricher.java:108-113 | splitting the trigger name at its last colon gives back the simple name and the tag (defaulted), provided the tag has no colon |
| `TriggersAnnotation.FieldPathRoundTrip` | enricher/standard/src/main/java/io/fabric8/maven/enricher/standard/TriggersAnnotationEnricher.java:117 | the field path has the `spec.template.spec.containers[?(@.name=="…")].image` shape and reading the name back out of it gives the container's own name |
| `TriggersAnnotation.FieldPathInjective` | enricher/standard/src/main/java/io/fabric8/maven/enricher/standard/TriggersAnnotationEnricher.java:117 | containers with different names get different field paths |
| `TriggersAnnotation.LocalImageScenario` | enricher/standard/src/main/java/io/fabric8/maven/enricher/standard/TriggersAnnotationEnricher.java:106-118 | container `app` with image `myapp:v2` yields exactly one trigger, on `myapp:v2`, selecting the image of `app` |
| `TriggersAnnotation.RemoteImageScenario` | enricher/standard/src/main/java/io/fabric8/maven/enricher/standard/TriggersAnnotationEnricher.java:106 | a resource whose only image is `quay.io/foo/bar:v1` gets the value of the empty list |
| `DockerBuild.TestCacheStore.constructor` | core/src/test/java/io/fabric8/maven/core/service/kubernetes/DockerBuildServiceTest.java:67-69 | a new store holds null and has seen no put |
| `DockerBuild.TestCacheStore.Get` | core/src/test/java/io/fabric8/maven/core/service/kubernetes/DockerBuildServiceTest.java:71-74 | returns the value of the most recent put, whatever the keys, and null before any put |
| `DockerBuild.TestCacheStore.Put` | core/src/test/java/io/fabric8/maven/core/service/kubernetes/DockerBuildServiceTest.java:76-79 | records the put and overwrites the slot with the value, ignoring the key; a null value empties the slot |
| `DockerBuild.PutThenGet` | core/src/test/java/io/fabric8/maven/core/service/kubernetes/DockerBuildServiceTest.java:71-79 | on a valid store, a put followed by a get returns the put value, whatever the two keys, null included |
| `DockerBuild.TestCacheStoreScenario` | core/src/test/java/io/fabric8/maven/core/service/kubernetes/DockerBuildServiceTest.java:67-80 | get before any put is null; after put("a","v1") and put("b","v2"), get("c") is "v2"; after put("b", null), get("b") is null again |
| `DockerBuild.ImagePullManager.constructor` | core/src/test/java/io/fabric8/maven/core/service/kubernetes/DockerBuildServiceTest.java:47 | the pull manager holds the cache store and the pull policy and auto-pull names it was given |
| `DockerBuild.RecordingBuildService.BuildImage` | core/src/test/java/io/fabric8/maven/core/service/kubernetes/DockerBuildServiceTest.java:62 | the recorder appends a buildImage call with exactly its arguments |
| `DockerBuild.RecordingBuildService.TagImage` | core/src/test/java/io/fabric8/maven/core/service/kubernetes/DockerBuildServiceTest.java:63 | the recorder appends a tagImage call with exactly its arguments |
| `DockerBuild.DockerBuildService.constructor` | core/src/test/java/io/fabric8/maven/core/service/kubernetes/DockerBuildServiceTest.java:58 | the service keeps the build service its hub hands out and the configuration it was given |
| `DockerBuild.InOrder` | core/src/test/java/io/fabric8/maven/core/service/kubernetes/DockerBuildServiceTest.java:61-64 | the meaning of the in-order verification: the expected calls occur in the recorded calls in that order, possibly with others between; it then needs at least as many recorded calls, and the first and last expected calls were made |
| `DockerBuild.DockerBuildService.Build` | core/src/test/java/io/fabric8/maven/core/service/kubernetes/DockerBuildServiceTest.java:58-64 | appends buildImage(image, configured pull manager, configured context) and then tagImage(image name, image) to the recorded calls |
| `DockerBuild.InOrderSuffix` | core/src/test/java/io/fabric8/maven/core/service/kubernetes/DockerBuildServiceTest.java:61-64 | calls made last are found in order, whatever was recorded before them |
| `DockerBuild.BuildThenTag` | core/src/test/java/io/fabric8/maven/core/service/kubernetes/DockerBuildServiceTest.java:61-64 | after `build`, buildImage with the same image, pull manager and context occurs before tagImage with the image's name |
| `DockerBuild.BuildKeepsTagPreceded` | core/src/test/java/io/fabric8/maven/core/service/kubernetes/DockerBuildServiceTest.java:58-64 | if every tag call so far followed a build call for the same image, this still holds after `build` |
| `DockerBuild.TestSuccessfulBuild` | core/src/test/java/io/fabric8/maven/core/service/kubernetes/DockerBuildServiceTest.java:39-65 | building `image-name` from base `from` with policy `Always` records buildImage(image, pull manager, context) and then tagImage("image-name", image); that there are exactly these two calls comes from the model's `build`, not from the test |

## Left out

- Image-name parsing (`ImageName` of the docker-maven-plugin) is not part of this model. Containers carry the already-parsed registry, user, simple name and tag.
- TriggersAnnotation.CreateAnnotation, TriggersAnnotation.Enrich and TriggersAnnotation.KubernetesList.Adapt: the abort path is not modelled. The source parses each image outside the try block that guards serialisation. A container with no image, or an image the parser rejects, makes the container visitor throw, and then `adapt` aborts for the whole list. The model has no such container, so these members are total. The `[]` fallback covers serialisation failures only.
- Jackson serialisation is not part of this model. Only the choice between the serialised string and the `[]` fallback is modelled, through a serialiser parameter that may fail.
- The error log written when serialisation fails is not modelled: logging has no verifiable effect.
- The fabric8 builder/visitor framework is replaced by a closed sum type and functional updates. The model does not decide which nested containers a container visitor reaches, or in what order: `containers` is that visiting order. For example, the model does not say whether init containers are visited. If they are, each gets a trigger whose field path still names the `containers` list.
- Resources nested in other items (a list inside a template, say) are not modelled. The typed visitors would reach them; the model has only top-level items.
- Null container names are not modelled. Java would render a null name as `null` in the field path.
- The orchestration inside `DockerBuildService` — validating the configuration, deciding on pulls, wrapping errors — is not modelled. `DockerBuildService`, `ServiceHub`, `ImagePullManager` and `AutoPullMode` are not part of this model. The unit test asserts that a buildImage call with the image, the pull manager and the context comes before a tagImage call with the image's name; `BuildThenTag` states this. The service hub appears only as the build service it hands out.
- DockerBuild.DockerBuildService.Build: the model's `build` makes exactly these two calls and no others. The test's in-order verification would also accept other calls before, between or after them, so the test pins down only what `BuildThenTag` states.
- Pull-policy semantics (Always, IfNotPresent, Never) are not modelled: their code is not shown. The pull manager only holds its cache store and its policy and mode names.
- Tag-skipped-on-build-failure is not modelled: the test does not exercise it.
- Only StatefulSets, ReplicaSets and DaemonSets are enriched (TriggersAnnotationEnricher.java:56-87). Deployments and other workloads with a pod template are left untouched.
- The WildFly Swarm generator is not modelled. It only adds two environment entries to a map produced by code that is not part of this model, and gates itself on project metadata.
- Concurrency is not modelled: the enricher and the build test are sequential.
