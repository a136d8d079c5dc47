/**
 * The build-then-tag contract of the fabric8 Docker build service, as its unit
 * test pins it down: `build(image)` asks the Docker build service to build the
 * image with the configured pull manager and build context, and then to tag
 * it with the image's name, in that order. The build service is a recorder
 * of the calls it receives; the test's cache store is a one-slot store that
 * ignores its key.
 */
module DockerBuild {
  import opened Wrappers

  // ---------------------------------------------------------------------------
  // Configuration values
  // ---------------------------------------------------------------------------

  /** The build part of an image configuration; `from` is the base image. */
  datatype BuildImageConfiguration = BuildImageConfiguration(from: Option<string>)

  /** An image to build: its target name and its build configuration. */
  datatype ImageConfiguration = ImageConfiguration(name: string, buildConfig: Option<BuildImageConfiguration>)

  /** The Docker build context, passed through to the build service untouched. */
  datatype BuildContext = BuildContext(parameters: map<string, string>)

  /** The value of the most recent put, whatever its key (possibly null); null before any put. */
  ghost function LastPut(puts: seq<(string, Option<string>)>): Option<string>
  {
    if puts == [] then None else puts[|puts| - 1].1
  }

  /** The test's cache store: a single slot that every put overwrites. */
  class TestCacheStore {
    var cache: Option<string>
    /** Every put so far, as (key, value); a value may be null. */
    ghost var puts: seq<(string, Option<string>)>

    ghost predicate Valid()
      reads this
    {
      cache == LastPut(puts)
    }

    constructor ()
      ensures Valid() && puts == [] && cache == None
    {
      cache := None;
      puts := [];
    }

    method Get(key: string) returns (value: Option<string>)
      requires Valid()
      ensures value == LastPut(puts)
    {
      value := cache;
    }

    method Put(key: string, value: Option<string>)
      requires Valid()
      modifies this
      ensures Valid() && puts == old(puts) + [(key, value)]
      ensures cache == value
    {
      cache := value;
      puts := puts + [(key, value)];
    }
  }

  /** The pull manager: a cache store with the pull policy and auto-pull mode names. */
  class ImagePullManager {
    const cacheStore: TestCacheStore
    const imagePullPolicy: string
    const autoPull: string

    constructor (cacheStore: TestCacheStore, imagePullPolicy: string, autoPull: string)
      ensures this.cacheStore == cacheStore
      ensures this.imagePullPolicy == imagePullPolicy && this.autoPull == autoPull
    {
      this.cacheStore := cacheStore;
      this.imagePullPolicy := imagePullPolicy;
      this.autoPull := autoPull;
    }
  }

  /** What `build` is configured with. */
  datatype BuildServiceConfig = BuildServiceConfig(dockerBuildContext: BuildContext, imagePullManager: ImagePullManager)

  // ---------------------------------------------------------------------------
  // Calls on the Docker build service
  // ---------------------------------------------------------------------------

  datatype Call =
    | BuildImage(image: ImageConfiguration, pullManager: ImagePullManager, context: BuildContext)
    | TagImage(name: string, tagged: ImageConfiguration)

  /** The Docker build service, recording every call it receives in order. */
  class RecordingBuildService {
    var calls: seq<Call>

    constructor ()
      ensures calls == []
    {
      calls := [];
    }

    method BuildImage(image: ImageConfiguration, pullManager: ImagePullManager, context: BuildContext)
      modifies this
      ensures calls == old(calls) + [Call.BuildImage(image, pullManager, context)]
    {
      calls := calls + [Call.BuildImage(image, pullManager, context)];
    }

    method TagImage(name: string, image: ImageConfiguration)
      modifies this
      ensures calls == old(calls) + [Call.TagImage(name, image)]
    {
      calls := calls + [Call.TagImage(name, image)];
    }
  }

  /** The calls one `build(image)` makes: build with the configured pull manager and context, then tag. */
  function BuildTrace(config: BuildServiceConfig, image: ImageConfiguration): seq<Call>
  {
    [Call.BuildImage(image, config.imagePullManager, config.dockerBuildContext), Call.TagImage(image.name, image)]
  }

  /** The service under test; `buildService` is the one its service hub hands out. */
  class DockerBuildService {
    const buildService: RecordingBuildService
    const config: BuildServiceConfig

    constructor (buildService: RecordingBuildService, config: BuildServiceConfig)
      ensures this.buildService == buildService && this.config == config
    {
      this.buildService := buildService;
      this.config := config;
    }

    method Build(image: ImageConfiguration)
      modifies buildService
      ensures buildService.calls == old(buildService.calls) + BuildTrace(config, image)
    {
      buildService.BuildImage(image, config.imagePullManager, config.dockerBuildContext);
      buildService.TagImage(image.name, image);
    }
  }

  // ---------------------------------------------------------------------------
  // Ordering
  // ---------------------------------------------------------------------------

  /** `expected` occurs in `actual` in this order, other calls possibly in between. */
  predicate InOrder(expected: seq<Call>, actual: seq<Call>): (b: bool)
    ensures b ==> |expected| <= |actual|
    ensures b && expected != [] ==> expected[0] in actual && expected[|expected| - 1] in actual
    decreases |actual|
  {
    if expected == [] then true
    else if actual == [] then false
    else (actual[0] == expected[0] && InOrder(expected[1..], actual[1..])) || InOrder(expected, actual[1..])
  }

  /** Every tag call is preceded by a build call for the same image configuration. */
  ghost predicate TagPreceded(calls: seq<Call>)
  {
    forall j :: 0 <= j < |calls| && calls[j].TagImage? ==>
      exists i :: 0 <= i < j && calls[i].BuildImage? && calls[i].image == calls[j].tagged
  }

  lemma {:induction false} InOrderReflexive(calls: seq<Call>)
    ensures InOrder(calls, calls)
  {
    if calls != [] {
      InOrderReflexive(calls[1..]);
    }
  }

  /** Calls made last are found in order whatever was recorded before them. */
  lemma {:induction false} InOrderSuffix(before: seq<Call>, calls: seq<Call>)
    ensures InOrder(calls, before + calls)
  {
    if before == [] {
      assert before + calls == calls;
      InOrderReflexive(calls);
    } else if calls != [] {
      assert (before + calls)[1..] == before[1..] + calls;
      InOrderSuffix(before[1..], calls);
    }
  }

  /** After `build(image)` the recorder has seen buildImage and then tagImage, with these arguments. */
  lemma BuildThenTag(before: seq<Call>, config: BuildServiceConfig, image: ImageConfiguration)
    ensures InOrder([Call.BuildImage(image, config.imagePullManager, config.dockerBuildContext),
                     Call.TagImage(image.name, image)],
                    before + BuildTrace(config, image))
  {
    InOrderSuffix(before, BuildTrace(config, image));
  }

  /** `build` never adds a tag call without a build call for the same image before it. */
  lemma BuildKeepsTagPreceded(before: seq<Call>, config: BuildServiceConfig, image: ImageConfiguration)
    requires TagPreceded(before)
    ensures TagPreceded(before + BuildTrace(config, image))
  {
    var after := before + BuildTrace(config, image);
    forall j | 0 <= j < |after| && after[j].TagImage?
      ensures exists i :: 0 <= i < j && after[i].BuildImage? && after[i].image == after[j].tagged
    {
      if j < |before| {
        var i :| 0 <= i < j && before[i].BuildImage? && before[i].image == before[j].tagged;
        assert after[i] == before[i];
      } else {
        assert j == |before| + 1;
        assert after[|before|].BuildImage? && after[|before|].image == image;
      }
    }
  }

  /** Whatever the keys, a get right after a put returns that put's value, null included. */
  method PutThenGet(store: TestCacheStore, key: string, value: Option<string>, otherKey: string)
    returns (got: Option<string>)
    requires store.Valid()
    modifies store
    ensures store.Valid() && got == value
  {
    store.Put(key, value);
    got := store.Get(otherKey);
  }

  // ---------------------------------------------------------------------------
  // The test scenario
  // ---------------------------------------------------------------------------

  /**
   * testSuccessfulBuild: building `image-name` from base `from` records
   * buildImage with the same image, pull manager and context, then tagImage.
   */
  method TestSuccessfulBuild() returns (calls: seq<Call>)
    ensures |calls| == 2 && calls[0].BuildImage? && calls[1].TagImage?
    ensures calls[0].image == ImageConfiguration("image-name", Some(BuildImageConfiguration(Some("from"))))
    ensures calls[0].pullManager.imagePullPolicy == "Always" && calls[0].pullManager.autoPull == "ALWAYS"
    ensures calls[0].context == BuildContext(map[])
    ensures calls[1] == Call.TagImage("image-name", calls[0].image)
  {
    var context := BuildContext(map[]);
    var store := new TestCacheStore();
    var pullManager := new ImagePullManager(store, "Always", "ALWAYS");
    var config := BuildServiceConfig(context, pullManager);
    var imageName := "image-name";
    var image := ImageConfiguration(imageName, Some(BuildImageConfiguration(Some("from"))));
    var buildService := new RecordingBuildService();
    var service := new DockerBuildService(buildService, config);
    service.Build(image);
    calls := buildService.calls;
    BuildThenTag([], config, image);
    assert InOrder([Call.BuildImage(image, pullManager, context), Call.TagImage(imageName, image)], calls);
  }

  /**
   * The test's store: get is null before any put, returns the last put value
   * for any key, and is null again after a null value is put.
   */
  method TestCacheStoreScenario() returns (first: Option<string>, last: Option<string>, cleared: Option<string>)
    ensures first == None && last == Some("v2") && cleared == None
  {
    var store := new TestCacheStore();
    first := store.Get("a");
    store.Put("a", Some("v1"));
    store.Put("b", Some("v2"));
    last := store.Get("c");
    store.Put("b", None);
    cleared := store.Get("b");
  }
}
