/** pipeline/pipeline.py: the `Pipeline` class and its `_build` method,
    which creates the processing graph for N configured sources.

    The graph is an arena: `stages` holds the elements in the order they
    are added to the GStreamer pipeline, and `links` holds the links made
    between them as index pairs, in the order they are made. Whether the
    framework can make an element, a bin or a pad is an input (`Env`). */
module Topology {
  import opened Text
  import opened Gst
  import opened Utils
  import opened Tiler

  /** One entry of the configuration mapping; only its "uri" key is read
      while building. */
  datatype SourceConfig = SourceConfig(uri: Option<string>)

  /** What the framework and the machine answer while the graph is built. */
  datatype Env = Env(
    uname: Uname,                 // `platform.uname()`
    installed: set<string>,       // factories `Gst.ElementFactory.make` can instantiate
    pipelineMade: bool,           // `Gst.Pipeline()` yields a pipeline
    binFails: set<nat>,           // sources whose `Gst.Bin.new` fails
    ghostPadFails: set<nat>,      // sources whose bin refuses its ghost pad
    refusedMuxPads: set<nat>,     // i such that the muxer refuses its "sink_i" request pad
    inferBatchSize: int)          // the batch size the inference element reads from its config file

  /** A link between two stages of the arena; an element-to-element link
      carries no pad names, a pad-to-pad link carries both. */
  datatype Link = Link(src: nat, srcPad: Option<string>, dst: nat, dstPad: Option<string>)

  /** A link with its stages given by name. */
  datatype NamedLink = NamedLink(src: string, srcPad: Option<string>, dst: string, dstPad: Option<string>)

  /** An element to create: its factory, its name, and the message of the
      RuntimeError raised when it cannot be created. */
  datatype StageSpec = StageSpec(factory: string, name: string, failure: string)

  const Muxer := StageSpec("nvstreammux", "stream-muxer", "Unable to create streammux module")
  const Inference := StageSpec("nvinfer", "primary-inference", "Unable to create inference module")
  const Converter1 := StageSpec("nvvideoconvert", "convertor1", "Unable to create video converter module 1")
  const Filter1 := StageSpec("capsfilter", "filter1", "Unable to create the caps filter")
  const TilerStage := StageSpec("nvmultistreamtiler", "nvtiler", "Unable to create the tiler")
  const Converter2 := StageSpec("nvvidconvert", "convertor2", "Unable to create video converter module 2")
  const Osd := StageSpec("nvdsosd", "onscreendisplay", "Unable to create nvosd")
  const Transform := StageSpec("nvegltransform", "nvegl-transform", "Unable to create transform")
  const Sink := StageSpec("nveglglessink", "nvvideo-renderer", "Unable to create output sink")

  const ModelConfigPath := "configs/model_config.txt"
  const MuxPadError := RuntimeError("Unable to create streammux sink pad")
  const Filter1Caps := "video/x-raw(memory:NVMM), format=RGBA"

  /** The elements created after the sources, in creation order. */
  function CreationOrder(aarch64: bool): seq<StageSpec>
  {
    [Inference, Converter1, Filter1, TilerStage, Converter2, Osd]
    + (if aarch64 then [Transform] else []) + [Sink]
  }

  /** The same elements in the order they are added to the pipeline. */
  function AddOrder(aarch64: bool): seq<StageSpec>
  {
    [Inference, Converter1, Converter2, Filter1, Osd, TilerStage]
    + (if aarch64 then [Transform] else []) + [Sink]
  }

  /** The element chain after the muxer, in link order. */
  function ChainNames(aarch64: bool): seq<string>
  {
    [Muxer.name, Inference.name, Converter1.name, Filter1.name, TilerStage.name,
     Converter2.name, Osd.name]
    + (if aarch64 then [Transform.name] else []) + [Sink.name]
  }

  /** The position of the first element of `specs` whose factory is not
      installed, or |specs| when every one is. */
  function FirstMissing(specs: seq<StageSpec>, installed: set<string>): (k: nat)
    ensures k <= |specs|
    ensures forall j :: 0 <= j < k ==> specs[j].factory in installed
    ensures k < |specs| ==> specs[k].factory !in installed
  {
    if specs == [] || specs[0].factory !in installed then 0
    else 1 + FirstMissing(specs[1..], installed)
  }

  // ---------------------------------------------------------------------
  // Names

  function MuxSinkPad(i: nat): string
  {
    "sink_" + NatToString(i)
  }

  /** The names of a sequence of elements, which are fixed at creation;
      the counterpart of `Gst.PadNames` for elements. */
  function Names(stages: seq<Element>): (names: seq<string>)
    ensures |names| == |stages|
    ensures forall k :: 0 <= k < |stages| ==> names[k] == stages[k].name
  {
    seq(|stages|, k requires 0 <= k < |stages| => stages[k].name)
  }

  /** No source bin is named like one of the fixed elements. */
  lemma SourceBinNameNotFixed(i: nat, fixed: string)
    requires |fixed| < 2 || fixed[0] != 's' || fixed[1] != 'o'
    ensures SourceBinName(i) != fixed
  {
    assert SourceBinName(i)[0] == 's' && SourceBinName(i)[1] == 'o';
  }

  /** Every element the build adds has a name no earlier element has, so
      every `add` the build makes succeeds. */
  lemma {:induction false} NamesDistinct(n: nat, aarch64: bool)
    ensures forall i, j :: 0 <= i < j ==> SourceBinName(i) != SourceBinName(j)
    ensures forall i: nat :: SourceBinName(i) != Muxer.name
    ensures forall i: nat, k :: 0 <= k < |AddOrder(aarch64)| ==> SourceBinName(i) != AddOrder(aarch64)[k].name
    ensures forall k :: 0 <= k < |AddOrder(aarch64)| ==> AddOrder(aarch64)[k].name != Muxer.name
    ensures forall j, k :: 0 <= j < k < |AddOrder(aarch64)| ==> AddOrder(aarch64)[j].name != AddOrder(aarch64)[k].name
  {
    forall i, j | 0 <= i < j
      ensures SourceBinName(i) != SourceBinName(j)
    {
      PrefixedNamesDistinct("source-bin-", i, j);
    }
    forall i: nat
      ensures SourceBinName(i) != Muxer.name
    {
      SourceBinNameNotFixed(i, Muxer.name);
    }
    forall i: nat, k | 0 <= k < |AddOrder(aarch64)|
      ensures SourceBinName(i) != AddOrder(aarch64)[k].name
    {
      SourceBinNameNotFixed(i, AddOrder(aarch64)[k].name);
    }
  }

  // ---------------------------------------------------------------------
  // The configuration

  /** Live detection for one uri: it names an RTSP or plain HTTP stream. */
  predicate IsLiveUri(uri: string)
  {
    Contains(uri, "rtsp://") || Contains(uri, "http://")
  }

  /** A uri is live exactly when "rtsp://" or "http://" occurs in it,
      anywhere. */
  lemma LiveUriIff(uri: string)
    ensures IsLiveUri(uri) <==>
              (exists i :: OccursAt(uri, "rtsp://", i)) || (exists i :: OccursAt(uri, "http://", i))
  {
    ContainsIff(uri, "rtsp://");
    ContainsIff(uri, "http://");
  }

  /** The configuration key of source i, `str(i)`. */
  function Key(i: nat): string
  {
    NatToString(i)
  }

  /** Every index below n has an entry with a uri. */
  predicate Configured(config: map<string, SourceConfig>, n: nat)
  {
    forall i :: 0 <= i < n ==> Key(i) in config && config[Key(i)].uri.Some?
  }

  function UriOf(config: map<string, SourceConfig>, i: nat): string
    requires Key(i) in config && config[Key(i)].uri.Some?
  {
    config[Key(i)].uri.value
  }

  /** The muxer is live exactly when some configured uri is. */
  predicate AnyLive(config: map<string, SourceConfig>, n: nat)
    requires Configured(config, n)
  {
    exists i :: 0 <= i < n && IsLiveUri(UriOf(config, i))
  }

  /** One more source makes the muxer live when it is, or when its uri is. */
  lemma AnyLiveSnoc(config: map<string, SourceConfig>, n: nat)
    requires Configured(config, n + 1)
    ensures AnyLive(config, n + 1) <==> AnyLive(config, n) || IsLiveUri(UriOf(config, n))
  {
    if AnyLive(config, n + 1) && !IsLiveUri(UriOf(config, n)) {
      var i :| 0 <= i < n + 1 && IsLiveUri(UriOf(config, i));
      assert i < n;
    }
  }

  // ---------------------------------------------------------------------
  // What the build raises

  /** The exception raised while handling source i, in the order of the
      loop body: the configuration lookups, the source bin, the muxer's
      request pad. `checksNewBin` says whether `create_source_bin` tests
      the new bin or the builtin as written. The check of the bin's "src"
      pad never fires, since a bin that was made always has that pad. */
  function SourceFailure(config: map<string, SourceConfig>, env: Env, checksNewBin: bool, i: nat)
    : (e: Option<Exception>)
    ensures e == None ==> Key(i) in config && config[Key(i)].uri.Some?
  {
    if Key(i) !in config then Some(KeyError(Key(i)))
    else if config[Key(i)].uri.None? then Some(KeyError("uri"))
    else
      var binFailure := BinFailure(checksNewBin, i !in env.binFails, "uridecodebin" in env.installed,
                                   i !in env.ghostPadFails);
      if binFailure.Some? then binFailure
      else if i in env.refusedMuxPads then Some(MuxPadError)
      else None
  }

  /** The first exception raised while handling sources i, i+1, ..., n-1. */
  function SourcesFailure(config: map<string, SourceConfig>, env: Env, checksNewBin: bool, i: nat, n: nat)
    : Option<Exception>
    decreases n - i
  {
    if i >= n then None
    else if SourceFailure(config, env, checksNewBin, i).Some? then SourceFailure(config, env, checksNewBin, i)
    else SourcesFailure(config, env, checksNewBin, i + 1, n)
  }

  /** The first source at or after i whose iteration raises, or n when
      none does: the loop stops there, and every source before it was
      handled without error. */
  function FirstFailingSource(config: map<string, SourceConfig>, env: Env, checksNewBin: bool, i: nat, n: nat)
    : (k: nat)
    requires i <= n
    ensures i <= k <= n
    ensures forall j :: i <= j < k ==> SourceFailure(config, env, checksNewBin, j) == None
    ensures SourcesFailure(config, env, checksNewBin, i, n) ==
              if k < n then SourceFailure(config, env, checksNewBin, k) else None
    ensures k < n ==> SourceFailure(config, env, checksNewBin, k).Some?
    decreases n - i
  {
    if i == n then n
    else if SourceFailure(config, env, checksNewBin, i).Some? then i
    else FirstFailingSource(config, env, checksNewBin, i + 1, n)
  }

  /** When no source fails, every source is configured. */
  lemma {:induction false} SourcesConfigured(config: map<string, SourceConfig>, env: Env, checksNewBin: bool,
                                             i: nat, n: nat)
    requires i <= n && SourcesFailure(config, env, checksNewBin, i, n) == None
    ensures forall j :: i <= j < n ==> Key(j) in config && config[Key(j)].uri.Some?
    decreases n - i
  {
    if i < n {
      SourcesConfigured(config, env, checksNewBin, i + 1, n);
    }
  }

  /** The exception lines 106-131 raise while setting properties: an
      attribute read before it was assigned, or the grid of zero sources. */
  function SettingsFailure(n: nat, hasModelPath: bool, hasTiledWidth: bool, hasTiledHeight: bool): Option<Exception>
  {
    if !hasModelPath then Some(AttributeError("_model_config_path"))
    else if n == 0 then Some(ZeroDivisionError)
    else if !hasTiledWidth then Some(AttributeError("_tiled_output_width"))
    else if !hasTiledHeight then Some(AttributeError("_tiled_output_height"))
    else None
  }

  /** An exception, or none, as the outcome of a call. */
  function AsOutcome(e: Option<Exception>): Outcome
  {
    if e.Some? then Fail(e.value) else Pass
  }

  /** The exception `_build` raises before it sets any property: the
      pipeline, the muxer, the sources, then the other stages. */
  function EarlyFailure(config: map<string, SourceConfig>, env: Env, checksNewBin: bool): Option<Exception>
  {
    if !env.pipelineMade then Some(RuntimeError("Unable to create pipeline"))
    else if Muxer.factory !in env.installed then Some(RuntimeError(Muxer.failure))
    else if SourcesFailure(config, env, checksNewBin, 0, |config|).Some? then
      SourcesFailure(config, env, checksNewBin, 0, |config|)
    else StageCreationFailure(IsAarch64(env.uname), env.installed)
  }

  /** The exception `_build` raises, in the order the code reaches each
      check, or None when it returns. `checksNewBin` says whether
      `create_source_bin` tests the new bin; `hasModelPath`,
      `hasTiledWidth` and `hasTiledHeight` say whether the attributes
      `_model_config_path`, `_tiled_output_width` and `_tiled_output_height`
      exist when it runs. */
  function BuildFailure(config: map<string, SourceConfig>, env: Env, checksNewBin: bool,
                        hasModelPath: bool, hasTiledWidth: bool, hasTiledHeight: bool): Option<Exception>
  {
    if EarlyFailure(config, env, checksNewBin).Some? then EarlyFailure(config, env, checksNewBin)
    else SettingsFailure(|config|, hasModelPath, hasTiledWidth, hasTiledHeight)
  }

  /** As `__init__` is written, `_build` runs before `_model_config_path` is
      assigned (and `_tiled_output_width` is never assigned): whatever the
      configuration and the platform, it raises, and once every earlier
      step succeeds what it raises is the AttributeError for the model
      path. Assigning the model path first is not enough: the tiled
      width is read under a name that is never assigned. */
  lemma BuildAlwaysFailsAsWritten(config: map<string, SourceConfig>, env: Env)
    ensures BuildFailure(config, env, false, false, false, false).Some?
    ensures BuildFailure(config, env, false, false, false, false) ==
              if EarlyFailure(config, env, false).Some? then EarlyFailure(config, env, false)
              else Some(AttributeError("_model_config_path"))
    ensures BuildFailure(config, env, false, true, false, false).Some?
    ensures EarlyFailure(config, env, false) == None && |config| >= 1 ==>
              BuildFailure(config, env, false, true, false, false) == Some(AttributeError("_tiled_output_width"))
  {
  }

  /** With the attributes in place, the build succeeds exactly when the
      framework makes every element, bin and pad, every source is
      configured, and there is at least one source. */
  lemma {:induction false} BuildSucceedsWhenFixed(config: map<string, SourceConfig>, env: Env)
    ensures BuildFailure(config, env, true, true, true, true) == None <==>
              && env.pipelineMade
              && Muxer.factory in env.installed
              && SourcesFailure(config, env, true, 0, |config|) == None
              && (forall k :: 0 <= k < |CreationOrder(IsAarch64(env.uname))| ==>
                    CreationOrder(IsAarch64(env.uname))[k].factory in env.installed)
              && |config| >= 1
    ensures BuildFailure(config, env, true, true, true, true) == None ==> Configured(config, |config|)
  {
    StageCreationFailsAtFirstMissing(IsAarch64(env.uname), env.installed);
    if BuildFailure(config, env, true, true, true, true) == None {
      SourcesConfigured(config, env, true, 0, |config|);
    }
  }

  // ---------------------------------------------------------------------
  // The settings of each stage

  function MuxProps(n: nat, live: bool): map<string, Value>
  {
    (if live then map["live-source" := IntValue(1)] else map[])
    ["width" := IntValue(1920)]
    ["height" := IntValue(1080)]
    ["batch_size" := IntValue(n)]
    ["batched-push-timeout" := IntValue(40000)]
  }

  /** The inference element's properties: the model config path, and the
      batch size only when the config file's differs from n. */
  function InferenceProps(path: string, n: nat, fileBatchSize: int): map<string, Value>
  {
    var p := map["config-file-path" := StrValue(path)];
    if fileBatchSize != n then p["batch_size" := IntValue(n)] else p
  }

  /** The batch size the inference element runs with: the property when it
      was set, else the config file's. */
  function EffectiveBatchSize(props: map<string, Value>, fileBatchSize: int): int
  {
    if "batch_size" in props && props["batch_size"].IntValue? then props["batch_size"].i else fileBatchSize
  }

  /** The inference batch size ends up n either way, and is overwritten only
      when it differed. */
  lemma InferenceBatchIsSourceCount(path: string, n: nat, fileBatchSize: int)
    ensures EffectiveBatchSize(InferenceProps(path, n, fileBatchSize), fileBatchSize) == n
    ensures "batch_size" in InferenceProps(path, n, fileBatchSize) <==> fileBatchSize != n
  {
  }

  function TilerProps(n: nat, width: int, height: int): map<string, Value>
    requires n >= 1
  {
    map["rows" := IntValue(Rows(n)), "columns" := IntValue(Columns(n)),
        "width" := IntValue(width), "height" := IntValue(height)]
  }

  const SinkProps := map["sync" := IntValue(0), "qos" := IntValue(0)]

  // ---------------------------------------------------------------------
  // Links

  function SourceLinks(n: nat): (links: seq<NamedLink>)
    ensures |links| == n
  {
    seq(n, i requires 0 <= i < n =>
      NamedLink(SourceBinName(i), Some("src"), Muxer.name, Some(MuxSinkPad(i))))
  }

  /** Each name linked to the next, element to element. */
  function Chain(names: seq<string>): (links: seq<NamedLink>)
    ensures |names| >= 1 ==> |links| == |names| - 1
    ensures forall k :: 0 <= k < |names| - 1 ==> links[k] == NamedLink(names[k], None, names[k + 1], None)
  {
    if |names| <= 1 then [] else [NamedLink(names[0], None, names[1], None)] + Chain(names[1..])
  }

  /** The chain runs from the muxer to the renderer; the transform sits
      between the display and the renderer exactly on aarch64. */
  lemma {:induction false} ChainShape(aarch64: bool)
    ensures Chain(ChainNames(aarch64))[0] == NamedLink(Muxer.name, None, Inference.name, None)
    ensures aarch64 ==>
              Chain(ChainNames(aarch64))[6..] == [NamedLink(Osd.name, None, Transform.name, None),
                                                  NamedLink(Transform.name, None, Sink.name, None)]
    ensures !aarch64 ==> Chain(ChainNames(aarch64))[6..] == [NamedLink(Osd.name, None, Sink.name, None)]
  {
    var names := ChainNames(aarch64);
    var links := Chain(names);
    assert links[0] == NamedLink(names[0], None, names[1], None);
    assert links[6] == NamedLink(names[6], None, names[7], None);
    if aarch64 {
      assert links[7] == NamedLink(names[7], None, names[8], None);
    }
  }

  function NameLink(stages: seq<Element>, l: Link): NamedLink
    requires l.src < |stages| && l.dst < |stages|
  {
    NamedLink(stages[l.src].name, l.srcPad, stages[l.dst].name, l.dstPad)
  }

  predicate LinksInside(stages: seq<Element>, links: seq<Link>)
  {
    forall k :: 0 <= k < |links| ==> links[k].src < |stages| && links[k].dst < |stages|
  }

  /** The links with their stages given by name. */
  function NamedLinks(stages: seq<Element>, links: seq<Link>): (named: seq<NamedLink>)
    requires LinksInside(stages, links)
    ensures |named| == |links|
  {
    seq(|links|, k requires 0 <= k < |links| => NameLink(stages, links[k]))
  }

  /** Linking one more source bin to the muxer extends the source links
      by that bin's link. */
  lemma SourceLinksGrow(before: seq<Element>, linksBefore: seq<Link>, stages: seq<Element>, links: seq<Link>, i: nat)
    requires |before| == i + 1 && |linksBefore| == i
    requires LinksInside(before, linksBefore) && NamedLinks(before, linksBefore) == SourceLinks(i)
    requires |stages| == i + 2 && stages[..i + 1] == before
    requires stages[0].name == Muxer.name && stages[i + 1].name == SourceBinName(i)
    requires links == linksBefore + [Link(i + 1, Some("src"), 0, Some(MuxSinkPad(i)))]
    ensures LinksInside(stages, links) && NamedLinks(stages, links) == SourceLinks(i + 1)
  {
    forall k | 0 <= k < i + 1
      ensures NamedLinks(stages, links)[k] == SourceLinks(i + 1)[k]
    {
      if k < i {
        assert stages[linksBefore[k].src] == before[linksBefore[k].src];
        assert stages[linksBefore[k].dst] == before[linksBefore[k].dst];
        assert NamedLinks(before, linksBefore)[k] == SourceLinks(i)[k];
      }
    }
  }

  /** Naming the links of a longer pipeline: links already inside a prefix
      of the stages keep their names. */
  lemma NamedLinksAppend(before: seq<Element>, stages: seq<Element>, l1: seq<Link>, l2: seq<Link>)
    requires |before| <= |stages| && stages[..|before|] == before
    requires LinksInside(before, l1) && LinksInside(stages, l2)
    ensures LinksInside(stages, l1 + l2)
    ensures NamedLinks(stages, l1 + l2) == NamedLinks(before, l1) + NamedLinks(stages, l2)
  {
    var ls := l1 + l2;
    forall k | 0 <= k < |ls|
      ensures ls[k].src < |stages| && ls[k].dst < |stages|
      ensures NamedLinks(stages, ls)[k] == (NamedLinks(before, l1) + NamedLinks(stages, l2))[k]
    {
      if k < |l1| {
        assert ls[k] == l1[k];
        assert stages[l1[k].src] == before[l1[k].src] && stages[l1[k].dst] == before[l1[k].dst];
      } else {
        assert ls[k] == l2[k - |l1|];
      }
    }
  }

  /** The links of lines 145-156 as positions in the pipeline: the muxer
      is at 0, the n source bins follow, then the stages in add order. */
  function ChainLinks(n: nat, aarch64: bool): seq<Link>
  {
    [Link(0, None, n + 1, None), Link(n + 1, None, n + 2, None), Link(n + 2, None, n + 4, None),
     Link(n + 4, None, n + 6, None), Link(n + 6, None, n + 3, None), Link(n + 3, None, n + 5, None)]
    + (if aarch64 then [Link(n + 5, None, n + 7, None), Link(n + 7, None, n + 8, None)]
       else [Link(n + 5, None, n + 7, None)])
  }

  /** With the stages in add order after the muxer and n bins, the links
      of lines 145-156 connect the chain muxer, inference, converter 1,
      caps filter, tiler, converter 2, display, (transform,) renderer. */
  lemma {:induction false} ChainLinksNamed(stages: seq<Element>, n: nat, aarch64: bool)
    requires NamesSoFar(stages, n, |AddOrder(aarch64)|, aarch64)
    ensures LinksInside(stages, ChainLinks(n, aarch64))
    ensures NamedLinks(stages, ChainLinks(n, aarch64)) == Chain(ChainNames(aarch64))
  {
    var order := AddOrder(aarch64);
    assert stages[n + 1].name == order[0].name == Inference.name;
    assert stages[n + 2].name == order[1].name == Converter1.name;
    assert stages[n + 3].name == order[2].name == Converter2.name;
    assert stages[n + 4].name == order[3].name == Filter1.name;
    assert stages[n + 5].name == order[4].name == Osd.name;
    assert stages[n + 6].name == order[5].name == TilerStage.name;
    assert stages[|stages| - 1].name == order[|order| - 1].name == Sink.name;
    if aarch64 {
      assert stages[n + 7].name == order[6].name == Transform.name;
    }
    var named := NamedLinks(stages, ChainLinks(n, aarch64));
    var chain := Chain(ChainNames(aarch64));
    assert |named| == |chain|;
    var names := ChainNames(aarch64);
    var links := ChainLinks(n, aarch64);
    forall k | 0 <= k < |named|
      ensures named[k] == chain[k]
    {
      assert named[k] == NamedLink(stages[links[k].src].name, None, stages[links[k].dst].name, None);
      assert chain[k] == NamedLink(names[k], None, names[k + 1], None);
    }
  }

  // ---------------------------------------------------------------------
  // Creating the processing stages

  /** A stage as `Gst.ElementFactory.make` returns it: named, with nothing
      set or connected. */
  ghost predicate MadeAs(e: Element, spec: StageSpec)
    reads e
  {
    e.factory == spec.factory && e.name == spec.name
    && e.connections == [] && e.children == [] && e.pads == []
  }

  /** `Gst.ElementFactory.make(factory, name)`: None when the factory is not
      installed. */
  method MakeElement(spec: StageSpec, installed: set<string>) returns (e: Element?)
    ensures e == null <==> spec.factory !in installed
    ensures e != null ==> fresh(e) && MadeAs(e, spec) && e.props == map[]
  {
    if spec.factory !in installed {
      return null;
    }
    e := new Element(spec.factory, spec.name);
  }

  /** The stages made after the sources. */
  datatype Stages = Stages(pgie: Element, conv1: Element, filter1: Element, tiler: Element,
                           conv2: Element, osd: Element, transform: Option<Element>, sink: Element)

  /** The created stages in the order lines 133-142 add them. */
  function AddedStages(s: Stages): (added: seq<Element>)
    ensures |added| == 7 + (if s.transform.Some? then 1 else 0)
  {
    [s.pgie, s.conv1, s.conv2, s.filter1, s.osd, s.tiler]
    + (if s.transform.Some? then [s.transform.value] else []) + [s.sink]
  }

  /** The exception lines 62-104 raise: each stage is checked right after
      it is created, in creation order. */
  function StageCreationFailure(aarch64: bool, installed: set<string>): Option<Exception>
  {
    if Inference.factory !in installed then Some(RuntimeError(Inference.failure))
    else if Converter1.factory !in installed then Some(RuntimeError(Converter1.failure))
    else if Filter1.factory !in installed then Some(RuntimeError(Filter1.failure))
    else if TilerStage.factory !in installed then Some(RuntimeError(TilerStage.failure))
    else if Converter2.factory !in installed then Some(RuntimeError(Converter2.failure))
    else if Osd.factory !in installed then Some(RuntimeError(Osd.failure))
    else if aarch64 && Transform.factory !in installed then Some(RuntimeError(Transform.failure))
    else if Sink.factory !in installed then Some(RuntimeError(Sink.failure))
    else None
  }

  /** The checks raise for the first stage of the creation order whose
      factory is missing, and only when there is one: no later stage is
      created once one fails. */
  lemma {:induction false} StageCreationFailsAtFirstMissing(aarch64: bool, installed: set<string>)
    ensures var order := CreationOrder(aarch64);
            var k := FirstMissing(order, installed);
            StageCreationFailure(aarch64, installed) ==
              if k < |order| then Some(RuntimeError(order[k].failure)) else None
  {
    var order := CreationOrder(aarch64);
    var k := FirstMissing(order, installed);
    assert order[..6] == [Inference, Converter1, Filter1, TilerStage, Converter2, Osd];
    assert order[|order| - 1] == Sink;
    assert aarch64 ==> |order| == 8 && order[6] == Transform;
    assert !aarch64 ==> |order| == 7;
    assert order[0] == Inference && order[1] == Converter1 && order[2] == Filter1;
    assert order[3] == TilerStage && order[4] == Converter2 && order[5] == Osd;
    if k > 0 { assert Inference.factory in installed; }
    if k > 1 { assert Converter1.factory in installed; }
    if k > 2 { assert Filter1.factory in installed; }
    if k > 3 { assert TilerStage.factory in installed; }
    if k > 4 { assert Converter2.factory in installed; }
    if k > 5 { assert Osd.factory in installed; }
    if k > 6 && aarch64 { assert Transform.factory in installed; }
    if k == |order| { assert Sink.factory in installed; }
  }

  /** Lines 62-104: each stage is created in turn, and the first one that
      cannot be made raises before any later one is created. */
  method MakeStages(aarch64: bool, installed: set<string>) returns (r: Result<Stages>)
    ensures r.Err? <==> StageCreationFailure(aarch64, installed).Some?
    ensures r.Err? ==> StageCreationFailure(aarch64, installed) == Some(r.error)
    ensures r.Ok? ==>
              var s := r.value;
              && fresh(s.pgie) && fresh(s.conv1) && fresh(s.filter1) && fresh(s.tiler)
              && fresh(s.conv2) && fresh(s.osd) && fresh(s.sink)
              && MadeAs(s.pgie, Inference) && MadeAs(s.conv1, Converter1) && MadeAs(s.filter1, Filter1)
              && MadeAs(s.tiler, TilerStage) && MadeAs(s.conv2, Converter2) && MadeAs(s.osd, Osd)
              && MadeAs(s.sink, Sink)
              && s.pgie.props == map[] && s.conv1.props == map[] && s.tiler.props == map[]
              && s.conv2.props == map[] && s.osd.props == map[] && s.sink.props == map[]
              && s.filter1.props == map["caps" := CapsValue(Filter1Caps)]
              && (s.transform.Some? <==> aarch64)
              && (s.transform.Some? ==>
                    fresh(s.transform.value) && MadeAs(s.transform.value, Transform)
                    && s.transform.value.props == map[])
  {
    var pgie := MakeElement(Inference, installed);
    if pgie == null {
      return Err(RuntimeError(Inference.failure));
    }
    var conv1 := MakeElement(Converter1, installed);
    if conv1 == null {
      return Err(RuntimeError(Converter1.failure));
    }
    var filter1 := MakeElement(Filter1, installed);
    if filter1 == null {
      return Err(RuntimeError(Filter1.failure));
    }
    filter1.SetProperty("caps", CapsValue(Filter1Caps));
    var tiler := MakeElement(TilerStage, installed);
    if tiler == null {
      return Err(RuntimeError(TilerStage.failure));
    }
    var conv2 := MakeElement(Converter2, installed);
    if conv2 == null {
      return Err(RuntimeError(Converter2.failure));
    }
    var osd := MakeElement(Osd, installed);
    if osd == null {
      return Err(RuntimeError(Osd.failure));
    }
    var transform: Option<Element> := None;
    if aarch64 {
      var t := MakeElement(Transform, installed);
      if t == null {
        return Err(RuntimeError(Transform.failure));
      }
      transform := Some(t);
    }
    var sink := MakeElement(Sink, installed);
    if sink == null {
      return Err(RuntimeError(Sink.failure));
    }
    r := Ok(Stages(pgie, conv1, filter1, tiler, conv2, osd, transform, sink));
  }

  /** The names a pipeline holds after the muxer, m source bins and the
      first j stages of the add order. */
  predicate NamesSoFar(stages: seq<Element>, m: nat, j: nat, aarch64: bool)
  {
    && j <= |AddOrder(aarch64)| && |stages| == m + 1 + j
    && stages[0].name == Muxer.name
    && (forall k :: 1 <= k <= m ==> stages[k].name == SourceBinName(k - 1))
    && (forall k :: 0 <= k < j ==> stages[m + 1 + k].name == AddOrder(aarch64)[k].name)
  }

  /** The next stage of the add order has a name the pipeline does not
      hold yet, and adding it keeps the names in order. */
  lemma AddNext(stages: seq<Element>, m: nat, j: nat, aarch64: bool, e: Element)
    requires NamesSoFar(stages, m, j, aarch64) && j < |AddOrder(aarch64)|
    requires e.name == AddOrder(aarch64)[j].name
    ensures e.name !in Names(stages)
    ensures NamesSoFar(stages + [e], m, j + 1, aarch64)
  {
    NamesDistinct(m, aarch64);
    forall k | 0 <= k < |stages|
      ensures stages[k].name != e.name
    {
      if k == 0 {
      } else if k <= m {
        assert stages[k].name == SourceBinName(k - 1);
      } else {
        assert stages[k].name == AddOrder(aarch64)[k - m - 1].name;
      }
    }
  }

  /** Each element of `added` named as the stage at the same position of
      the add order. */
  predicate NamedAsOrder(added: seq<Element>, aarch64: bool)
  {
    |added| == |AddOrder(aarch64)| && forall k :: 0 <= k < |added| ==> added[k].name == AddOrder(aarch64)[k].name
  }

  /** The created stages are named as the add order says. */
  lemma AddedInOrder(s: Stages, aarch64: bool)
    requires StagesNamed(s, aarch64)
    ensures NamedAsOrder(AddedStages(s), aarch64)
  {
    var added, order := AddedStages(s), AddOrder(aarch64);
    assert added[|added| - 1] == s.sink && order[|order| - 1] == Sink;
  }

  /** After the first j stages of the add order have joined, the names
      are in order so far. */
  lemma {:induction false} PrefixNamed(before: seq<Element>, added: seq<Element>, m: nat, j: nat, aarch64: bool)
    requires NamesSoFar(before, m, 0, aarch64) && NamedAsOrder(added, aarch64) && j <= |added|
    ensures NamesSoFar(before + added[..j], m, j, aarch64)
  {
    var stages := before + added[..j];
    forall k | 0 <= k < j
      ensures stages[m + 1 + k].name == AddOrder(aarch64)[k].name
    {
      assert stages[m + 1 + k] == added[k];
    }
  }

  /** The source bins in index order, each as `create_source_bin` made
      it for its configured uri. */
  ghost predicate SourceBins(bins: seq<Element>, config: map<string, SourceConfig>)
    reads bins
    reads set k, j | 0 <= k < |bins| && 0 <= j < |bins[k].children| :: bins[k].children[j]
    reads set k, j | 0 <= k < |bins| && 0 <= j < |bins[k].pads| :: bins[k].pads[j]
  {
    && Configured(config, |bins|)
    && forall i {:trigger IsSourceBin(bins[i], i, UriOf(config, i))} :: 0 <= i < |bins| ==>
         IsSourceBin(bins[i], i, UriOf(config, i)) && PadNamesUnique(bins[i])
  }

  lemma SourceBinsSnoc(bins: seq<Element>, bin: Element, config: map<string, SourceConfig>)
    requires SourceBins(bins, config)
    requires Key(|bins|) in config && config[Key(|bins|)].uri.Some?
    requires IsSourceBin(bin, |bins|, UriOf(config, |bins|)) && PadNamesUnique(bin)
    ensures SourceBins(bins + [bin], config)
  {
    var longer := bins + [bin];
    forall i | 0 <= i < |longer|
      ensures IsSourceBin(longer[i], i, UriOf(config, i)) && PadNamesUnique(longer[i])
    {
      if i < |bins| {
        assert longer[i] == bins[i];
        assert IsSourceBin(bins[i], i, UriOf(config, i));
      }
    }
    assert Configured(config, |longer|);
  }

  /** The muxer is neither a source bin nor inside one: their names differ. */
  lemma MuxOutsideBins(bins: seq<Element>, config: map<string, SourceConfig>, mux: Element)
    requires SourceBins(bins, config) && mux.name == Muxer.name
    ensures forall k :: 0 <= k < |bins| ==> bins[k] != mux && mux !in bins[k].children
  {
    NamesDistinct(|bins|, false);
    forall k | 0 <= k < |bins|
      ensures bins[k] != mux && mux !in bins[k].children
    {
      assert IsSourceBin(bins[k], k, UriOf(config, k));
      assert bins[k].children[0].name != mux.name;
    }
  }

  /** The created stages carry the names of their specs, and there is a
      transform exactly on aarch64. */
  predicate StagesNamed(s: Stages, aarch64: bool)
  {
    && s.pgie.name == Inference.name && s.conv1.name == Converter1.name
    && s.conv2.name == Converter2.name && s.filter1.name == Filter1.name
    && s.osd.name == Osd.name && s.tiler.name == TilerStage.name
    && (s.transform.Some? <==> aarch64)
    && (s.transform.Some? ==> s.transform.value.name == Transform.name)
    && s.sink.name == Sink.name
  }

  /** Each element of `es` made as the spec at the same position, with
      the properties at the same position. */
  ghost predicate StagesAre(es: seq<Element>, specs: seq<StageSpec>, props: seq<map<string, Value>>)
    reads es
  {
    && |es| == |specs| && |es| == |props|
    && forall k {:trigger MadeAs(es[k], specs[k])} :: 0 <= k < |es| ==>
         MadeAs(es[k], specs[k]) && es[k].props == props[k]
  }

  /** The properties lines 73-131 give the stages, in add order. */
  function StageProps(n: nat, aarch64: bool, path: string, fileBatchSize: int, width: int, height: int)
    : seq<map<string, Value>>
    requires n >= 1
  {
    [InferenceProps(path, n, fileBatchSize), map[], map[], map["caps" := CapsValue(Filter1Caps)], map[],
     TilerProps(n, width, height)]
    + (if aarch64 then [map[]] else []) + [SinkProps]
  }

  /** The stages made and configured one by one are, in add order, made
      as AddOrder says with the properties StageProps says. */
  lemma MadeInAddOrder(s: Stages, aarch64: bool, n: nat, path: string, fileBatchSize: int,
                       width: int, height: int)
    requires n >= 1 && (s.transform.Some? <==> aarch64)
    requires MadeAs(s.pgie, Inference) && MadeAs(s.conv1, Converter1) && MadeAs(s.filter1, Filter1)
    requires MadeAs(s.tiler, TilerStage) && MadeAs(s.conv2, Converter2) && MadeAs(s.osd, Osd)
    requires MadeAs(s.sink, Sink)
    requires s.transform.Some? ==> MadeAs(s.transform.value, Transform)
    requires s.pgie.props == InferenceProps(path, n, fileBatchSize)
    requires s.conv1.props == map[] && s.conv2.props == map[] && s.osd.props == map[]
    requires s.filter1.props == map["caps" := CapsValue(Filter1Caps)]
    requires s.tiler.props == TilerProps(n, width, height)
    requires s.transform.Some? ==> s.transform.value.props == map[]
    requires s.sink.props == SinkProps
    ensures StagesNamed(s, aarch64)
    ensures StagesAre(AddedStages(s), AddOrder(aarch64), StageProps(n, aarch64, path, fileBatchSize, width, height))
  {
    var added, order := AddedStages(s), AddOrder(aarch64);
    var props := StageProps(n, aarch64, path, fileBatchSize, width, height);
    forall k | 0 <= k < |added|
      ensures MadeAs(added[k], order[k]) && added[k].props == props[k]
    {
      if k == |added| - 1 {
        assert added[k] == s.sink && order[k] == Sink && props[k] == SinkProps;
      } else if k == 6 {
        assert added[k] == s.transform.value && order[k] == Transform && props[k] == map[];
      }
    }
  }

  // ---------------------------------------------------------------------
  // The Pipeline object

  /** The muxer and the first source bins, at most n of them, linked to
      the muxer except possibly the last one. */
  predicate PartialGraph(stages: seq<Element>, links: seq<Link>, n: nat)
  {
    && |stages| <= n + 1
    && (|stages| >= 1 ==> stages[0].name == Muxer.name)
    && (forall k :: 1 <= k < |stages| ==> stages[k].name == SourceBinName(k - 1))
    && LinksInside(stages, links)
    && NamedLinks(stages, links) == SourceLinks(|links|)
    && ((stages == [] && links == []) || |links| < |stages| <= |links| + 2)
  }

  /** A bin that joins without being linked keeps the graph partial. */
  lemma UnlinkedBin(stages: seq<Element>, links: seq<Link>, n: nat, bin: Element)
    requires PartialGraph(stages, links, n) && |stages| == |links| + 1 && |stages| <= n
    requires bin.name == SourceBinName(|stages| - 1)
    ensures PartialGraph(stages + [bin], links, n)
  {
    NamedLinksAppend(stages, stages + [bin], links, []);
    assert links + [] == links;
  }

  /** The graph of a successful build: the muxer with its properties, the
      sources' bins, then the processing stages in add order, made as
      their specs say with the properties `props`, linked sources to
      muxer and then along the chain. */
  ghost predicate BuiltGraph(stages: seq<Element>, links: seq<Link>, config: map<string, SourceConfig>,
                             aarch64: bool, props: seq<map<string, Value>>)
    reads stages
  {
    var n := |config|;
    && n >= 1 && Configured(config, n)
    && NamesSoFar(stages, n, |AddOrder(aarch64)|, aarch64)
    && MadeAs(stages[0], Muxer) && stages[0].props == MuxProps(n, AnyLive(config, n))
    && StagesAre(stages[n + 1..], AddOrder(aarch64), props)
    && LinksInside(stages, links)
    && NamedLinks(stages, links) == SourceLinks(n) + Chain(ChainNames(aarch64))
  }

  /** The muxer and the linked source bins, followed by the processing
      stages added and linked along the chain, make the built graph. */
  lemma AssembledGraph(sources: seq<Element>, linksBefore: seq<Link>, added: seq<Element>,
                       stages: seq<Element>, links: seq<Link>, config: map<string, SourceConfig>,
                       aarch64: bool, props: seq<map<string, Value>>)
    requires |config| >= 1 && Configured(config, |config|) && |sources| == |config| + 1
    requires MadeAs(sources[0], Muxer) && sources[0].props == MuxProps(|config|, AnyLive(config, |config|))
    requires LinksInside(sources, linksBefore) && NamedLinks(sources, linksBefore) == SourceLinks(|config|)
    requires StagesAre(added, AddOrder(aarch64), props)
    requires stages == sources + added && NamesSoFar(stages, |config|, |AddOrder(aarch64)|, aarch64)
    requires LinksInside(stages, links)
    requires NamedLinks(stages, links) == NamedLinks(sources, linksBefore) + Chain(ChainNames(aarch64))
    ensures BuiltGraph(stages, links, config, aarch64, props)
  {
    assert stages[|config| + 1..] == added;
  }

  class Pipeline {
    const config: map<string, SourceConfig>
    const tiledOutputHeight: int
    const tiledOutputWidth: int
    /** The attribute `_model_config_path` as it stands while `_build`
        runs: None when it is not assigned yet. `_build` raises whenever
        it is None, so `__init__` never gets past it to assign it, and
        the attribute never changes during the object's life. */
    const modelConfigPath: Option<string>
    /** The attributes `_tiled_output_width` / `_tiled_output_height`,
        likewise. */
    const privateTiledWidth: Option<int>
    const privateTiledHeight: Option<int>
    /** Whether `create_source_bin` tests the bin it made (utils.py:57 as
        evidently intended) or Python's builtin `bin` (as written). */
    const checksNewBin: bool
    /** `self._pipeline` holds a pipeline. */
    var made: bool
    var stages: seq<Element>
    var links: seq<Link>

    /** The assignments `__init__` makes before calling `_build`, with the
        three attributes `_build` reads as they stand at that point. */
    constructor Init(config: map<string, SourceConfig>, tiledOutputHeight: int, tiledOutputWidth: int,
                     modelConfigPath: Option<string>, privateTiledWidth: Option<int>,
                     privateTiledHeight: Option<int>, checksNewBin: bool)
      ensures this.config == config
      ensures this.tiledOutputHeight == tiledOutputHeight && this.tiledOutputWidth == tiledOutputWidth
      ensures this.modelConfigPath == modelConfigPath
      ensures this.privateTiledWidth == privateTiledWidth && this.privateTiledHeight == privateTiledHeight
      ensures this.checksNewBin == checksNewBin
      ensures !made && stages == [] && links == []
    {
      this.config := config;
      this.tiledOutputHeight := tiledOutputHeight;
      this.tiledOutputWidth := tiledOutputWidth;
      this.modelConfigPath := modelConfigPath;
      this.privateTiledWidth, this.privateTiledHeight := privateTiledWidth, privateTiledHeight;
      this.checksNewBin := checksNewBin;
      made := false;
      stages, links := [], [];
    }

    /** `self._pipeline.add(e)`: refused when an element of that name is
        already in the pipeline. */
    method Add(e: Element) returns (ok: bool)
      modifies this
      ensures ok <==> e.name !in Names(old(stages))
      ensures stages == if ok then old(stages) + [e] else old(stages)
      ensures links == old(links) && made == old(made)
    {
      ok := e.name !in Names(stages);
      if ok {
        stages := stages + [e];
      }
    }

    /** `a.link(b)` or `pad_a.link(pad_b)`: the link is requested; its
        result is never checked by the build. */
    method LinkStages(src: nat, srcPad: Option<string>, dst: nat, dstPad: Option<string>)
      modifies this
      ensures links == old(links) + [Link(src, srcPad, dst, dstPad)]
      ensures stages == old(stages) && made == old(made)
    {
      links := links + [Link(src, srcPad, dst, dstPad)];
    }

    /** What a failed build leaves behind: the pipeline holds at most the
        muxer and the source bins made so far, linked to the muxer; no
        later stage was added or linked. */
    ghost predicate PartiallyBuilt()
      reads this
    {
      (!made ==> stages == []) && PartialGraph(stages, links, |config|)
    }

    /** The pipeline after the muxer and the first i sources: the muxer,
        then the i source bins, each linked to the muxer. */
    ghost predicate SourcesReady(i: nat)
      reads this
    {
      && |stages| == i + 1 && |links| == i
      && stages[0].name == Muxer.name
      && (forall k :: 1 <= k < |stages| ==> stages[k].name == SourceBinName(k - 1))
      && LinksInside(stages, links) && NamedLinks(stages, links) == SourceLinks(i)
    }

    /** One iteration of lines 44-60 for source i: look up its uri and
        make its bin, then attach it. `live` tells whether the uri is
        live. */
    method AddSource(i: nat, env: Env) returns (r: Outcome, live: bool)
      requires made && i < |config| && SourcesReady(i) && SourceBins(stages[1..], config)
      modifies this
      ensures made
      ensures |stages| >= 1 && stages[0] == old(stages[0])
      ensures r == AsOutcome(SourceFailure(config, env, checksNewBin, i))
      ensures r.Pass? ==> SourcesReady(i + 1) && SourceBins(stages[1..], config)
      ensures r.Pass? ==> live == IsLiveUri(UriOf(config, i))
      ensures r.Fail? ==> PartiallyBuilt()
      ensures r.Fail? ==> links == old(links) && |old(stages)| <= |stages|
                          && stages[..|old(stages)|] == old(stages)
                          && |stages| == |old(stages)| + (if r.error == MuxPadError then 1 else 0)
    {
      live := false;
      var key := Key(i);
      if key !in config {
        return Fail(KeyError(key)), live;
      }
      if config[key].uri.None? {
        return Fail(KeyError("uri")), live;
      }
      var uri := config[key].uri.value;
      live := IsLiveUri(uri);
      var created := CreateSourceBin(i, uri, env.installed, i !in env.binFails, i !in env.ghostPadFails,
                                     checksNewBin);
      if created.Err? {
        return Fail(created.error), live;
      }
      r := AttachBin(i, created.value, i !in env.refusedMuxPads);
    }

    /** Lines 52-60 for source i: add its bin, request the muxer's
        "sink_i" pad, and link the bin's "src" pad to it. The bin always
        has its "src" pad, so that check never fires. `padGranted` is the
        muxer's answer to the request. */
    method AttachBin(i: nat, bin: Element, padGranted: bool) returns (r: Outcome)
      requires made && i < |config| && SourcesReady(i) && SourceBins(stages[1..], config)
      requires Key(i) in config && config[Key(i)].uri.Some?
      requires IsSourceBin(bin, i, UriOf(config, i)) && PadNamesUnique(bin)
      modifies this
      ensures made
      ensures |stages| >= 1 && stages[0] == old(stages[0])
      ensures r == if padGranted then Pass else Fail(MuxPadError)
      ensures r.Pass? ==> SourcesReady(i + 1) && SourceBins(stages[1..], config)
      ensures r.Fail? ==> PartiallyBuilt() && stages == old(stages) + [bin] && links == old(links)
    {
      NamesDistinct(i, false);
      assert bin.name !in Names(stages);
      ghost var before, linksBefore := stages, links;
      var accepted := Add(bin);
      if !padGranted {
        UnlinkedBin(before, linksBefore, |config|, bin);
        return Fail(MuxPadError);
      }
      var srcPad := bin.GetStaticPad("src");
      assert srcPad != null;
      LinkStages(i + 1, Some("src"), 0, Some(MuxSinkPad(i)));
      SourceLinksGrow(before, linksBefore, stages, links, i);
      SourceBinsSnoc(before[1..], bin, config);
      assert stages[1..] == before[1..] + [bin];
      r := Pass;
    }

    /** Lines 44-60: the sources in index order, stopping at the first
        one that fails. `isLive` tells whether some uri is live. */
    method AddSources(env: Env) returns (r: Outcome, isLive: bool)
      requires made && SourcesReady(0)
      modifies this
      ensures made
      ensures |stages| >= 1 && stages[0] == old(stages[0])
      ensures r == AsOutcome(SourcesFailure(config, env, checksNewBin, 0, |config|))
      ensures r.Pass? ==> SourcesReady(|config|) && SourceBins(stages[1..], config)
      ensures r.Pass? ==> Configured(config, |config|) && isLive == AnyLive(config, |config|)
      ensures r.Fail? ==> PartiallyBuilt()
      ensures r.Fail? ==>
                var k := FirstFailingSource(config, env, checksNewBin, 0, |config|);
                k < |config| && |links| == k && |stages| == k + 1 + (if r.error == MuxPadError then 1 else 0)
    {
      var n := |config|;
      isLive := false;
      assert stages[1..] == [];
      var i := 0;
      while i < n
        invariant 0 <= i <= n
        invariant made
        invariant SourcesFailure(config, env, checksNewBin, i, n) == SourcesFailure(config, env, checksNewBin, 0, n)
        invariant FirstFailingSource(config, env, checksNewBin, i, n)
                  == FirstFailingSource(config, env, checksNewBin, 0, n)
        invariant SourcesReady(i) && SourceBins(stages[1..], config)
        invariant stages[0] == old(stages[0])
        invariant Configured(config, i)
        invariant isLive == AnyLive(config, i)
      {
        var live;
        r, live := AddSource(i, env);
        if r.Fail? {
          return r, isLive;
        }
        AnyLiveSnoc(config, i);
        isLive := isLive || live;
        i := i + 1;
      }
      r := Pass;
    }

    /** Lines 106-131: the properties of the muxer, the inference element,
        the tiler and the sink, in that order. Reading an attribute that
        was never assigned raises AttributeError; the grid of zero sources
        divides by zero. */
    method Configure(n: nat, isLive: bool, fileBatchSize: int, mux: Element, pgie: Element,
                     tiler: Element, sink: Element) returns (r: Outcome)
      requires mux != pgie && mux != tiler && mux != sink && pgie != tiler && pgie != sink && tiler != sink
      requires mux.props == map[] && pgie.props == map[] && tiler.props == map[] && sink.props == map[]
      modifies mux, pgie, tiler, sink
      ensures r == AsOutcome(SettingsFailure(n, modelConfigPath.Some?, privateTiledWidth.Some?,
                                             privateTiledHeight.Some?))
      ensures mux.props == MuxProps(n, isLive)
      ensures r.Pass? ==> pgie.props == InferenceProps(modelConfigPath.value, n, fileBatchSize)
      ensures r.Pass? ==> tiler.props == TilerProps(n, privateTiledWidth.value, privateTiledHeight.value)
      ensures r.Pass? ==> sink.props == SinkProps
      ensures mux.connections == old(mux.connections) && mux.children == old(mux.children) && mux.pads == old(mux.pads)
      ensures pgie.connections == old(pgie.connections) && pgie.children == old(pgie.children) && pgie.pads == old(pgie.pads)
      ensures tiler.connections == old(tiler.connections) && tiler.children == old(tiler.children) && tiler.pads == old(tiler.pads)
      ensures sink.connections == old(sink.connections) && sink.children == old(sink.children) && sink.pads == old(sink.pads)
    {
      if isLive {
        mux.SetProperty("live-source", IntValue(1));
      }
      mux.SetProperty("width", IntValue(1920));
      mux.SetProperty("height", IntValue(1080));
      mux.SetProperty("batch_size", IntValue(n));
      mux.SetProperty("batched-push-timeout", IntValue(40000));
      if modelConfigPath.None? {
        return Fail(AttributeError("_model_config_path"));
      }
      pgie.SetProperty("config-file-path", StrValue(modelConfigPath.value));
      if fileBatchSize != n {
        pgie.SetProperty("batch_size", IntValue(n));
      }
      if n == 0 {
        return Fail(ZeroDivisionError);
      }
      tiler.SetProperty("rows", IntValue(Rows(n)));
      tiler.SetProperty("columns", IntValue(Columns(n)));
      if privateTiledWidth.None? {
        return Fail(AttributeError("_tiled_output_width"));
      }
      tiler.SetProperty("width", IntValue(privateTiledWidth.value));
      if privateTiledHeight.None? {
        return Fail(AttributeError("_tiled_output_height"));
      }
      tiler.SetProperty("height", IntValue(privateTiledHeight.value));
      sink.SetProperty("sync", IntValue(0));
      sink.SetProperty("qos", IntValue(0));
      r := Pass;
    }

    /** `self._pipeline.add(e)` for the stage at position j of the add
        order, whose name the pipeline does not hold yet: `before` is the
        pipeline before the first of the `added` stages joined. */
    method AddNamed(e: Element, ghost before: seq<Element>, ghost added: seq<Element>, ghost m: nat,
                    ghost j: nat, ghost aarch64: bool)
      requires NamesSoFar(before, m, 0, aarch64) && NamedAsOrder(added, aarch64) && j < |added|
      requires stages == before + added[..j] && e == added[j]
      modifies this
      ensures stages == before + added[..j + 1]
      ensures links == old(links) && made == old(made)
    {
      PrefixNamed(before, added, m, j, aarch64);
      AddNext(stages, m, j, aarch64, e);
      var accepted := Add(e);
      assert added[..j + 1] == added[..j] + [e];
    }

    /** Lines 133-142: the created stages join the pipeline after the
        muxer and the source bins; no name repeats, so every `add` is
        accepted. */
    method AddStages(s: Stages, aarch64: bool)
      requires |stages| >= 1 && NamesSoFar(stages, |stages| - 1, 0, aarch64) && StagesNamed(s, aarch64)
      modifies this
      ensures stages == old(stages) + AddedStages(s)
      ensures NamesSoFar(stages, |old(stages)| - 1, |AddOrder(aarch64)|, aarch64)
      ensures links == old(links) && made == old(made)
    {
      var m := |stages| - 1;
      ghost var before, added := stages, AddedStages(s);
      AddedInOrder(s, aarch64);
      assert stages == before + added[..0];
      AddNamed(s.pgie, before, added, m, 0, aarch64);
      AddNamed(s.conv1, before, added, m, 1, aarch64);
      AddNamed(s.conv2, before, added, m, 2, aarch64);
      AddNamed(s.filter1, before, added, m, 3, aarch64);
      AddNamed(s.osd, before, added, m, 4, aarch64);
      AddNamed(s.tiler, before, added, m, 5, aarch64);
      if aarch64 {
        AddNamed(s.transform.value, before, added, m, 6, aarch64);
      }
      AddNamed(s.sink, before, added, m, |added| - 1, aarch64);
      assert added[..|added|] == added;
      PrefixNamed(before, added, m, |added|, aarch64);
    }

    /** Lines 144-156: each stage linked to the next, element to element;
        the display feeds the transform on aarch64 and the renderer
        directly elsewhere. */
    method LinkChain(n: nat, aarch64: bool)
      modifies this
      ensures links == old(links) + ChainLinks(n, aarch64)
      ensures stages == old(stages) && made == old(made)
    {
      var mux, pgie, conv1, conv2, filter1, osd, tiler := 0, n + 1, n + 2, n + 3, n + 4, n + 5, n + 6;
      LinkStages(mux, None, pgie, None);
      LinkStages(pgie, None, conv1, None);
      LinkStages(conv1, None, filter1, None);
      LinkStages(filter1, None, tiler, None);
      LinkStages(tiler, None, conv2, None);
      LinkStages(conv2, None, osd, None);
      if aarch64 {
        var transform, sink := n + 7, n + 8;
        LinkStages(osd, None, transform, None);
        LinkStages(transform, None, sink, None);
      } else {
        var sink := n + 7;
        LinkStages(osd, None, sink, None);
      }
    }

    /** Lines 133-156: the stages join after the muxer and the n source
        bins, then the chain is linked; the source links stay, and the new
        links join the stages named in ChainNames. */
    method AddAndLink(s: Stages, aarch64: bool)
      requires |stages| >= 1 && NamesSoFar(stages, |stages| - 1, 0, aarch64) && StagesNamed(s, aarch64)
      requires LinksInside(stages, links)
      modifies this
      ensures stages == old(stages) + AddedStages(s) && made == old(made)
      ensures stages[..|old(stages)|] == old(stages) && stages[|old(stages)|..] == AddedStages(s)
      ensures NamesSoFar(stages, |old(stages)| - 1, |AddOrder(aarch64)|, aarch64)
      ensures LinksInside(stages, links)
      ensures NamedLinks(stages, links) == NamedLinks(old(stages), old(links)) + Chain(ChainNames(aarch64))
    {
      var n := |stages| - 1;
      ghost var before, linksBefore := stages, links;
      AddStages(s, aarch64);
      LinkChain(n, aarch64);
      ChainLinksNamed(stages, n, aarch64);
      NamedLinksAppend(before, stages, linksBefore, ChainLinks(n, aarch64));
    }

    /** The pipeline a successful build leaves: the muxer, the n source
        bins, then the processing stages in add order, each made by its
        factory and configured as lines 73-131 say, linked sources to
        muxer and then along the chain. */
    ghost predicate Built(env: Env)
      reads this, stages
    {
      && made && |config| >= 1
      && modelConfigPath.Some? && privateTiledWidth.Some? && privateTiledHeight.Some?
      && BuiltGraph(stages, links, config, IsAarch64(env.uname),
                    StageProps(|config|, IsAarch64(env.uname), modelConfigPath.value, env.inferBatchSize,
                               privateTiledWidth.value, privateTiledHeight.value))
    }

    /** `_build`: raises exactly what BuildFailure says, given which of the
        attributes it reads were assigned; on success the pipeline is as
        Built describes with the source bins as `create_source_bin` made
        them, and on failure it holds at most the muxer and the source
        bins made so far. */
    method Build(env: Env) returns (r: Outcome)
      requires !made && stages == [] && links == []
      modifies this
      ensures r == AsOutcome(BuildFailure(config, env, checksNewBin, modelConfigPath.Some?,
                                          privateTiledWidth.Some?, privateTiledHeight.Some?))
      ensures r.Pass? ==> Built(env) && SourceBins(stages[1..|config| + 1], config)
      ensures r.Fail? ==> PartiallyBuilt()
      ensures !env.pipelineMade || Muxer.factory !in env.installed ==> stages == [] && links == []
      ensures env.pipelineMade && Muxer.factory in env.installed
              && SourcesFailure(config, env, checksNewBin, 0, |config|).Some? ==>
                var k := FirstFailingSource(config, env, checksNewBin, 0, |config|);
                |links| == k && |stages| == k + 1 + (if r.error == MuxPadError then 1 else 0)
      ensures r.Fail? && env.pipelineMade && Muxer.factory in env.installed
              && SourcesFailure(config, env, checksNewBin, 0, |config|) == None ==>
                SourcesReady(|config|)
    {
      made := env.pipelineMade;
      if !made {
        return Fail(RuntimeError("Unable to create pipeline"));
      }
      var mux := MakeElement(Muxer, env.installed);
      if mux == null {
        return Fail(RuntimeError(Muxer.failure));
      }
      var accepted := Add(mux);
      var isLive;
      r, isLive := AddSources(env);
      if r.Fail? {
        return;
      }
      r := Finish(env, mux, isLive);
    }

    /** Lines 62-156, after the sources: make the stages, configure them,
        add and link them. Nothing joins the pipeline unless every step
        before the adds succeeded. */
    method Finish(env: Env, mux: Element, isLive: bool) returns (r: Outcome)
      requires made && SourcesReady(|config|) && SourceBins(stages[1..], config)
      requires Configured(config, |config|) && isLive == AnyLive(config, |config|)
      requires stages[0] == mux && MadeAs(mux, Muxer) && mux.props == map[]
      modifies this, mux
      ensures made
      ensures r == if StageCreationFailure(IsAarch64(env.uname), env.installed).Some?
                   then AsOutcome(StageCreationFailure(IsAarch64(env.uname), env.installed))
                   else AsOutcome(SettingsFailure(|config|, modelConfigPath.Some?, privateTiledWidth.Some?,
                                                  privateTiledHeight.Some?))
      ensures r.Pass? ==> Built(env) && SourceBins(stages[1..|config| + 1], config)
      ensures r.Fail? ==> stages == old(stages) && links == old(links)
    {
      var n := |config|;
      var aarch64 := IsAarch64(env.uname);
      var created := MakeStages(aarch64, env.installed);
      if created.Err? {
        return Fail(created.error);
      }
      var s := created.value;
      MuxOutsideBins(stages[1..], config, mux);
      r := Configure(n, isLive, env.inferBatchSize, mux, s.pgie, s.tiler, s.sink);
      if r.Fail? {
        return;
      }
      MadeInAddOrder(s, aarch64, n, modelConfigPath.value, env.inferBatchSize,
                     privateTiledWidth.value, privateTiledHeight.value);
      Assemble(env, s);
    }

    /** Lines 133-156 once every stage is made and configured: add the
        stages, link the chain, and the pipeline is Built; the source
        bins keep their places. */
    method Assemble(env: Env, s: Stages)
      requires made && |config| >= 1 && Configured(config, |config|)
      requires modelConfigPath.Some? && privateTiledWidth.Some? && privateTiledHeight.Some?
      requires SourcesReady(|config|) && SourceBins(stages[1..], config)
      requires MadeAs(stages[0], Muxer) && stages[0].props == MuxProps(|config|, AnyLive(config, |config|))
      requires StagesNamed(s, IsAarch64(env.uname))
      requires StagesAre(AddedStages(s), AddOrder(IsAarch64(env.uname)),
                         StageProps(|config|, IsAarch64(env.uname), modelConfigPath.value, env.inferBatchSize,
                                    privateTiledWidth.value, privateTiledHeight.value))
      modifies this
      ensures made
      ensures Built(env) && SourceBins(stages[1..|config| + 1], config)
    {
      ghost var sources := stages;
      AssembleStages(env, s);
      assert stages[1..|config| + 1] == sources[1..];
    }

    /** The adds and links of Assemble, which leave the muxer and the
        source bins in front. */
    method AssembleStages(env: Env, s: Stages)
      requires made && |config| >= 1 && Configured(config, |config|)
      requires modelConfigPath.Some? && privateTiledWidth.Some? && privateTiledHeight.Some?
      requires SourcesReady(|config|)
      requires MadeAs(stages[0], Muxer) && stages[0].props == MuxProps(|config|, AnyLive(config, |config|))
      requires StagesNamed(s, IsAarch64(env.uname))
      requires StagesAre(AddedStages(s), AddOrder(IsAarch64(env.uname)),
                         StageProps(|config|, IsAarch64(env.uname), modelConfigPath.value, env.inferBatchSize,
                                    privateTiledWidth.value, privateTiledHeight.value))
      modifies this
      ensures made
      ensures Built(env) && |stages| > |config| && stages[..|config| + 1] == old(stages)
    {
      var n := |config|;
      var aarch64 := IsAarch64(env.uname);
      ghost var sources, linksBefore := stages, links;
      assert NamesSoFar(stages, n, 0, aarch64);
      ghost var props := StageProps(n, aarch64, modelConfigPath.value, env.inferBatchSize,
                                    privateTiledWidth.value, privateTiledHeight.value);
      AddAndLink(s, aarch64);
      AssembledGraph(sources, linksBefore, AddedStages(s), stages, links, config, aarch64, props);
    }
  }

  /** `Pipeline(config, tiled_output_height, tiled_output_width)` as
      written: `_build` runs while none of `_model_config_path`,
      `_tiled_output_width`, `_tiled_output_height` exists, so the
      constructor always raises and lines 19-20 are never reached; the
      source bins are made by `create_source_bin` as written. */
  method Create(config: map<string, SourceConfig>, tiledOutputHeight: int, tiledOutputWidth: int, env: Env)
    returns (p: Pipeline, r: Outcome)
    ensures p.config == config && p.checksNewBin == false
    ensures p.tiledOutputHeight == tiledOutputHeight && p.tiledOutputWidth == tiledOutputWidth
    ensures p.modelConfigPath == None && p.privateTiledWidth == None && p.privateTiledHeight == None
    ensures r == AsOutcome(BuildFailure(config, env, false, false, false, false))
    ensures r.Fail? && p.PartiallyBuilt()
  {
    p := new Pipeline.Init(config, tiledOutputHeight, tiledOutputWidth, None, None, None, false);
    r := p.Build(env);
    BuildAlwaysFailsAsWritten(config, env);
  }

  /** The constructor as evidently intended: the model configuration path
      and the tiled output size are in place before `_build` runs, and
      `create_source_bin` checks the bin it made. The build then raises only when the framework or the configuration
      fails it, and otherwise leaves the pipeline Built. */
  method CreateFixed(config: map<string, SourceConfig>, tiledOutputHeight: int, tiledOutputWidth: int,
                     env: Env)
    returns (p: Pipeline, r: Outcome)
    ensures p.config == config && p.checksNewBin == true
    ensures p.tiledOutputHeight == tiledOutputHeight && p.tiledOutputWidth == tiledOutputWidth
    ensures r == AsOutcome(BuildFailure(config, env, true, true, true, true))
    ensures r.Pass? ==> p.Built(env) && |p.stages| > |config| && SourceBins(p.stages[1..|config| + 1], config)
    ensures p.modelConfigPath == Some(ModelConfigPath)
    ensures p.privateTiledWidth == Some(tiledOutputWidth) && p.privateTiledHeight == Some(tiledOutputHeight)
    ensures r.Fail? ==> p.PartiallyBuilt()
  {
    p := new Pipeline.Init(config, tiledOutputHeight, tiledOutputWidth, Some(ModelConfigPath),
                           Some(tiledOutputWidth), Some(tiledOutputHeight), true);
    r := p.Build(env);
  }
}
