/** pipeline/utils.py: the platform test, the bus watch, and the source bin
    with its two decoder callbacks. */
module Utils {
  import opened Text
  import opened Gst

  /** The tuple `platform.uname()` returns, field by field. */
  datatype Uname = Uname(system: string, node: string, release: string,
                         version: string, machine: string, processor: string)

  /** `uname[k]`: the tuple's fields by position. */
  function UnameField(u: Uname, k: nat): string
    requires k < 6
  {
    [u.system, u.node, u.release, u.version, u.machine, u.processor][k]
  }

  /** `is_aarch64()`: the fifth field of the uname tuple is "aarch64". */
  predicate IsAarch64(u: Uname)
    ensures IsAarch64(u) <==> u.machine == "aarch64"
  {
    UnameField(u, 4) == "aarch64"
  }

  // ---------------------------------------------------------------------
  // bus_call

  /** Whether the main loop still runs after one message reaches the bus
      watch, given whether it ran before. */
  function LoopAfter(running: bool, t: MessageType): bool
  {
    if t == Eos then false else running
  }

  /** `bus_call`: end-of-stream quits the loop; warnings, errors and every
      other message are only logged. The watch always stays installed. */
  method BusCall(t: MessageType, loop: MainLoop) returns (keepWatch: bool)
    modifies loop
    ensures keepWatch
    ensures loop.running == LoopAfter(old(loop.running), t)
  {
    if t == Eos {
      loop.Quit();
    }
    keepWatch := true;
  }

  /** The loop's running flag after the watch has seen `msgs` in order. */
  function LoopAfterAll(running: bool, msgs: seq<MessageType>): bool
  {
    if msgs == [] then running else LoopAfterAll(LoopAfter(running, msgs[0]), msgs[1..])
  }

  /** The loop stops exactly when an end-of-stream has arrived: no number of
      warnings or errors ever stops it. */
  lemma {:induction false} LoopRunsUntilEos(running: bool, msgs: seq<MessageType>)
    ensures LoopAfterAll(running, msgs) <==> running && Eos !in msgs
  {
    if msgs != [] {
      LoopRunsUntilEos(LoopAfter(running, msgs[0]), msgs[1..]);
      assert msgs == [msgs[0]] + msgs[1..];
    }
  }

  // ---------------------------------------------------------------------
  // cb_newpad

  /** The negotiated caps of a new decoder pad: the name of the first
      structure and the features of the first caps entry. */
  datatype Caps = Caps(structureName: string, features: seq<string>)

  datatype PadAction = IgnorePad | BindGhostPad | RejectDecoder

  /** What `cb_newpad` does with a new pad, decided from its caps alone. */
  function NewPadAction(caps: Caps): (a: PadAction)
    ensures a == IgnorePad <==> !exists i :: OccursAt(caps.structureName, "video", i)
    ensures a == BindGhostPad <==>
              (exists i :: OccursAt(caps.structureName, "video", i)) && "memory:NVMM" in caps.features
    ensures a == RejectDecoder <==>
              (exists i :: OccursAt(caps.structureName, "video", i)) && "memory:NVMM" !in caps.features
  {
    ContainsIff(caps.structureName, "video");
    if Find(caps.structureName, "video") == -1 then IgnorePad
    else if "memory:NVMM" in caps.features then BindGhostPad
    else RejectDecoder
  }

  /** The pads of a bin have distinct names (the framework refuses a second
      pad of the same name). */
  ghost predicate PadNamesUnique(bin: Element)
    reads bin
  {
    forall j, k :: 0 <= j < k < |bin.pads| ==> bin.pads[j].name != bin.pads[k].name
  }

  /** `cb_newpad(decodebin, decoder_src_pad, source_bin)`: a video pad in
      NVMM memory becomes the target of the bin's "src" ghost pad; a video
      pad elsewhere means the wrong decoder was picked; other pads are
      ignored. `targetAccepted` is the framework's answer to `set_target`. */
  method NewPad(decoderPad: PadRef, caps: Caps, sourceBin: Element, targetAccepted: bool)
    returns (r: Outcome)
    requires PadNamesUnique(sourceBin)
    modifies sourceBin.pads
    ensures NewPadAction(caps) == IgnorePad ==> r == Pass
    ensures NewPadAction(caps) == RejectDecoder ==>
              r == Fail(RuntimeError("Error: Decodebin did not pick nvidia decoder plugin"))
    ensures NewPadAction(caps) == BindGhostPad && "src" !in PadNames(sourceBin.pads) ==>
              r == Fail(AttributeError("set_target"))
    ensures NewPadAction(caps) == BindGhostPad && "src" in PadNames(sourceBin.pads) ==>
              r == if targetAccepted then Pass
                   else Fail(RuntimeError("Failed to link decoder src pad with source bin ghost pad"))
    ensures forall p :: p in sourceBin.pads ==>
              p.target == if NewPadAction(caps) == BindGhostPad && p.name == "src" && targetAccepted
                          then Some(decoderPad) else old(p.target)
  {
    var action := NewPadAction(caps);
    if action == IgnorePad {
      return Pass;
    }
    if action == RejectDecoder {
      return Fail(RuntimeError("Error: Decodebin did not pick nvidia decoder plugin"));
    }
    var ghostPad := sourceBin.GetStaticPad("src");
    if ghostPad == null {
      return Fail(AttributeError("set_target"));
    }
    var ok := ghostPad.SetTarget(decoderPad, targetAccepted);
    if !ok {
      return Fail(RuntimeError("Failed to link decoder src pad with source bin ghost pad"));
    }
    r := Pass;
  }

  // ---------------------------------------------------------------------
  // decodebin_child_added

  datatype ChildAction = ChildAction(registerHandler: bool, dropOnLatency: bool)

  /** What `decodebin_child_added` does with a child, decided from its name:
      the two tests are independent, so a name matching both gets both. */
  function ChildAddedAction(name: string): (a: ChildAction)
    ensures a.registerHandler <==> exists i :: OccursAt(name, "decodebin", i)
    ensures a.dropOnLatency <==> exists i :: OccursAt(name, "source", i)
  {
    ContainsIff(name, "decodebin");
    ContainsIff(name, "source");
    ChildAction(Find(name, "decodebin") != -1, Contains(name, "source"))
  }

  /** `decodebin_child_added(child_proxy, child, name, user_data)`: a nested
      decodebin gets this same handler for its own children, and a source
      element stops buffering late data. */
  method ChildAdded(child: Element, name: string, userData: Element)
    modifies child
    ensures child.connections == old(child.connections) +
              (if ChildAddedAction(name).registerHandler
               then [Connection("child-added", DecodebinChildAdded, userData)] else [])
    ensures child.props == if ChildAddedAction(name).dropOnLatency
                           then old(child.props)["drop-on-latency" := BoolValue(true)]
                           else old(child.props)
    ensures child.children == old(child.children) && child.pads == old(child.pads)
  {
    var action := ChildAddedAction(name);
    if action.registerHandler {
      child.Connect("child-added", DecodebinChildAdded, userData);
    }
    if action.dropOnLatency {
      child.SetProperty("drop-on-latency", BoolValue(true));
    }
  }

  // ---------------------------------------------------------------------
  // create_source_bin

  function SourceBinName(index: nat): string
  {
    "source-bin-" + NatToString(index)
  }

  /** The exception `create_source_bin` raises, checking in source order
      that the bin, the decoder and the ghost pad were made. */
  function SourceBinFailure(binMade: bool, decoderInstalled: bool, padAccepted: bool): (e: Option<Exception>)
    ensures e == None <==> binMade && decoderInstalled && padAccepted
    ensures !binMade ==> e == Some(RuntimeError("Unable to create source bin"))
  {
    if !binMade then Some(RuntimeError("Unable to create source bin"))
    else if !decoderInstalled then Some(RuntimeError("Unable to create uri decode bin"))
    else if !padAccepted then Some(RuntimeError("Unable to add ghost pad in source bin"))
    else None
  }

  /** The same outcome as the code is written: the first check tests
      Python's builtin `bin`, which is always true, so a bin that was not
      made goes unnoticed until `Gst.Bin.add(None, ...)` raises a TypeError. */
  function SourceBinFailureAsWritten(binMade: bool, decoderInstalled: bool, padAccepted: bool): (e: Option<Exception>)
    ensures e == None <==> binMade && decoderInstalled && padAccepted
  {
    var builtinBinIsTrue := true;
    if !builtinBinIsTrue then Some(RuntimeError("Unable to create source bin"))
    else if !decoderInstalled then Some(RuntimeError("Unable to create uri decode bin"))
    else if !binMade then Some(TypeError("Gst.Bin.add() argument 1 must be Gst.Bin, not None"))
    else if !padAccepted then Some(RuntimeError("Unable to add ghost pad in source bin"))
    else None
  }

  /** The two agree whenever the bin is made; when it is not, the check
      written at utils.py:57 misses the failure. */
  lemma BinCheckMissesFailure(decoderInstalled: bool, padAccepted: bool)
    ensures SourceBinFailureAsWritten(true, decoderInstalled, padAccepted)
            == SourceBinFailure(true, decoderInstalled, padAccepted)
    ensures SourceBinFailureAsWritten(false, true, padAccepted)
            == Some(TypeError("Gst.Bin.add() argument 1 must be Gst.Bin, not None"))
    ensures SourceBinFailure(false, true, padAccepted)
            != SourceBinFailureAsWritten(false, true, padAccepted)
  {
  }

  /** The exception `create_source_bin` raises, with the check of line 57
      testing the new bin (`checksNewBin`) or as written. */
  function BinFailure(checksNewBin: bool, binMade: bool, decoderInstalled: bool, padAccepted: bool)
    : (e: Option<Exception>)
    ensures e == None <==> binMade && decoderInstalled && padAccepted
  {
    if checksNewBin then SourceBinFailure(binMade, decoderInstalled, padAccepted)
    else SourceBinFailureAsWritten(binMade, decoderInstalled, padAccepted)
  }

  /** A bin as `create_source_bin(index, uri)` returns it: named after the
      index, holding one uridecodebin reading `uri` with both callbacks
      connected, and one "src" ghost pad that has no target yet. */
  ghost predicate IsSourceBin(bin: Element, index: nat, uri: string)
    reads bin, bin.children, bin.pads
  {
    && bin.name == SourceBinName(index)
    && bin.factory == "bin"
    && |bin.children| == 1
    && bin.children[0].factory == "uridecodebin"
    && bin.children[0].name == "uri-decode-bin"
    && bin.children[0].props == map["uri" := StrValue(uri)]
    && bin.children[0].connections == [Connection("pad-added", CbNewpad, bin),
                                       Connection("child-added", DecodebinChildAdded, bin)]
    && bin.children[0].children == [] && bin.children[0].pads == []
    && |bin.pads| == 1
    && bin.pads[0].name == "src"
    && bin.pads[0].target == None
    && bin.connections == [] && bin.props == map[]
  }

  /** `create_source_bin(index, uri)`. `installed` is the set of element
      factories the framework can instantiate; `binMade` and `padAccepted`
      are the framework's answers to `Gst.Bin.new` and `add_pad`. With
      `checksNewBin` the check of line 57 tests the new bin, as evidently
      intended; without it the check never fires, and a missing bin is
      found only when `Gst.Bin.add(None, ...)` raises. */
  method CreateSourceBin(index: nat, uri: string, installed: set<string>, binMade: bool, padAccepted: bool,
                         checksNewBin: bool)
    returns (r: Result<Element>)
    ensures r.Err? <==> BinFailure(checksNewBin, binMade, "uridecodebin" in installed, padAccepted) != None
    ensures r.Err? ==> BinFailure(checksNewBin, binMade, "uridecodebin" in installed, padAccepted) == Some(r.error)
    ensures r.Ok? ==> fresh(r.value) && fresh(r.value.children) && fresh(r.value.pads)
    ensures r.Ok? ==> IsSourceBin(r.value, index, uri) && PadNamesUnique(r.value)
  {
    if checksNewBin && !binMade {
      return Err(RuntimeError("Unable to create source bin"));
    }
    if "uridecodebin" !in installed {
      return Err(RuntimeError("Unable to create uri decode bin"));
    }
    if !binMade {
      return Err(TypeError("Gst.Bin.add() argument 1 must be Gst.Bin, not None"));
    }
    var nbin := new Element("bin", SourceBinName(index));
    var decoder := new Element("uridecodebin", "uri-decode-bin");
    decoder.SetProperty("uri", StrValue(uri));
    decoder.Connect("pad-added", CbNewpad, nbin);
    decoder.Connect("child-added", DecodebinChildAdded, nbin);
    nbin.AddChild(decoder);
    var ghostPad := new GhostPad.NoTarget("src");
    var ok := nbin.AddPad(ghostPad, padAccepted);
    if !ok {
      return Err(RuntimeError("Unable to add ghost pad in source bin"));
    }
    r := Ok(nbin);
  }
}
