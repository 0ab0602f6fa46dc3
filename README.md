# deepstream-kafka: a Dafny model of the pipeline core

This project models the core of a DeepStream video-analytics service: the
`Pipeline` class that assembles a GStreamer graph for N configured video
sources, the helpers that build and wire each source, the bus watch, and the
copy, free and fill callbacks for the event-message metadata attached to
frames.

The model is split into six modules:

- `Text` (text.dfy) covers the Python string operations the core relies on:
  `str.find`, the `in` operator, and the decimal rendering inside
  `f"sink_{i}"` and `str(i)`.
- `Gst` (gst.dfy) holds the framework objects the core touches. Elements,
  ghost pads and the main loop are classes with only the fields the core
  reads or writes. The exceptions the core raises or runs into form a
  datatype, and every call that can raise returns an `Outcome` or `Result`.
- `Utils` (utils.dfy) covers the platform test, the bus watch, the two
  decoder callbacks and the source-bin factory.
- `Tiler` (tiler.dfy) covers the tiler grid, `rows = int(sqrt(n))` and
  `columns = ceil(n / rows)`, on integers.
- `Metadata` (metadata.dfy) models the `NvDsEventMsgMeta` record. Its three
  variable-length fields point to separately allocated buffers, and each
  buffer remembers whether it was freed, so a double free is visible.
- `Topology` (pipeline.dfy) models the `Pipeline` object and `_build`.
  - The pipeline is an arena. `stages` lists the elements in the order they
    are added, and `links` lists the links as index pairs in the order they
    are made.
  - Whether the framework can make an element, bin or pad is an input
    (`Env`). So are the machine name from `platform.uname()` and the batch
    size in the inference config file.
  - `BuildFailure` gives the exception `_build` raises, in the order the code
    reaches each check. `Pipeline.Build` is proved to raise exactly that.
    When a source fails, the pipeline holds exactly the muxer, the bins
    before the first failing source, and that source's bin if the muxer
    refused its pad.
    When it does not raise, the graph is proved to be the muxer, then the N
    source bins, then the processing stages in add order, each with its
    properties. The links are proved to run from each source to the muxer
    and then along the chain.

Where the code is surprising, the model follows it:

- The second converter's factory name `nvvidconvert` is kept as written. It
  only matters through the set of installed factories, which is an input.
- The results of `link` and of `Gst.Bin.add` inside `create_source_bin` are
  never checked by the code. The model appends those links and children
  unconditionally.
- With zero sources, the grid computation divides by zero. This is modelled
  as the `ZeroDivisionError` the code raises, not as a precondition.
- The check at utils.py:57 tests Python's builtin `bin`, which is always
  true, instead of the new bin. The pipeline carries a flag `checksNewBin`
  that selects either check. `Create`, the constructor as written, uses the
  written check: a bin the framework fails to make surfaces as the
  `TypeError` from `Gst.Bin.add(None, ...)`. `CreateFixed` uses the
  intended check (see Findings).
- The check of the source bin's "src" pad (pipeline.py:57) can never fire.
  Every bin `create_source_bin` returns has that pad, and `AttachBin` proves
  it.
- `__init__` calls `_build` before it assigns `_model_config_path`. So the
  attributes `_build` reads are constants of the object, as they stand when
  `_build` runs (see Findings).

## Model

| member | source | states |
|---|---|---|
| Text.FindFrom | pipeline/utils.py:39 | `find` returns the least position at or after `start` where the substring occurs, or -1 exactly when it occurs nowhere there |
| Text.ContainsIff | pipeline/utils.py:51 | `sub in s` holds exactly when `sub` occurs in `s` at some position |
| Text.NatToString | pipeline/utils.py:55 | the f-string rendering of an index is a non-empty run of decimal digits without a leading zero |
| Text.DecimalRoundTrip | pipeline/pipeline.py:46 | reading back the rendering of n gives n (`int(str(n)) == n`) |
| Text.PrefixedNamesDistinct | pipeline/utils.py:55 | one prefix followed by two different indices gives two different names |
| Gst.GhostPad.NoTarget | pipeline/utils.py:69 | `Gst.GhostPad.new_no_target(name, ...)` makes a pad of that name with no target |
| Gst.GhostPad.SetTarget | pipeline/utils.py:42 | `set_target` reports the framework's answer, and the target changes only when the framework accepts it |
| Gst.Element.SetProperty | pipeline/utils.py:64 | `set_property(key, v)` maps the key to the value, keeping every other property, and changes nothing else about the element (also used at utils.py:52 and pipeline.py:106-131) |
| Gst.Element.Connect | pipeline/utils.py:65-66 | `connect(signal, callback, data)` appends that connection and changes nothing else |
| Gst.Element.AddChild | pipeline/utils.py:68 | `Gst.Bin.add(bin, child)` appends the child to the bin and changes nothing else |
| Gst.MainLoop.Quit | pipeline/utils.py:22 | `loop.quit()` leaves the loop stopped |
| Gst.Element.AddPad | pipeline/utils.py:69 | `add_pad` is refused when the bin already has a pad of that name or the framework refuses it; otherwise the pad is appended |
| Gst.Element.GetStaticPad | pipeline/utils.py:41 | `get_static_pad` returns None exactly when no pad has that name, and otherwise the bin's first pad with that name |
| Utils.IsAarch64 | pipeline/utils.py:11-16 | true exactly when the machine field of the uname tuple is "aarch64" |
| Utils.BusCall | pipeline/utils.py:18-29 | the watch always stays installed; end-of-stream stops the main loop, and every other message leaves it as it was |
| Utils.LoopRunsUntilEos | pipeline/utils.py:18-29 | over any sequence of messages, the loop is still running exactly when it was running and no end-of-stream arrived |
| Utils.NewPadAction | pipeline/utils.py:39-45 | a new pad is ignored exactly when its caps name has no "video"; it is bound exactly when it has "video" and NVMM memory; the decoder is rejected exactly when it has "video" without NVMM memory |
| Utils.NewPad | pipeline/utils.py:32-45 | `cb_newpad` passes on ignored pads and raises the decoder error on rejected ones; on bound ones it raises exactly when the target is refused; only the bin's "src" ghost pad gets the decoder pad as target |
| Utils.ChildAddedAction | pipeline/utils.py:48-52 | the handler is re-registered exactly when the name contains "decodebin", and late data is dropped exactly when it contains "source", independently |
| Utils.ChildAdded | pipeline/utils.py:47-52 | `decodebin_child_added` appends the child-added connection, or sets "drop-on-latency", exactly in those cases, and changes nothing else |
| Utils.SourceBinFailure | pipeline/utils.py:54-73 | building a source bin fails exactly when the bin, the decoder or the ghost pad is not made, with the first failing step's error |
| Utils.SourceBinFailureAsWritten | pipeline/utils.py:54-73 | with the check of line 57 as written, building a source bin still fails exactly when the bin, the decoder or the ghost pad is not made |
| Utils.BinFailure | pipeline/utils.py:54-73 | with either check at line 57, `create_source_bin` fails exactly when the bin, the decoder or the ghost pad is not made |
| Utils.BinCheckMissesFailure | pipeline/utils.py:57-58 | the check as written agrees with the intended one whenever the bin is made; when it is not, the written check lets the failure through to a TypeError |
| Utils.CreateSourceBin | pipeline/utils.py:54-73 | `create_source_bin` raises exactly BinFailure's error for the chosen check at line 57; otherwise it returns a fresh bin with that index's name, holding one uridecodebin that reads the uri with both callbacks connected, and one "src" ghost pad without a target |
| Tiler.Isqrt | pipeline/pipeline.py:123 | the row count r satisfies r*r <= n < (r+1)*(r+1) |
| Tiler.CeilDiv | pipeline/pipeline.py:124 | the column count is the least q with q*rows >= n |
| Tiler.GridFits | pipeline/pipeline.py:123-126 | for at least one source the grid has a row, holds every source, has no empty row, and has rows <= columns <= rows + 2 |
| Tiler.GridExamples | pipeline/pipeline.py:123-124 | the grids for 1, 2, 3, 4, 5, 9 and 10 sources are 1x1, 1x2, 1x3, 2x2, 2x3, 3x3 and 3x4 |
| Metadata.Memdup | pipeline/metadata.py:25 | `memdup` yields a fresh live buffer holding the first `size` bytes, and NULL for NULL |
| Metadata.StringBuffer | pipeline/metadata.py:70 | the string field setter stores a fresh live NUL-terminated buffer that reads back as the given text (also used at metadata.py:32) |
| Metadata.EventMsgMeta.Zeroed | pipeline/metadata.py:58 | `alloc_nvds_event_msg_meta()` gives a zero-filled record: zero inline fields, NULL pointers, signature size 0 |
| Metadata.EventMsgMeta.ShallowCopy | pipeline/metadata.py:17-20 | `memdup` of the whole record copies every field, the buffer pointers included, so they are shared until replaced |
| Metadata.FreeBuffer | pipeline/metadata.py:47-50 | `free_buffer` is a no-op on NULL; otherwise the buffer ends freed, and the call is a double free exactly when it already was |
| Metadata.MetaCopy | pipeline/metadata.py:7-39 | the copy has the same inline fields; its own fresh 33-byte time stamp and a sensor string with the same text; a fresh copy of the signature exactly when its size is not zero (else the pointer is shared); three distinct buffers |
| Metadata.MetaFree | pipeline/metadata.py:43-54 | frees the time stamp and sensor string, and the signature only when its size is not zero; zeroes the size; leaves the pointers; reports a double free exactly when one of those buffers was already freed |
| Metadata.FreeTwiceAsWritten | pipeline/metadata.py:49-50 | calling the free callback twice on a record with a time stamp or a sensor string is a double free |
| Metadata.MetaRelease | pipeline/metadata.py:43-54 | the free callback with its pointers reset: it frees the same buffers with the same double-free report, and leaves the record pointing at nothing it freed |
| Metadata.ReleaseTwice | pipeline/metadata.py:43-54 | with the pointers reset, a second release frees nothing twice |
| Metadata.CopyThenFreeOriginal | pipeline/metadata.py:7-54 | freeing the original after copying leaves every buffer of the copy live and holding what the original held; the copy's buffers are distinct, and fresh except a zero-size signature pointer |
| Metadata.CopyFreeBoth | pipeline/metadata.py:7-54 | freeing the original and then its copy frees no buffer twice |
| Metadata.GenerateTimestamp | pipeline/metadata.py:72-73 | the time stamp text ends up NUL-terminated in the 33-byte buffer, which stays live |
| Metadata.GenerateEventMsgMeta | pipeline/metadata.py:57-79 | a fresh person-entry record carrying the detection's box, frame number, track id, confidence and class, with sensor, place and module ids 0; sensor string "sensor-0"; a 33-byte buffer holding the time stamp; no signature; live and with distinct buffers |
| Topology.NamesDistinct | pipeline/pipeline.py:133-142 | the source bins, the muxer and the processing stages all have different names, so no `add` in the build is refused |
| Topology.LiveUriIff | pipeline/pipeline.py:48-49 | a source is live exactly when "rtsp://" or "http://" occurs anywhere in its uri |
| Topology.AnyLiveSnoc | pipeline/pipeline.py:44-49 | after one more source, the muxer is live exactly when it already was or the new uri is live |
| Topology.SourceFailure | pipeline/pipeline.py:44-58 | one loop iteration raises KeyError for a missing entry or uri, then the source-bin error as the chosen check at utils.py:57 gives it, then the muxer-pad error; when it raises nothing, the source is configured |
| Topology.FirstFailingSource | pipeline/pipeline.py:44-60 | the source loop's exception is that of the first source that raises, every source before it raising nothing |
| Topology.SourcesConfigured | pipeline/pipeline.py:44-46 | when the source loop raises nothing, every index has a configuration entry with a uri |
| Topology.BuildAlwaysFailsAsWritten | pipeline/pipeline.py:15-20 | as the constructor is written, `_build` raises for every configuration and platform; after all earlier steps it raises the AttributeError for the model path, and with only that fixed, the one for the tiled width |
| Topology.BuildSucceedsWhenFixed | pipeline/pipeline.py:22-156 | with the attributes in place, the build raises nothing exactly when the pipeline, the muxer, every source and every stage of the creation order can be made, and there is at least one source |
| Topology.InferenceBatchIsSourceCount | pipeline/pipeline.py:114-121 | the inference batch size ends up the number of sources, and the property is overwritten exactly when the config file's value differs |
| Topology.ChainShape | pipeline/pipeline.py:144-156 | the chain starts with muxer to inference; display, transform and renderer are linked in that order on aarch64, and display to renderer directly elsewhere |
| Topology.SourceLinksGrow | pipeline/pipeline.py:53-60 | linking one more bin's "src" to the muxer's "sink_i" extends the source links by exactly that link |
| Topology.ChainLinksNamed | pipeline/pipeline.py:144-156 | the links made at those lines join, by name, each stage of the chain to the next one |
| Topology.MakeElement | pipeline/pipeline.py:63-65 | `make` returns None exactly when the factory is not installed, and otherwise a fresh element with that name and nothing set |
| Topology.StageCreationFailsAtFirstMissing | pipeline/pipeline.py:62-104 | stage creation raises the error of the first stage in creation order whose factory is missing, and raises nothing when there is none |
| Topology.MakeStages | pipeline/pipeline.py:62-104 | creating the stages fails exactly as StageCreationFailure says; otherwise it returns fresh stages named as specified, with only the caps filter's caps set, and a transform exactly on aarch64 |
| Topology.Pipeline.Init | pipeline/pipeline.py:15-18 | the constructor stores the configuration and the output size and starts with an empty pipeline |
| Topology.Pipeline.Add | pipeline/pipeline.py:42 | `add` appends the element exactly when no element of that name is already in the pipeline |
| Topology.Pipeline.LinkStages | pipeline/pipeline.py:60 | a link request is recorded at the end of the links |
| Topology.Pipeline.AttachBin | pipeline/pipeline.py:52-60 | adds the bin; raises exactly when the muxer refuses "sink_i", leaving the bin added and unlinked; otherwise links the bin's "src" to it, keeping the source bins in order |
| Topology.Pipeline.AddSource | pipeline/pipeline.py:44-58 | one source raises exactly SourceFailure's error, having added its bin only when the muxer refused the pad and linked nothing; otherwise its bin joins and is linked, and its liveness is reported |
| Topology.Pipeline.AddSources | pipeline/pipeline.py:44-60 | the source loop raises exactly the first failing source's error, leaving the bins and links of the sources before it (and that source's bin when its muxer pad was refused); otherwise all N bins follow the muxer in index order, each linked to its muxer pad, and liveness is that of some uri |
| Topology.Pipeline.Configure | pipeline/pipeline.py:106-131 | sets the muxer's properties, then raises exactly what SettingsFailure says; otherwise the inference, tiler and sink properties are those of InferenceProps, TilerProps and SinkProps |
| Topology.Pipeline.AddStages | pipeline/pipeline.py:133-142 | the stages join in add order and every add is accepted |
| Topology.Pipeline.LinkChain | pipeline/pipeline.py:144-156 | the chain links are appended, with the transform only on aarch64 |
| Topology.Pipeline.AddAndLink | pipeline/pipeline.py:133-156 | the stages join after the sources, the source links stay, and the new links name the chain |
| Topology.Pipeline.Finish | pipeline/pipeline.py:62-156 | after the sources, the build raises the stage-creation error, then the settings error; otherwise the pipeline is Built; on failure no stage joins |
| Topology.Pipeline.Assemble | pipeline/pipeline.py:133-156 | with every stage made and configured, adding and linking leaves the pipeline Built with the source bins in place |
| Topology.Pipeline.AssembleStages | pipeline/pipeline.py:133-156 | the adds and links of lines 133-156 leave the pipeline Built, the muxer and source bins still in front |
| Topology.Pipeline.Build | pipeline/pipeline.py:22-156 | `_build` raises exactly BuildFailure's error. Otherwise the pipeline is the muxer, the source bins and the configured stages in add order, linked sources to muxer and then along the chain. When the pipeline or the muxer is not made it holds nothing; on a source failure it holds the muxer, the bins before the first failing source and that source's bin if its muxer pad was refused, linked to the muxer; on a later failure, all N bins |
| Topology.Create | pipeline/pipeline.py:15-20 | constructing a Pipeline as written, with the check at utils.py:57 as written, gives an object holding the given configuration and output size with none of the three attributes, and always raises exactly BuildFailure's error for that code, and leaves a partly built graph |
| Topology.CreateFixed | pipeline/pipeline.py:15-20 | with the attributes assigned before `_build`, construction gives an object holding the given configuration, output size, model path and tiled size; it raises exactly when the framework or the configuration fails it, and otherwise the pipeline is Built with those attributes |

## Left out

- Logging, `GObject.threads_init`, `Gst.init`, and the `run` and `_osd_sink_buffer_probe` stubs do not change the modelled state.
- The dataflow the framework performs (decoding, caps negotiation, rendering) is left out; only the graph the core builds is modelled.
- The framework firing the callbacks is left out. A connection is recorded as data, and each callback is modelled on its own.
- `platform.uname()`, factory availability, allocation failures, request-pad refusals and the inference config file's batch size are inputs (`Env`), not computed.
- Utils.NewPad: takes caps that are always present; `get_current_caps()` returning None, which makes `caps.get_structure(0)` at utils.py:33-34 raise AttributeError, is not modelled.
- Tiler.Isqrt and Tiler.CeilDiv: the tiler's `int(math.sqrt(n))` and `math.ceil(1.0*n/rows)` at pipeline.py:123-124 are floating point; the model computes them exactly on integers, which agrees with the floating-point results for source counts far below 2^52 (not proved here).
- The string setter stores UTF-8; the model encodes only ASCII text (`Metadata.Ascii`), which is all the core stores ("sensor-0").
- Floating-point fields (the box and the confidence) are `real` values that are only copied; their float encoding is not modelled.
- The text `generate_ts_rfc3339` writes is a parameter of `GenerateEventMsgMeta`, not computed from a clock.
- The struct size passed to `memdup` at metadata.py:18 is that of the Python type object. The model copies the whole record regardless.
- Property names are not checked against the element's properties: `set_property` always succeeds in the model, whereas the framework warns about an unknown property such as "drop-on-latency" on a source that lacks it.
- The return values of `link`, and of `Gst.Bin.add` inside `create_source_bin`, are ignored by the code and not modelled.
- Utils.NewPad: requires the bin's ghost pads to have distinct names. Every bin `CreateSourceBin` returns satisfies this, and the framework refuses a duplicate.
- Metadata.MetaCopy: requires the record's buffers to be live and long enough. Reading freed or short native memory is undefined behaviour, which the model does not describe.
- Metadata.CopyThenFreeOriginal: requires the record to be live with distinct buffers, as for MetaCopy and MetaFree.
- Metadata.GenerateEventMsgMeta: requires the time stamp text to be shorter than MAX_TIME_STAMP_LEN and free of NUL bytes, as `generate_ts_rfc3339` guarantees.
- Metadata.MetaFree: requires the record's buffers to be distinct, which every record MetaCopy or GenerateEventMsgMeta makes satisfies.
- Tiler.Columns: defined only from one source on; the zero-source case is the ZeroDivisionError in Topology.Pipeline.Configure.
- Topology.Pipeline.Build: requires a fresh object, as `__init__` gives it.

## Findings

| source | as written | input that shows it | evidently intended | confidence | as-written member | corrected member |
|---|---|---|---|---|---|---|
| pipeline/pipeline.py:19-20 | `_build()` runs before `_model_config_path` is assigned, and line 114 reads that attribute | any configuration on which the earlier steps succeed, e.g. one source "0" with a file uri and every factory installed: AttributeError `_model_config_path` | assign the model path before building | high, not executed | Topology.Create | Topology.CreateFixed |
| pipeline/pipeline.py:127-128 | the tiler reads `_tiled_output_width` and `_tiled_output_height`; the constructor only assigns `tiled_output_width` and `tiled_output_height` | the same input with the model path fixed: AttributeError `_tiled_output_width` | read the assigned output size | high, not executed | Topology.BuildAlwaysFailsAsWritten | Topology.CreateFixed |
| pipeline/utils.py:57 | `if not bin` tests Python's builtin `bin`, which is always true | `Gst.Bin.new` returning None: no RuntimeError; `Gst.Bin.add(None, ...)` raises TypeError instead | test the new bin `nbin` | medium, not executed | Utils.BinCheckMissesFailure | Utils.SourceBinFailure |
| pipeline/metadata.py:49-50 | the freed `ts` and `sensorStr` pointers are left in the record | the free callback run twice on a record with a time stamp: the time stamp buffer is freed twice | reset the pointers after freeing | low, not executed | Metadata.FreeTwiceAsWritten | Metadata.ReleaseTwice |
