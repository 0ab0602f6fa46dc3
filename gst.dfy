/** The framework objects the core manipulates, as opaque handles with only
    the state the core reads or writes: element properties, signal
    connections, the children and ghost pads of a bin, a ghost pad's target,
    and the running flag of the main loop. What the framework does with
    them (decoding, caps negotiation, dataflow) is not modelled. */
module Gst {

  datatype Option<T> = None | Some(value: T)

  /** The Python exceptions the core raises or runs into. */
  datatype Exception =
    | RuntimeError(message: string)
    | AttributeError(attribute: string)
    | KeyError(key: string)
    | TypeError(message: string)
    | ZeroDivisionError

  /** A call that returns normally or raises. */
  datatype Outcome = Pass | Fail(error: Exception)

  /** A call that returns a value or raises. */
  datatype Result<T> = Ok(value: T) | Err(error: Exception)

  /** A property value passed to `set_property`. */
  datatype Value = IntValue(i: int) | BoolValue(b: bool) | StrValue(s: string) | CapsValue(caps: string)

  /** A pad the framework created on its own (a decoder's source pad),
      known to the core only by identity. */
  datatype PadRef = PadRef(id: nat)

  /** The callbacks of utils.py that the core connects to signals. */
  datatype Callback = CbNewpad | DecodebinChildAdded

  /** One `connect(signal, callback, user_data)` registration. */
  datatype Connection = Connection(signal: string, callback: Callback, userData: Element)

  /** The type field of a bus message. */
  datatype MessageType = Eos | Warning | Error | OtherMessage

  /** A ghost pad: a pad of a bin that forwards to a target pad inside it. */
  class GhostPad {
    const name: string
    var target: Option<PadRef>

    /** `Gst.GhostPad.new_no_target(name, ...)`. */
    constructor NoTarget(name: string)
      ensures this.name == name && target == None
    {
      this.name := name;
      target := None;
    }

    /** `set_target(pad)`: the framework decides whether it accepts the
        target; on refusal the old target stays. */
    method SetTarget(pad: PadRef, accepted: bool) returns (ok: bool)
      modifies this
      ensures ok == accepted
      ensures target == if accepted then Some(pad) else old(target)
    {
      ok := accepted;
      if accepted {
        target := Some(pad);
      }
    }
  }

  /** The name of every pad in `pads`, in order. Pads and elements are
      different classes with no common supertype, so the names of a
      pipeline's elements have their own function, `Topology.Names`. */
  function PadNames(pads: seq<GhostPad>): (names: seq<string>)
    ensures |names| == |pads|
    ensures forall k :: 0 <= k < |pads| ==> names[k] == pads[k].name
  {
    if pads == [] then [] else PadNames(pads[..|pads| - 1]) + [pads[|pads| - 1].name]
  }

  /** An element or bin, made by a factory under a name. */
  class Element {
    const factory: string
    const name: string
    var props: map<string, Value>
    var connections: seq<Connection>
    var children: seq<Element>
    var pads: seq<GhostPad>

    constructor (factory: string, name: string)
      ensures this.factory == factory && this.name == name
      ensures props == map[] && connections == [] && children == [] && pads == []
    {
      this.factory := factory;
      this.name := name;
      props := map[];
      connections := [];
      children := [];
      pads := [];
    }

    /** `set_property(key, v)`. */
    method SetProperty(key: string, v: Value)
      modifies this
      ensures props == old(props)[key := v]
      ensures connections == old(connections) && children == old(children) && pads == old(pads)
    {
      props := props[key := v];
    }

    /** `connect(signal, callback, data)`. */
    method Connect(signal: string, callback: Callback, data: Element)
      modifies this
      ensures connections == old(connections) + [Connection(signal, callback, data)]
      ensures props == old(props) && children == old(children) && pads == old(pads)
    {
      connections := connections + [Connection(signal, callback, data)];
    }

    /** `Gst.Bin.add(self, child)`. */
    method AddChild(child: Element)
      modifies this
      ensures children == old(children) + [child]
      ensures props == old(props) && connections == old(connections) && pads == old(pads)
    {
      children := children + [child];
    }

    /** `add_pad(pad)`: refused when the bin already has a pad of that name
        or when the framework refuses it. */
    method AddPad(pad: GhostPad, accepted: bool) returns (ok: bool)
      modifies this
      ensures ok <==> accepted && pad.name !in PadNames(old(pads))
      ensures pads == if ok then old(pads) + [pad] else old(pads)
      ensures props == old(props) && connections == old(connections) && children == old(children)
    {
      ok := accepted && pad.name !in PadNames(pads);
      if ok {
        pads := pads + [pad];
      }
    }

    /** `get_static_pad(name)`: the first pad of that name, or None. */
    method GetStaticPad(name: string) returns (pad: GhostPad?)
      ensures pad == null <==> name !in PadNames(pads)
      ensures pad != null ==> pad in pads && pad.name == name
      ensures pad != null ==>
                exists k :: 0 <= k < |pads| && pads[k] == pad && forall j :: 0 <= j < k ==> pads[j].name != name
    {
      var k := 0;
      while k < |pads|
        invariant 0 <= k <= |pads|
        invariant forall j :: 0 <= j < k ==> pads[j].name != name
      {
        if pads[k].name == name {
          return pads[k];
        }
        k := k + 1;
      }
      return null;
    }
  }

  /** The GLib main loop the bus watch stops. */
  class MainLoop {
    var running: bool

    constructor ()
      ensures running
    {
      running := true;
    }

    /** `loop.quit()`. */
    method Quit()
      modifies this
      ensures !running
    {
      running := false;
    }
  }
}
