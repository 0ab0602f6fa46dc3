/** pipeline/metadata.py: the event message record attached to buffers, the
    copy and free callbacks the framework calls on it, and the function that
    fills a new record from a detection.

    The record's fixed fields are one value; its three variable-length
    fields (`ts`, `sensorStr`, `objSignature.signature`) are pointers to
    separately allocated buffers. A buffer remembers whether it was freed,
    so that a use after free or a double free is visible. */
module Metadata {

  const MAX_TIME_STAMP_LEN: nat := 32

  newtype byte = x: int | 0 <= x < 256

  /** A block of native memory. */
  class Buffer {
    var bytes: seq<byte>
    var freed: bool

    constructor (bytes: seq<byte>)
      ensures this.bytes == bytes && !freed
    {
      this.bytes := bytes;
      freed := false;
    }
  }

  /** The C string a buffer holds: its bytes up to the first NUL. */
  function CStr(b: seq<byte>): (s: seq<byte>)
    ensures |s| <= |b| && s == b[..|s|] && 0 !in s
    ensures |s| == |b| || b[|s|] == 0
  {
    if b == [] || b[0] == 0 then [] else [b[0]] + CStr(b[1..])
  }

  /** A NUL-terminated copy of a string without NUL reads back as that
      string. */
  lemma {:induction false} CStrOfTerminated(s: seq<byte>, rest: seq<byte>)
    requires 0 !in s
    ensures CStr(s + [0] + rest) == s
  {
    if s != [] {
      assert (s + [0] + rest)[1..] == s[1..] + [0] + rest;
      CStrOfTerminated(s[1..], rest);
    }
  }

  /** An ASCII Python string as the bytes the binding's string setter
      stores: for code points below 128 its UTF-8 encoding is one byte per
      character, of the same value. */
  function Ascii(text: string): (b: seq<byte>)
    requires forall k :: 0 <= k < |text| ==> text[k] as int < 128
    ensures |b| == |text|
    ensures forall k :: 0 <= k < |text| ==> b[k] as int == text[k] as int
  {
    seq(|text|, k requires 0 <= k < |text| => text[k] as int as byte)
  }

  /** `pyds.memdup(ptr, size)`: a fresh buffer holding the first `size`
      bytes at `ptr`; NULL stays NULL. Reading a freed or short buffer is
      not allowed. */
  method Memdup(src: Buffer?, size: nat) returns (dst: Buffer?)
    requires src != null ==> !src.freed && size <= |src.bytes|
    ensures src == null <==> dst == null
    ensures dst != null ==> fresh(dst) && !dst.freed && dst.bytes == src.bytes[..size]
  {
    if src == null {
      return null;
    }
    dst := new Buffer(src.bytes[..size]);
  }

  /** The string property setter: a fresh NUL-terminated copy of `text`. */
  method StringBuffer(text: seq<byte>) returns (b: Buffer)
    requires 0 !in text
    ensures fresh(b) && !b.freed && b.bytes == text + [0]
    ensures CStr(b.bytes) == text
  {
    b := new Buffer(text + [0]);
    CStrOfTerminated(text, []);
    assert text + [0] + [] == text + [0];
  }

  /** `pyds.free_buffer(ptr)`: a no-op on NULL. Freeing a buffer that was
      already freed is reported as a double free. */
  method FreeBuffer(b: Buffer?) returns (doubleFree: bool)
    modifies if b == null then {} else {b}
    ensures b == null ==> !doubleFree
    ensures b != null ==> doubleFree == old(b.freed) && b.freed && b.bytes == old(b.bytes)
  {
    if b == null {
      return false;
    }
    doubleFree := b.freed;
    b.freed := true;
  }

  datatype EventType =
    | EventEntry | EventExit | EventMoving | EventStopped | EventEmpty
    | EventParked | EventReset | EventReserved | EventCustom

  datatype ObjectType =
    | ObjectVehicle | ObjectPerson | ObjectFace | ObjectBag | ObjectBicycle
    | ObjectRoadsign | ObjectVehicleExt | ObjectPersonExt | ObjectFaceExt
    | ObjectCustom | ObjectUnknown

  /** A bounding box; its float coordinates are only ever copied. */
  datatype BBox = BBox(top: real, left: real, width: real, height: real)

  /** The inline fields of the record that the core reads or writes. */
  datatype FixedFields = FixedFields(
    eventType: EventType, objType: ObjectType, bbox: BBox,
    frameId: int, trackingId: int, confidence: real,
    sensorId: int, placeId: int, moduleId: int, objClassId: int)

  const ZeroFields := FixedFields(EventEntry, ObjectVehicle, BBox(0.0, 0.0, 0.0, 0.0), 0, 0, 0.0, 0, 0, 0, 0)

  /** An `NvDsEventMsgMeta` record. */
  class EventMsgMeta {
    var fixed: FixedFields
    var ts: Buffer?
    var sensorStr: Buffer?
    var signature: Buffer?
    var signatureSize: nat

    /** `pyds.alloc_nvds_event_msg_meta()`: zero-filled. */
    constructor Zeroed()
      ensures fixed == ZeroFields
      ensures ts == null && sensorStr == null && signature == null && signatureSize == 0
    {
      fixed := ZeroFields;
      ts, sensorStr, signature := null, null, null;
      signatureSize := 0;
    }

    /** `pyds.memdup` of the whole struct: every field, pointers included. */
    constructor ShallowCopy(src: EventMsgMeta)
      ensures fixed == src.fixed && ts == src.ts && sensorStr == src.sensorStr
      ensures signature == src.signature && signatureSize == src.signatureSize
    {
      fixed := src.fixed;
      ts, sensorStr, signature := src.ts, src.sensorStr, src.signature;
      signatureSize := src.signatureSize;
    }
  }

  /** The buffers a record points to. */
  ghost function Buffers(m: EventMsgMeta): set<object>
    reads m
  {
    (if m.ts == null then {} else {m.ts})
    + (if m.sensorStr == null then {} else {m.sensorStr})
    + (if m.signature == null then {} else {m.signature})
  }

  /** A record owns three different buffers. */
  ghost predicate BuffersDistinct(m: EventMsgMeta)
    reads m
  {
    && (m.ts != null && m.sensorStr != null ==> m.ts != m.sensorStr)
    && (m.ts != null && m.signature != null ==> m.ts != m.signature)
    && (m.sensorStr != null && m.signature != null ==> m.sensorStr != m.signature)
  }

  /** A record that may be copied: its buffers are live and as long as the
      copy reads. */
  ghost predicate Live(m: EventMsgMeta)
    reads m, Buffers(m)
  {
    && (m.ts != null ==> !m.ts.freed && MAX_TIME_STAMP_LEN + 1 <= |m.ts.bytes|)
    && m.sensorStr != null && !m.sensorStr.freed
    && (m.signatureSize > 0 ==>
          m.signature != null && !m.signature.freed && m.signatureSize <= |m.signature.bytes|)
  }

  /** `meta_copy_func`: a new record with the same fixed fields and its own
      copies of the time stamp, the sensor string and, when its size is not
      zero, the signature. A zero-size signature pointer is shared, not
      copied. The source record is not touched. */
  method MetaCopy(src: EventMsgMeta) returns (dst: EventMsgMeta)
    requires Live(src)
    ensures fresh(dst)
    ensures dst.fixed == src.fixed
    ensures src.ts == null ==> dst.ts == null
    ensures src.ts != null ==>
              dst.ts != null && fresh(dst.ts) && !dst.ts.freed
              && dst.ts.bytes == src.ts.bytes[..MAX_TIME_STAMP_LEN + 1]
    ensures dst.sensorStr != null && fresh(dst.sensorStr) && !dst.sensorStr.freed
    ensures CStr(dst.sensorStr.bytes) == CStr(src.sensorStr.bytes)
    ensures dst.signatureSize == src.signatureSize
    ensures src.signatureSize > 0 ==>
              dst.signature != null && fresh(dst.signature) && !dst.signature.freed
              && dst.signature.bytes == src.signature.bytes[..src.signatureSize]
    ensures src.signatureSize == 0 ==> dst.signature == src.signature
    ensures BuffersDistinct(dst)
  {
    dst := new EventMsgMeta.ShallowCopy(src);
    dst.ts := Memdup(src.ts, MAX_TIME_STAMP_LEN + 1);
    dst.sensorStr := StringBuffer(CStr(src.sensorStr.bytes));
    if src.signatureSize > 0 {
      dst.signature := Memdup(src.signature, src.signatureSize);
      dst.signatureSize := src.signatureSize;
    }
  }

  /** `meta_free_func`: frees the time stamp and the sensor string, and the
      signature only when its size is not zero, then zeroes that size. The
      `ts` and `sensorStr` pointers are left as they were. The result says
      whether one of the frees hit a buffer that was already freed. */
  method MetaFree(m: EventMsgMeta) returns (doubleFree: bool)
    requires BuffersDistinct(m)
    modifies m, Buffers(m)
    ensures m.fixed == old(m.fixed) && m.ts == old(m.ts) && m.sensorStr == old(m.sensorStr)
    ensures m.signature == old(m.signature)
    ensures m.signatureSize == 0
    ensures m.ts != null ==> m.ts.freed
    ensures m.sensorStr != null ==> m.sensorStr.freed
    ensures m.signature != null ==>
              m.signature.freed == (old(m.signature.freed) || old(m.signatureSize) > 0)
    ensures forall b: Buffer :: b in Buffers(m) ==> b.bytes == old(b.bytes)
    ensures doubleFree <==>
              || (m.ts != null && old(m.ts.freed))
              || (m.sensorStr != null && old(m.sensorStr.freed))
              || (old(m.signatureSize) > 0 && m.signature != null && old(m.signature.freed))
  {
    var d1 := FreeBuffer(m.ts);
    var d2 := FreeBuffer(m.sensorStr);
    var d3 := false;
    if m.signatureSize > 0 {
      d3 := FreeBuffer(m.signature);
      m.signatureSize := 0;
    }
    doubleFree := d1 || d2 || d3;
  }

  /** Freeing a record twice, as `meta_free_func` is written: the second call
      frees the time stamp or the sensor string again. */
  method FreeTwiceAsWritten(m: EventMsgMeta) returns (first: bool, second: bool)
    requires BuffersDistinct(m)
    requires m.ts != null || m.sensorStr != null
    modifies m, Buffers(m)
    ensures second
  {
    first := MetaFree(m);
    second := MetaFree(m);
  }

  /** `meta_free_func` as evidently intended: after freeing, the record's
      pointers are reset, so that a second release finds nothing to free. */
  method MetaRelease(m: EventMsgMeta) returns (doubleFree: bool)
    requires BuffersDistinct(m)
    modifies m, Buffers(m)
    ensures m.fixed == old(m.fixed)
    ensures m.ts == null && m.sensorStr == null && m.signatureSize == 0
    ensures m.signature == if old(m.signatureSize) > 0 then null else old(m.signature)
    ensures old(m.ts) != null ==> old(m.ts).freed
    ensures old(m.sensorStr) != null ==> old(m.sensorStr).freed
    ensures old(m.signatureSize) > 0 && old(m.signature) != null ==> old(m.signature).freed
    ensures doubleFree <==>
              || (old(m.ts) != null && old(m.ts.freed))
              || (old(m.sensorStr) != null && old(m.sensorStr.freed))
              || (old(m.signatureSize) > 0 && old(m.signature) != null && old(m.signature.freed))
  {
    var hadSignature := m.signatureSize > 0;
    doubleFree := MetaFree(m);
    if hadSignature {
      m.signature := null;
    }
    m.ts := null;
    m.sensorStr := null;
  }

  /** With the corrected release, releasing a record twice frees nothing
      twice and leaves nothing behind to free. */
  method ReleaseTwice(m: EventMsgMeta) returns (first: bool, second: bool)
    requires BuffersDistinct(m)
    modifies m, Buffers(m)
    ensures !second
    ensures m.ts == null && m.sensorStr == null && m.signatureSize == 0
  {
    first := MetaRelease(m);
    second := MetaRelease(m);
  }

  /** Copying a record and then freeing the original leaves the copy whole:
      its buffers are still live and hold what the original held. */
  method CopyThenFreeOriginal(src: EventMsgMeta) returns (dst: EventMsgMeta)
    requires Live(src) && BuffersDistinct(src)
    modifies src, Buffers(src)
    ensures fresh(dst)
    ensures dst.fixed == old(src.fixed)
    ensures old(src.ts) != null ==>
              dst.ts != null && !dst.ts.freed
              && dst.ts.bytes == old(src.ts.bytes)[..MAX_TIME_STAMP_LEN + 1]
    ensures dst.sensorStr != null && !dst.sensorStr.freed
    ensures CStr(dst.sensorStr.bytes) == CStr(old(src.sensorStr.bytes))
    ensures old(src.signatureSize) > 0 ==>
              dst.signature != null && !dst.signature.freed
              && dst.signature.bytes == old(src.signature.bytes)[..old(src.signatureSize)]
    ensures dst.signatureSize == old(src.signatureSize)
    ensures old(src.ts) == null ==> dst.ts == null
    ensures dst.ts != null ==> fresh(dst.ts)
    ensures fresh(dst.sensorStr)
    ensures old(src.signatureSize) > 0 ==> fresh(dst.signature)
    ensures old(src.signatureSize) == 0 ==> dst.signature == old(src.signature)
    ensures BuffersDistinct(dst)
  {
    dst := MetaCopy(src);
    var _ := MetaFree(src);
  }

  /** The copy outlives its original: once the original is freed, freeing
      the copy hits no buffer that was already freed. */
  method CopyFreeBoth(src: EventMsgMeta) returns (doubleFree: bool)
    requires Live(src) && BuffersDistinct(src)
    modifies src, Buffers(src)
    ensures !doubleFree
  {
    var dst := CopyThenFreeOriginal(src);
    doubleFree := MetaFree(dst);
  }

  /** The parts of the detection the record is filled from. */
  datatype ObjectMeta = ObjectMeta(rect: BBox, objectId: int, confidence: real, classId: int)
  datatype FrameMeta = FrameMeta(frameNum: int)

  /** `generate_event_msg_meta(obj_meta, frame_meta)`: a fresh person-entry
      record for `sensor-0` carrying the detection's box, track, confidence
      and class, with a 33-byte time stamp buffer. `timestamp` is the text
      `generate_ts_rfc3339` writes, which is not part of this model. */
  method GenerateEventMsgMeta(obj: ObjectMeta, frame: FrameMeta, timestamp: seq<byte>)
    returns (m: EventMsgMeta)
    requires |timestamp| < MAX_TIME_STAMP_LEN && 0 !in timestamp
    ensures fresh(m) && fresh(Buffers(m))
    ensures m.fixed == FixedFields(EventEntry, ObjectPerson, obj.rect, frame.frameNum, obj.objectId,
                                   obj.confidence, 0, 0, 0, obj.classId)
    ensures m.ts != null && |m.ts.bytes| == MAX_TIME_STAMP_LEN + 1 && CStr(m.ts.bytes) == timestamp
    ensures m.sensorStr != null && CStr(m.sensorStr.bytes) == Ascii("sensor-0")
    ensures m.signature == null && m.signatureSize == 0
    ensures Live(m) && BuffersDistinct(m)
  {
    m := new EventMsgMeta.Zeroed();
    var f := m.fixed;
    f := f.(bbox := f.bbox.(top := obj.rect.top));
    f := f.(bbox := f.bbox.(left := obj.rect.left));
    f := f.(bbox := f.bbox.(width := obj.rect.width));
    f := f.(bbox := f.bbox.(height := obj.rect.height));
    f := f.(frameId := frame.frameNum, trackingId := obj.objectId, confidence := obj.confidence);
    f := f.(sensorId := 0, placeId := 0, moduleId := 0);
    m.fixed := f;
    m.sensorStr := StringBuffer(Ascii("sensor-0"));
    var stamp := new Buffer(seq(MAX_TIME_STAMP_LEN + 1, _ => 0));
    GenerateTimestamp(stamp, timestamp);
    m.ts := stamp;
    m.fixed := m.fixed.(eventType := EventEntry, objType := ObjectPerson, objClassId := obj.classId);
  }

  /** `generate_ts_rfc3339(buf, MAX_TIME_STAMP_LEN)`: writes the time stamp
      text and its terminating NUL at the start of the buffer. */
  method GenerateTimestamp(buf: Buffer, text: seq<byte>)
    requires |text| < MAX_TIME_STAMP_LEN && 0 !in text
    requires |buf.bytes| == MAX_TIME_STAMP_LEN + 1
    modifies buf
    ensures |buf.bytes| == MAX_TIME_STAMP_LEN + 1 && CStr(buf.bytes) == text
    ensures buf.freed == old(buf.freed)
  {
    var rest := buf.bytes[|text| + 1..];
    buf.bytes := text + [0] + rest;
    CStrOfTerminated(text, rest);
  }
}
