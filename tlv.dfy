/**
 * Tag-length-value objects as the Chip Authentication handlers see them:
 * already parsed into a tree. A primitive object holds its value bytes, a
 * constructed object the ordered sequence of its children.
 */
module Tlv {
  import opened Wrappers

  /** A BER-TLV tag, as the number its tag bytes spell (0x7C, 0x80, 0x7F21, ...). */
  type Tag = nat

  const TAG_INTEGER: Tag := 0x02
  const TAG_BIT_STRING: Tag := 0x03
  const TAG_OID: Tag := 0x06
  const TAG_SEQUENCE: Tag := 0x30
  const TAG_SET: Tag := 0x31
  const TAG_7C: Tag := 0x7C
  const TAG_80: Tag := 0x80
  const TAG_81: Tag := 0x81
  const TAG_82: Tag := 0x82
  const TAG_84: Tag := 0x84

  datatype TlvObject =
    | Primitive(tag: Tag, value: seq<byte>)
    | Constructed(tag: Tag, children: seq<TlvObject>)

  /** Position of the first object of the container carrying `tag`, or |container|. */
  function FirstIndexOf(container: seq<TlvObject>, tag: Tag): (k: nat)
    ensures k <= |container|
    ensures forall j :: 0 <= j < k ==> container[j].tag != tag
    ensures k < |container| ==> container[k].tag == tag
  {
    if |container| == 0 then 0
    else if container[0].tag == tag then 0
    else 1 + FirstIndexOf(container[1..], tag)
  }

  /** The first top-level object of a container with the given tag; None when there is none. */
  function Find(container: seq<TlvObject>, tag: Tag): (r: Option<TlvObject>)
    ensures r.None? <==> forall j :: 0 <= j < |container| ==> container[j].tag != tag
    ensures r.Some? ==> r.value.tag == tag && r.value in container
  {
    var k := FirstIndexOf(container, tag);
    if k < |container| then Some(container[k]) else None
  }

  /**
   * Lookup along a path of tags: the first object with path[0], then inside
   * it (when it is constructed) the first object with path[1], and so on.
   */
  function FindPath(container: seq<TlvObject>, path: seq<Tag>): (r: Option<TlvObject>)
    requires |path| > 0
    ensures r.Some? ==> r.value.tag == path[|path| - 1]
  {
    match Find(container, path[0])
    case None => None
    case Some(o) =>
      if |path| == 1 then Some(o)
      else if o.Constructed? then FindPath(o.children, path[1..])
      else None
  }

  /**
   * The value field of an object: the bytes of a primitive object, or the
   * encoding of the children of a constructed one, which `serialize` stands for.
   */
  function ValueField(o: TlvObject, serialize: seq<TlvObject> -> seq<byte>): (v: seq<byte>)
    ensures o.Primitive? ==> v == o.value
  {
    match o
    case Primitive(_, value) => value
    case Constructed(_, children) => serialize(children)
  }
}
