/** Export as an ordered list of key/value entries: the order is part of the output
    format. Nested nodes whose exporters are not part of this model keep their raw
    serialized bytes. */
module Yaml {
  import opened Bytes

  datatype Value =
    | Int(i: int)
    | Float(f: Single)
    | Flag(b: bool)
    | ByteList(items: seq<byte>)
    | Nested(raw: seq<byte>)

  type Entry = (string, Value)

  function Keys(m: seq<Entry>): (ks: seq<string>)
    ensures |ks| == |m|
    ensures forall i :: 0 <= i < |m| ==> ks[i] == m[i].0
  {
    if |m| == 0 then [] else [m[0].0] + Keys(m[1..])
  }

  /** A mapping node from its keys and their values, paired in order. */
  function Node(keys: seq<string>, values: seq<Value>): (m: seq<Entry>)
    requires |keys| == |values|
    ensures Keys(m) == keys
    ensures forall i :: 0 <= i < |m| ==> m[i] == (keys[i], values[i])
  {
    seq(|keys|, i requires 0 <= i < |keys| => (keys[i], values[i]))
  }
}
