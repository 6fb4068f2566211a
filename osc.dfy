/** A decoded OSC packet as the `osc` (JavaScript) and `rosc` (Rust) libraries
    hand it over. Decoding the binary datagram is done by those libraries and
    is not part of this model: a datagram arrives here already decoded, or as
    a decode failure. */
module Osc {
  import opened Wrappers

  /** One typed argument. OSC 1.0 tags `i`, `f`, `s` and `d` are modelled with
      their values; any other tag is `Other`, whose `tag` is therefore never
      one of those four. For such a tag osc.js may still
      decode a string value (its `value` field), which `text` carries; rosc
      never exposes it as an `OscType::String`. Floats are kept as exact reals:
      floating-point rounding is not modelled. */
  datatype Arg =
    | I(i: int)
    | F(x: real)
    | S(s: string)
    | D(d: real)
    | Other(tag: char, text: Option<string>)
  {
    /** The argument types whose value is used as a cue number (`i` or `f`). */
    predicate IsNumeric() {
      I? || F?
    }
  }

  /** A message: its address pattern and its ordered argument list. */
  datatype Message = Message(address: string, args: seq<Arg>)

  /** A packet is a message or a bundle of packets (the time tag of a bundle
      plays no role here and is left out). */
  datatype Packet =
    | Msg(msg: Message)
    | Bundle(content: seq<Packet>)

  /** A message together with the time at which it was handled (the source
      reads the wall clock; here it is an opaque input). */
  datatype Received = Received(msg: Message, at: string)
}
