/** The payload of a document-outcome message and the text extracted from it. */
module Payload {
  import opened JavaString

  /** A value held in a map payload, with what its toString() gives. */
  datatype Val = VNull | VString(text: string) | VObject(repr: string)

  /** A payload: a Map, any other object (known by its toString()), or null. */
  datatype Payload = PMap(entries: map<string, Val>) | PScalar(repr: string) | PNull

  /**
   * contentText: for a map, content.toString(), or null when the "content"
   * entry is missing or null; for anything else String.valueOf(payload).
   */
  function ContentText(p: Payload): (r: NString)
    ensures r.Null? <==> p.PMap? && ("content" !in p.entries || p.entries["content"].VNull?)
    ensures p.PMap? && "content" in p.entries && p.entries["content"].VString? ==>
      r == Str(p.entries["content"].text)
    ensures p.PMap? && "content" in p.entries && p.entries["content"].VObject? ==>
      r == Str(p.entries["content"].repr)
    ensures p.PScalar? ==> r == Str(p.repr)
    ensures p.PNull? ==> r == Str("null")
  {
    match p
    case PMap(m) =>
      if "content" in m then
        match m["content"]
        case VNull => Null
        case VString(s) => Str(s)
        case VObject(o) => Str(o)
      else Null
    case PScalar(o) => Str(o)
    case PNull => Str(ValueOf(Null))
  }
}
