/**
 * Where a document-outcome message came from: the solace_destination header
 * and the loan id carried as the last segment of its path (replyTopic/{loanId}).
 */
module Destination {
  import opened JavaString

  /** The value of the solace_destination header, by its runtime type. */
  datatype Header =
    | HString(text: string)  // a String
    | HTopic(name: string)   // a bus Topic, known by its name
    | HOther(repr: string)   // any other object, known by its toString()
    | HAbsent                // no such header (or a null value)

  /** getDestinationName: the header as a String, or null when there is none. */
  function DestinationName(h: Header): (r: NString)
    ensures r.Null? <==> h.HAbsent?
    ensures h.HString? ==> r == Str(h.text)
    ensures h.HTopic? ==> r == Str(h.name)
    ensures h.HOther? ==> r == Str(h.repr)
  {
    match h
    case HString(s) => Str(s)
    case HTopic(n) => Str(n)
    case HOther(o) => Str(o)
    case HAbsent => Null
  }

  /**
   * getLastSegment: null for a null or empty path; the path itself when it
   * has no '/' or ends in one; otherwise the text after the last '/'.
   */
  function GetLastSegment(path: NString): (r: NString)
    ensures r.Null? <==> (path.Null? || path.value == "")
    ensures path.Str? && path.value != "" && ('/' !in path.value || path.value[|path.value| - 1] == '/') ==>
      r == path
    ensures path.Str? && path.value != "" && '/' in path.value && path.value[|path.value| - 1] != '/' ==>
      && r.Str? && r.value != "" && '/' !in r.value
      && |r.value| < |path.value|
      && path.value == path.value[..|path.value| - |r.value| - 1] + "/" + r.value
  {
    match path
    case Null => Null
    case Str(p) =>
      if |p| == 0 then Null
      else
        var lastSlash := LastIndexOf(p, '/');
        if lastSlash == -1 || lastSlash == |p| - 1 then path
        else
          assert p == p[..lastSlash] + "/" + p[lastSlash + 1..];
          Str(p[lastSlash + 1..])
  }

  /** Taking the last segment twice is the same as taking it once. */
  lemma LastSegmentIdempotent(path: NString)
    ensures GetLastSegment(GetLastSegment(path)) == GetLastSegment(path)
  {
  }

  /** A path built as prefix + "/" + id, with id a non-empty segment, yields id back. */
  lemma LastSegmentOfJoin(prefix: string, id: string)
    requires id != "" && '/' !in id
    ensures GetLastSegment(Str(prefix + "/" + id)) == Str(id)
  {
    var p := prefix + "/" + id;
    assert p[|prefix|] == '/';
    assert p[|p| - 1] == id[|id| - 1];
    var r := GetLastSegment(Str(p)).value;
    var n := |p| - |r| - 1;
    assert p[n] == '/';
    assert r == p[n + 1..];
  }

  /** The edge cases of a destination: null, empty, a trailing '/' and no '/'. */
  lemma LastSegmentExamples()
    ensures GetLastSegment(Null) == Null
    ensures GetLastSegment(Str("")) == Null
    ensures GetLastSegment(Str("replyTopic/")) == Str("replyTopic/")
    ensures GetLastSegment(Str("12345")) == Str("12345")
  {
    assert "replyTopic/"[10] == '/';
  }

  /** A reply topic yields the loan id after its '/'. */
  lemma LastSegmentOfReplyTopic()
    ensures GetLastSegment(Str("replyTopic/12345")) == Str("12345")
  {
    LastSegmentOfJoin("replyTopic", "12345");
    assert "replyTopic" + "/" + "12345" == "replyTopic/12345";
  }
}
