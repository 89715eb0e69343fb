/**
 * The two fixed renditions derived from every uploaded file part, and the
 * rule that names the object each one is uploaded to: the rendition's path
 * prefix followed by the upload identifier of the file part.
 */
module Renditions {

  /** Large is the 800x450 rendition, Thumb the 288x162 one. */
  datatype Rendition = Large | Thumb

  function Prefix(r: Rendition): (p: string)
    ensures |p| == 15
  {
    match r
    case Large => "images/800x450/"
    case Thumb => "images/288x162/"
  }

  /** The object name a rendition task uploads to. */
  function ObjectName(r: Rendition, id: string): (name: string)
    ensures |name| == |Prefix(r)| + |id|
    ensures name[..|Prefix(r)|] == Prefix(r)
    ensures name[|Prefix(r)|..] == id
  {
    Prefix(r) + id
  }

  /** Different (rendition, identifier) pairs never share an object name. */
  lemma ObjectNameInjective(r1: Rendition, id1: string, r2: Rendition, id2: string)
    ensures ObjectName(r1, id1) == ObjectName(r2, id2) <==> r1 == r2 && id1 == id2
  {
    if ObjectName(r1, id1) == ObjectName(r2, id2) {
      assert Prefix(r1) == ObjectName(r1, id1)[..15] == ObjectName(r2, id2)[..15] == Prefix(r2);
    }
  }
}
