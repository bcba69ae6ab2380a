/** The records the tag pages pass between components. */
module TagTypes {

  /** `{ name, count }`: a tag and how often it occurred. */
  datatype TagInfo = TagInfo(name: string, count: nat)

  /** A quotient `num / den`, kept exact instead of the source's floating-point division. */
  datatype Ratio = Ratio(num: nat, den: nat)

  /** `{ source, target, strength }`: an edge of the tag graph. */
  datatype TagRelation = TagRelation(source: string, target: string, strength: Ratio)

  /** The comparator `(a, b) => b.count - a.count`: `a` may come first when its count is not smaller. */
  predicate ByCountDesc(a: TagInfo, b: TagInfo) {
    a.count >= b.count
  }

  function Names(infos: seq<TagInfo>): (r: seq<string>)
    ensures |r| == |infos|
    ensures forall k :: 0 <= k < |r| ==> r[k] == infos[k].name
  {
    if infos == [] then [] else [infos[0].name] + Names(infos[1..])
  }
}
