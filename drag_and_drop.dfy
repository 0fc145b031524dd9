/** The drag-data channel between the component panel (drag source) and
    the canvas (drop target), and the JSON encoding of the node payload. */
module DragAndDrop {
  import opened Wrappers
  import opened Graph

  /** The format key under which the payload travels; both ends use this one constant. */
  const DragFormat: string := "application/reactflow"

  /** `event.dataTransfer`: format key to data. */
  type DataTransfer = map<string, string>

  /** `dataTransfer.getData(format)`: the empty string when nothing was set. */
  function GetData(t: DataTransfer, format: string): (s: string)
    ensures format !in t ==> s == ""
    ensures format in t ==> s == t[format]
  {
    if format in t then t[format] else ""
  }

  /** `JSON.stringify` and `JSON.parse` restricted to node payloads; `parse`
      gives `None` where `JSON.parse` throws. */
  datatype Codec = Codec(stringify: Node -> string, parse: string -> Option<Node>)

  /** What the model relies on about JSON: parsing a stringified node gives it
      back, and the text of an object is never empty. */
  ghost predicate RoundTrips(c: Codec) {
    && (forall n :: c.parse(c.stringify(n)) == Some(n))
    && (forall n :: c.stringify(n) != "")
  }

  /** What the drop target reads back is the node the drag source wrote. */
  lemma DropReadsDraggedNode(c: Codec, n: Node)
    requires RoundTrips(c)
    ensures var data := GetData(map[DragFormat := c.stringify(n)], DragFormat);
            data != "" && c.parse(data) == Some(n)
  {
  }
}
