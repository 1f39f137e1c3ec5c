/** A benefits document as the MCP tool and resource return it: a JSON object
    whose `name` and `description` keys may be absent, plus action links that
    the core carries along without looking at them. */
module Documents {
  import opened Wrappers

  datatype Document = Document(name: Option<string>, description: Option<string>, links: seq<string>)

  /** The name, or the empty string when the key is missing. */
  function NameOrEmpty(doc: Document): (r: string) {
    doc.name.GetOr("")
  }

  /** The description, or the empty string when the key is missing. */
  function DescriptionOrEmpty(doc: Document): (r: string) {
    doc.description.GetOr("")
  }

  /** Every document has a `name` key, so indexing it cannot raise. */
  predicate AllNamed(docs: seq<Document>) {
    forall i :: 0 <= i < |docs| ==> docs[i].name.Some?
  }

  /** A document with the given name and no other fields. */
  function Named(name: string): (d: Document)
    ensures d.name == Some(name)
  {
    Document(Some(name), None, [])
  }
}
