/**
 * The envelope every XML API reply carries: a top-level OBJECT named
 * `status` whose PROPERTYs `return-code` and `response` give the outcome
 * of the command.
 */
module Api {
  import opened Results
  import opened Xml

  /** Return code, description and the whole reply. */
  datatype Envelope = Envelope(code: Option<string>, description: Option<string>, tree: Element)

  /** `find("./OBJECT[@name='status']/PROPERTY[@name='return-code']")` and the same for `response`. */
  function ReadStatus(root: Element): (r: Option<Envelope>)
    ensures r.Some? <==> FindPath(root, "status", "return-code").Some? && FindPath(root, "status", "response").Some?
    ensures r.Some? ==> r.value.tree == root
  {
    var code := TextOf(FindPath(root, "status", "return-code"));
    var description := TextOf(FindPath(root, "status", "response"));
    if code.None? || description.None? then None else Some(Envelope(code.value, description.value, root))
  }

  /** A PROPERTY element named `name` with text `text`. */
  function Property(name: string, text: Option<string>): Element {
    Element("PROPERTY", map["name" := name], text, [])
  }

  /** The status OBJECT the storage puts in front of every reply. */
  function StatusObject(code: Option<string>, description: Option<string>): Element {
    Element("OBJECT", map["name" := "status"], None, [Property("return-code", code), Property("response", description)])
  }

  /** A reply whose first child is the status OBJECT gives back exactly its code and description. */
  lemma StatusRoundTrip(tag: string, attrs: map<string, string>, text: Option<string>, rest: seq<Element>,
                        code: Option<string>, description: Option<string>)
    ensures var root := Element(tag, attrs, text, [StatusObject(code, description)] + rest);
      ReadStatus(root) == Some(Envelope(code, description, root))
  {
    var status := StatusObject(code, description);
    var root := Element(tag, attrs, text, [status] + rest);
    var ps := status.children;
    SelectCons(status, rest, "OBJECT", "name", "status");
    assert Select(root.children, "OBJECT", "name", "status")[0] == status;
    SelectCons(ps[0], [ps[1]], "PROPERTY", "name", "return-code");
    assert ps == [ps[0]] + [ps[1]];
    SelectCons(ps[0], [ps[1]], "PROPERTY", "name", "response");
    assert !Matches(ps[0], "PROPERTY", "name", "response") by {
      assert "return-code"[2] != "response"[2];
    }
    SelectCons(ps[1], [], "PROPERTY", "name", "response");
    assert [ps[1]] == [ps[1]] + [];
  }
}
