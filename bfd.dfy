/**
 * The firewall BFD profile namespace (netw/profile/bfd/fw.go): profiles
 * live at one fixed place in the device config. Only the v1 schema exists
 * and no argument is required.
 */
module Bfd {
  import opened Util
  import opened Namespace

  const UnsupportedType := "Unsupported type to delete: "

  /** versioning: always the v1 container and specifier. */
  function Versioning(): (s: Schema)
    ensures s == V1
  {
    V1
  }

  /** xpath: the fixed place of the BFD profiles, then the selector. */
  function Xpath(vals: seq<string>): (r: seq<Segment>)
    ensures |r| == 7 && r[5] == Lit("bfd-profile") && r[6] == EntryXpath(vals)
  {
    [ Lit("config"),
      Lit("devices"),
      EntryXpath(["localhost.localdomain"]),
      Lit("network"),
      Lit("profiles"),
      Lit("bfd-profile"),
      EntryXpath(vals) ]
  }

  /** The path ShowList and GetList list: the xpath without its last segment. */
  function ListPath(): (r: seq<Segment>)
    ensures |r| == 6 && r[5] == Lit("bfd-profile")
    ensures forall vals :: Xpath(vals) == r + [EntryXpath(vals)]
  {
    var path := Xpath([]);
    Trim(path, 1)
  }

  /** Set: nothing for no entries, and no other argument check. */
  method Set<A>(e: seq<Entry<A>>) returns (out: Outcome<A>)
    ensures |e| == 0 <==> out == NoRequest
    ensures !out.Fail?
    ensures out.Send? ==> (
      && out.req.SetReq?
      && SetsUnder(out.req.path, out.req.element.tag, ListPath(), |e|)
      && out.req.element.tag == "bfd-profile"
      && |out.req.element.records| == |e|
      && forall i | 0 <= i < |e| :: out.req.element.records[i] == Wire(V1, e[i]))
  {
    if |e| == 0 {
      return NoRequest;
    }
    var names, data := BuildBulk(Versioning(), e);
    var path := Xpath(names);
    path := Trim(path, SetTrim(|e|));
    out := Send(SetReq(path, Bulk("bfd-profile", data)));
  }

  /** Edit: no argument check; one EDIT of the profile's own path. */
  function Edit<A>(e: Entry<A>): (out: Outcome<A>)
    ensures out == Send(EditReq(ListPath() + [EntryXpath([e.Name])], Wire(V1, e)))
  {
    Send(EditReq(Xpath([e.Name]), Wire(Versioning(), e)))
  }

  /** Delete: nothing for no arguments; otherwise the names in argument
      order, or an error for the first unsupported argument. */
  method Delete<A>(e: seq<Arg<A>>) returns (out: Outcome<A>)
    ensures |e| == 0 ==> out == NoRequest
    ensures |e| > 0 && DeleteNames(e, UnsupportedType).Err? ==> out == Fail(DeleteNames(e, UnsupportedType).msg)
    ensures |e| > 0 && DeleteNames(e, UnsupportedType).Ok? ==>
      out == Send(DeleteReq(ListPath() + [EntryXpath(DeleteNames(e, UnsupportedType).value)]))
  {
    if |e| == 0 {
      return NoRequest;
    }
    var names := ExtractNames(e, UnsupportedType);
    if names.Err? {
      return Fail(names.msg);
    }
    var path := Xpath(names.value);
    out := Send(DeleteReq(path));
  }

  /** details (Get and Show): the profile's own path, read into the v1
      container; Go's zero Entry comes back with a retrieval error. */
  function Details<A>(fetch: (seq<Segment>, Schema) -> Result<Entry<A>>, zero: A, name: string): (r: Answer<A>)
    ensures var reply := fetch(ListPath() + [EntryXpath([name])], V1);
      && (reply.Err? ==> r == Answer(Entry("", zero), Some(reply.msg)))
      && (reply.Ok? ==> r == Answer(reply.value, None))
  {
    Retrieve(fetch, zero, Xpath([name]), Versioning())
  }
}
