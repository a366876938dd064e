/**
 * The Panorama administrative tags namespace (objs/tags/pano.go): tags live
 * either in the shared config or in a device group. Only the v1 schema exists
 * and no argument is required.
 */
module Tags {
  import opened Util
  import opened Namespace

  const UnsupportedType := "Unsupported type to delete: "

  /** versioning: always the v1 container and specifier. */
  function Versioning(): (s: Schema)
    ensures s == V1
  {
    V1
  }

  /** The device group the xpath uses: empty means "shared". */
  function DeviceGroup(dg: string): string
  {
    if dg == "" then "shared" else dg
  }

  /** xpath: the shared branch, or the branch of device group `dg`. */
  function Xpath(dg: string, vals: seq<string>): (r: seq<Segment>)
    ensures |r| == 4 <==> DeviceGroup(dg) == "shared"
    ensures |r| == 4 || |r| == 7
    ensures r[|r| - 1] == EntryXpath(vals) && r[|r| - 2] == Lit("tag")
  {
    var dg := DeviceGroup(dg);
    if dg == "shared" then
      [ Lit("config"),
        Lit("shared"),
        Lit("tag"),
        EntryXpath(vals) ]
    else
      [ Lit("config"),
        Lit("devices"),
        EntryXpath(["localhost.localdomain"]),
        Lit("device-group"),
        EntryXpath([dg]),
        Lit("tag"),
        EntryXpath(vals) ]
  }

  /** The shared tags, whether the device group is "" or "shared". */
  lemma XpathShared(dg: string, vals: seq<string>)
    requires dg == "" || dg == "shared"
    ensures Xpath(dg, vals) == [Lit("config"), Lit("shared"), Lit("tag"), EntryXpath(vals)]
  {
  }

  /** Two tag xpaths are the same exactly for the same (defaulted) device
      group and the same names. */
  lemma XpathLocates(dg: string, vals: seq<string>, dg': string, vals': seq<string>)
    ensures Xpath(dg, vals) == Xpath(dg', vals') <==> DeviceGroup(dg) == DeviceGroup(dg') && vals == vals'
  {
  }

  /** The path ShowList and GetList list: the xpath without its last segment. */
  function ListPath(dg: string): (r: seq<Segment>)
    ensures |r| > 0 && r[|r| - 1] == Lit("tag")
    ensures forall vals :: Xpath(dg, vals) == r + [EntryXpath(vals)]
  {
    var path := Xpath(dg, []);
    Trim(path, 1)
  }

  /** Set: nothing for no entries, and no other argument check. */
  method Set<A>(dg: string, e: seq<Entry<A>>) returns (out: Outcome<A>)
    ensures |e| == 0 <==> out == NoRequest
    ensures !out.Fail?
    ensures out.Send? ==> (
      && out.req.SetReq?
      && SetsUnder(out.req.path, out.req.element.tag, ListPath(dg), |e|)
      && out.req.element.tag == "tag"
      && |out.req.element.records| == |e|
      && forall i | 0 <= i < |e| :: out.req.element.records[i] == Wire(V1, e[i]))
  {
    if |e| == 0 {
      return NoRequest;
    }
    var names, data := BuildBulk(Versioning(), e);
    var path := Xpath(dg, names);
    path := Trim(path, SetTrim(|e|));
    out := Send(SetReq(path, Bulk("tag", data)));
  }

  /** Edit: no argument check; one EDIT of the entry's own path. */
  function Edit<A>(dg: string, e: Entry<A>): (out: Outcome<A>)
    ensures out == Send(EditReq(ListPath(dg) + [EntryXpath([e.Name])], Wire(V1, e)))
  {
    Send(EditReq(Xpath(dg, [e.Name]), Wire(Versioning(), e)))
  }

  /** Delete: nothing for no arguments; otherwise the names in argument
      order, or an error for the first unsupported argument. */
  method Delete<A>(dg: string, e: seq<Arg<A>>) returns (out: Outcome<A>)
    ensures |e| == 0 ==> out == NoRequest
    ensures |e| > 0 && DeleteNames(e, UnsupportedType).Err? ==> out == Fail(DeleteNames(e, UnsupportedType).msg)
    ensures |e| > 0 && DeleteNames(e, UnsupportedType).Ok? ==>
      out == Send(DeleteReq(ListPath(dg) + [EntryXpath(DeleteNames(e, UnsupportedType).value)]))
  {
    if |e| == 0 {
      return NoRequest;
    }
    var names := ExtractNames(e, UnsupportedType);
    if names.Err? {
      return Fail(names.msg);
    }
    var path := Xpath(dg, names.value);
    out := Send(DeleteReq(path));
  }

  /** details (Get and Show): the tag's own path, read into the v1 container. */
  function Details<A>(fetch: (seq<Segment>, Schema) -> Result<Entry<A>>, zero: A,
                      dg: string, name: string): (r: Answer<A>)
    ensures var reply := fetch(ListPath(dg) + [EntryXpath([name])], V1);
      && (reply.Err? ==> r == Answer(Entry("", zero), Some(reply.msg)))
      && (reply.Ok? ==> r == Answer(reply.value, None))
  {
    Retrieve(fetch, zero, Xpath(dg, [name]), Versioning())
  }
}
