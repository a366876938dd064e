/**
 * The Panorama log-forwarding profile match-list namespace
 * (objs/profile/logfwd/matchlist/pano.go): a match list lives in the log
 * forwarding profile `logfwd` of device group `dg` (default "shared").
 * Only the v1 schema exists.
 */
module MatchList {
  import opened Util
  import opened Namespace

  const NeedLogfwd := "logfwd must be specified"
  const UnknownType := "Unknown type sent to delete: "

  /** versioning: always the v1 container and specifier. */
  function Versioning(): (s: Schema)
    ensures s == V1
  {
    V1
  }

  /** xpath: an empty device group means "shared". */
  function Xpath(dg: string, logfwd: string, vals: seq<string>): (r: seq<Segment>)
    ensures |r| == 6
    ensures r[0] == DeviceGroupPrefix(if dg == "" then "shared" else dg)
    ensures r[1] == Lit("log-settings") && r[2] == Lit("profiles")
    ensures r[3] == EntryXpath([logfwd]) && r[4] == Lit("match-list") && r[5] == EntryXpath(vals)
  {
    var dg := if dg == "" then "shared" else dg;
    [DeviceGroupPrefix(dg)] +
    [ Lit("log-settings"),
      Lit("profiles"),
      EntryXpath([logfwd]),
      Lit("match-list"),
      EntryXpath(vals) ]
  }

  /** Leaving the device group empty is the same as naming "shared". */
  lemma XpathDefaultsToShared(logfwd: string, vals: seq<string>)
    ensures Xpath("", logfwd, vals) == Xpath("shared", logfwd, vals)
  {
  }

  /** The path ShowList and GetList list: the xpath without its final entry selector. */
  function ListPath(dg: string, logfwd: string): (r: seq<Segment>)
    ensures |r| == 5 && r[4] == Lit("match-list")
    ensures forall vals :: Xpath(dg, logfwd, vals) == r + [EntryXpath(vals)]
  {
    var path := Xpath(dg, logfwd, []);
    Trim(path, 1)
  }

  /** Set: nothing for no entries; `logfwd` is required; the bulk element is
      named after the list element, read off the xpath itself. */
  method Set<A>(dg: string, logfwd: string, e: seq<Entry<A>>) returns (out: Outcome<A>)
    ensures |e| == 0 ==> out == NoRequest
    ensures |e| > 0 && logfwd == "" ==> out == Fail(NeedLogfwd)
    ensures |e| > 0 && logfwd != "" ==> out.Send? && out.req.SetReq?
    ensures out.Send? ==> (
      && out.req.SetReq?
      && SetsUnder(out.req.path, out.req.element.tag, ListPath(dg, logfwd), |e|)
      && out.req.element.tag == "match-list"
      && |out.req.element.records| == |e|
      && forall i | 0 <= i < |e| :: out.req.element.records[i] == Wire(V1, e[i]))
  {
    if |e| == 0 {
      return NoRequest;
    } else if logfwd == "" {
      return Fail(NeedLogfwd);
    }
    var names, data := BuildBulk(Versioning(), e);
    var path := Xpath(dg, logfwd, names);
    var tag := path[|path| - 2].name;
    path := Trim(path, SetTrim(|e|));
    out := Send(SetReq(path, Bulk(tag, data)));
  }

  /** Edit: `logfwd` is required (even before anything else); one EDIT of the entry's path. */
  function Edit<A>(dg: string, logfwd: string, e: Entry<A>): (out: Outcome<A>)
    ensures logfwd == "" ==> out == Fail(NeedLogfwd)
    ensures logfwd != "" ==> out == Send(EditReq(ListPath(dg, logfwd) + [EntryXpath([e.Name])], Wire(V1, e)))
  {
    if logfwd == "" then Fail(NeedLogfwd)
    else Send(EditReq(Xpath(dg, logfwd, [e.Name]), Wire(Versioning(), e)))
  }

  /** Delete: nothing for no arguments; `logfwd` is required; the names in
      argument order, or an error for the first unsupported argument. */
  method Delete<A>(dg: string, logfwd: string, e: seq<Arg<A>>) returns (out: Outcome<A>)
    ensures |e| == 0 ==> out == NoRequest
    ensures |e| > 0 && logfwd == "" ==> out == Fail(NeedLogfwd)
    ensures |e| > 0 && logfwd != "" && DeleteNames(e, UnknownType).Err? ==> out == Fail(DeleteNames(e, UnknownType).msg)
    ensures |e| > 0 && logfwd != "" && DeleteNames(e, UnknownType).Ok? ==>
      out == Send(DeleteReq(ListPath(dg, logfwd) + [EntryXpath(DeleteNames(e, UnknownType).value)]))
  {
    if |e| == 0 {
      return NoRequest;
    } else if logfwd == "" {
      return Fail(NeedLogfwd);
    }
    var names := ExtractNames(e, UnknownType);
    if names.Err? {
      return Fail(names.msg);
    }
    var path := Xpath(dg, logfwd, names.value);
    out := Send(DeleteReq(path));
  }

  /** details (Get and Show): the entry's own path, read into the v1 container. */
  function Details<A>(fetch: (seq<Segment>, Schema) -> Result<Entry<A>>, zero: A,
                      dg: string, logfwd: string, name: string): (r: Answer<A>)
    ensures var reply := fetch(ListPath(dg, logfwd) + [EntryXpath([name])], V1);
      && (reply.Err? ==> r == Answer(Entry("", zero), Some(reply.msg)))
      && (reply.Ok? ==> r == Answer(reply.value, None))
  {
    Retrieve(fetch, zero, Xpath(dg, logfwd, [name]), Versioning())
  }
}
