/**
 * The Panorama BGP peer namespace (netw/routing/protocol/bgp/peer/pano.go):
 * a peer lives in a template (or template stack), under a virtual router
 * and a peer group. The wire schema is chosen from the negotiated version.
 */
module Peer {
  import opened Util
  import opened Version
  import opened Namespace

  const NeedTemplate := "tmpl or ts must be specified"
  const NeedVr := "vr must be specified"
  const NeedPg := "pg must be specified"
  const UnknownType := "Unknown type sent to delete: "

  function SchemaRank(s: Schema): nat
  {
    match s
    case V1 => 1
    case V2 => 2
    case V3 => 3
    case V4 => 4
  }

  /** versioning: the schema variant for a PAN-OS version. The normaliser
      and the specifier are both taken from the one variant returned here. */
  function Versioning(v: Number): (s: Schema)
    ensures s == V4 <==> Gte(v, Number(8, 1, 0, ""))
    ensures s == V3 <==> Gte(v, Number(8, 0, 0, "")) && !Gte(v, Number(8, 1, 0, ""))
    ensures s == V2 <==> Gte(v, Number(7, 1, 0, "")) && !Gte(v, Number(8, 0, 0, ""))
    ensures s == V1 <==> !Gte(v, Number(7, 1, 0, ""))
  {
    if Gte(v, Number(8, 1, 0, "")) then V4
    else if Gte(v, Number(8, 0, 0, "")) then V3
    else if Gte(v, Number(7, 1, 0, "")) then V2
    else V1
  }

  /** A newer version never selects an older schema. */
  lemma VersioningMonotone(v: Number, w: Number)
    requires Gte(w, v)
    ensures SchemaRank(Versioning(w)) >= SchemaRank(Versioning(v))
  {
  }

  /** xpath: the template prefix, then the peers of peer group `pg` in
      virtual router `vr`, then the selector for `vals`. */
  function Xpath(tmpl: string, ts: string, vr: string, pg: string, vals: seq<string>): (r: seq<Segment>)
    ensures |r| == 13
    ensures r[0] == TemplatePrefix(tmpl, ts) && r[12] == EntryXpath(vals)
    ensures r[5] == Lit("virtual-router") && r[6] == EntryXpath([vr])
    ensures r[9] == Lit("peer-group") && r[10] == EntryXpath([pg]) && r[11] == Lit("peer")
  {
    [TemplatePrefix(tmpl, ts)] +
    [ Lit("config"),
      Lit("devices"),
      EntryXpath(["localhost.localdomain"]),
      Lit("network"),
      Lit("virtual-router"),
      EntryXpath([vr]),
      Lit("protocol"),
      Lit("bgp"),
      Lit("peer-group"),
      EntryXpath([pg]),
      Lit("peer"),
      EntryXpath(vals) ]
  }

  /** Two peer xpaths are the same only for the same virtual router, peer
      group and names. */
  lemma XpathLocates(tmpl: string, ts: string, vr: string, pg: string, vals: seq<string>,
                     vr': string, pg': string, vals': seq<string>)
    requires Xpath(tmpl, ts, vr, pg, vals) == Xpath(tmpl, ts, vr', pg', vals')
    ensures vr == vr' && pg == pg' && vals == vals'
  {
  }

  /** The path ShowList and GetList list: the xpath without its final entry
      selector, i.e. the list element every peer path runs through. */
  function ListPath(tmpl: string, ts: string, vr: string, pg: string): (r: seq<Segment>)
    ensures |r| == 12 && r[11] == Lit("peer")
    ensures forall vals :: Xpath(tmpl, ts, vr, pg, vals) == r + [EntryXpath(vals)]
  {
    var path := Xpath(tmpl, ts, vr, pg, []);
    Trim(path, 1)
  }

  /** The argument checks of Set and Edit, first failure wins. */
  function CheckSetArgs(tmpl: string, ts: string, vr: string, pg: string): (err: Option<string>)
    ensures err.None? <==> (tmpl != "" || ts != "") && vr != "" && pg != ""
    ensures tmpl == "" && ts == "" ==> err == Some(NeedTemplate)
    ensures (tmpl != "" || ts != "") && vr == "" ==> err == Some(NeedVr)
    ensures (tmpl != "" || ts != "") && vr != "" && pg == "" ==> err == Some(NeedPg)
  {
    if tmpl == "" && ts == "" then Some(NeedTemplate)
    else if vr == "" then Some(NeedVr)
    else if pg == "" then Some(NeedPg)
    else None
  }

  /** The argument checks of Delete, in Delete's own order. */
  function CheckDeleteArgs(tmpl: string, ts: string, vr: string, pg: string): (err: Option<string>)
    ensures err.None? <==> (tmpl != "" || ts != "") && vr != "" && pg != ""
    ensures vr == "" ==> err == Some(NeedVr)
    ensures vr != "" && pg == "" ==> err == Some(NeedPg)
    ensures vr != "" && pg != "" && tmpl == "" && ts == "" ==> err == Some(NeedTemplate)
  {
    if vr == "" then Some(NeedVr)
    else if pg == "" then Some(NeedPg)
    else if tmpl == "" && ts == "" then Some(NeedTemplate)
    else None
  }

  /** Set/Edit and Delete accept the same locations but, when several
      arguments are missing, report different ones. */
  lemma CheckOrdersDiffer(tmpl: string, ts: string, vr: string, pg: string)
    ensures CheckSetArgs(tmpl, ts, vr, pg).None? <==> CheckDeleteArgs(tmpl, ts, vr, pg).None?
    ensures CheckSetArgs("", "", "", pg) != CheckDeleteArgs("", "", "", pg)
  {
  }

  /** Set: nothing for no entries; otherwise the argument checks, then one
      SET of every entry's record in the version's schema. */
  method Set<A>(ver: Number, tmpl: string, ts: string, vr: string, pg: string, e: seq<Entry<A>>)
    returns (out: Outcome<A>)
    ensures |e| == 0 ==> out == NoRequest
    ensures |e| > 0 && CheckSetArgs(tmpl, ts, vr, pg).Some? ==> out == Fail(CheckSetArgs(tmpl, ts, vr, pg).value)
    ensures |e| > 0 && CheckSetArgs(tmpl, ts, vr, pg).None? ==> out.Send? && out.req.SetReq?
    ensures out.Send? ==> (
      && out.req.SetReq?
      && SetsUnder(out.req.path, out.req.element.tag, ListPath(tmpl, ts, vr, pg), |e|)
      && out.req.element.tag == "peer"
      && |out.req.element.records| == |e|
      && forall i | 0 <= i < |e| :: out.req.element.records[i] == Wire(Versioning(ver), e[i]))
  {
    if |e| == 0 {
      return NoRequest;
    }
    var err := CheckSetArgs(tmpl, ts, vr, pg);
    if err.Some? {
      return Fail(err.value);
    }
    var schema := Versioning(ver);
    var names, data := BuildBulk(schema, e);
    var path := Xpath(tmpl, ts, vr, pg, names);
    path := Trim(path, SetTrim(|e|));
    out := Send(SetReq(path, Bulk("peer", data)));
  }

  /** Edit: the argument checks, then one EDIT of the entry's own path. */
  function Edit<A>(ver: Number, tmpl: string, ts: string, vr: string, pg: string, e: Entry<A>): (out: Outcome<A>)
    ensures CheckSetArgs(tmpl, ts, vr, pg).Some? ==> out == Fail(CheckSetArgs(tmpl, ts, vr, pg).value)
    ensures CheckSetArgs(tmpl, ts, vr, pg).None? ==>
      out == Send(EditReq(ListPath(tmpl, ts, vr, pg) + [EntryXpath([e.Name])], Wire(Versioning(ver), e)))
  {
    var err := CheckSetArgs(tmpl, ts, vr, pg);
    if err.Some? then Fail(err.value)
    else Send(EditReq(Xpath(tmpl, ts, vr, pg, [e.Name]), Wire(Versioning(ver), e)))
  }

  /** Delete: nothing for no arguments; otherwise Delete's argument checks,
      then the names in argument order, or an error for the first argument
      that is neither a string nor an Entry; then one DELETE of them all. */
  method Delete<A>(tmpl: string, ts: string, vr: string, pg: string, e: seq<Arg<A>>) returns (out: Outcome<A>)
    ensures |e| == 0 ==> out == NoRequest
    ensures |e| > 0 && CheckDeleteArgs(tmpl, ts, vr, pg).Some? ==> out == Fail(CheckDeleteArgs(tmpl, ts, vr, pg).value)
    ensures |e| > 0 && CheckDeleteArgs(tmpl, ts, vr, pg).None? && DeleteNames(e, UnknownType).Err? ==> out == Fail(DeleteNames(e, UnknownType).msg)
    ensures |e| > 0 && CheckDeleteArgs(tmpl, ts, vr, pg).None? && DeleteNames(e, UnknownType).Ok? ==>
      out == Send(DeleteReq(ListPath(tmpl, ts, vr, pg) + [EntryXpath(DeleteNames(e, UnknownType).value)]))
  {
    if |e| == 0 {
      return NoRequest;
    }
    var err := CheckDeleteArgs(tmpl, ts, vr, pg);
    if err.Some? {
      return Fail(err.value);
    }
    var names := ExtractNames(e, UnknownType);
    if names.Err? {
      return Fail(names.msg);
    }
    var path := Xpath(tmpl, ts, vr, pg, names.value);
    out := Send(DeleteReq(path));
  }

  /** details (Get and Show): the entry's own path, read with the container
      of the same schema Set and Edit specify with. */
  function Details<A>(fetch: (seq<Segment>, Schema) -> Result<Entry<A>>, zero: A, ver: Number,
                      tmpl: string, ts: string, vr: string, pg: string, name: string): (r: Answer<A>)
    ensures var reply := fetch(ListPath(tmpl, ts, vr, pg) + [EntryXpath([name])], Versioning(ver));
      && (reply.Err? ==> r == Answer(Entry("", zero), Some(reply.msg)))
      && (reply.Ok? ==> r == Answer(reply.value, None))
  {
    Retrieve(fetch, zero, Xpath(tmpl, ts, vr, pg, [name]), Versioning(ver))
  }
}
