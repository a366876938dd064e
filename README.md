# pango namespace logic in Dafny

pango is a Go client for the XML management API of PAN-OS firewalls and
Panorama. Each configuration entity has a namespace with ShowList/GetList,
Show/Get, Set, Edit and Delete. Each namespace computes an xpath that locates
its entity in the configuration tree. It also converts between the
version-independent `Entry` and the version-specific wire records.

This project models the deterministic part of five such files. The transport
is replaced by the request that would be sent:

- `redist.dfy` (`Redist`): the BGP redistribution rule. It holds `Entry`, `Copy`,
  the wire records `entry_v1`/`entry_v2`, `specify_v1`/`specify_v2` and
  `container_v1/v2.Normalize`. The v2 round trip is exact. The v1 round trip
  loses exactly `AddressFamily` and `RouteTable`. Normalising a canonical v2
  record and specifying it again gives the record back.
- `peer.dfy` (`Peer`): Panorama BGP peers. It holds version dispatch over four
  schema variants, the template-prefixed xpath, and the argument checks of
  Set/Edit and of Delete, which run in different orders.
- `matchlist.dfy` (`MatchList`): log-forwarding profile match lists. The device
  group defaults to "shared", and `logfwd` is required. Set names its bulk
  element from the xpath itself.
- `tags.dfy` (`Tags`): administrative tags. The xpath has a shared branch and a
  device-group branch.
- `bfd.dfy` (`Bfd`): firewall BFD profiles, at a fixed xpath.
- `namespace.dfy` (`Namespace`): what the namespaces share. This is the request
  and outcome values, the two loops every namespace repeats (collecting names
  and wire records in Set, the type switch in Delete), and the zero-Entry-on-error
  rule of `details`.
- `util.dfy` (`Util`), `version.dfy` (`Version`): the util and version helpers
  the core calls.

Xpaths are sequences of symbolic segments. A `Lit` is a fixed element name.
`EntryXpath(vals)` is what `util.AsEntryXpath(vals)` renders. The splices of
`util.TemplateXpathPrefix` and `util.DeviceGroupXpathPrefix` are one token each.
The Go slice trims `path[:len(path)-n]` only ever drop trailing segments, so the
real length of a prefix never matters.

In every namespace, Set trims the xpath by one segment for a single entry and
by two for several. `Namespace.SetsUnder` states the result. One entry is
written under the list element itself, which is the path ShowList/GetList use.
Several entries are written one level higher, inside a bulk element whose name
is the dropped list element.

The constant `versioning()` helpers of the match-list, tag and BFD namespaces
and `Namespace.SetTrim` have no rows of their own: the Set, Edit and Details
rows state the v1 schema and the one-or-two-segment trim they produce.
`Util.AsBool` and `Version.Gte` are the assumed definitions named under
"## Left out".

## Model

| member | source | states |
|---|---|---|
| Redist.EntryVar.Copy | netw/routing/protocol/bgp/redist/entry.go:26-39 | after Copy(s), every field equals s's except Name, which keeps its old value |
| Redist.CopyInto | netw/routing/protocol/bgp/redist/entry.go:26-39 | the copied value keeps the receiver's Name and agrees with the source everywhere else |
| Redist.NormalizeV1 | netw/routing/protocol/bgp/redist/entry.go:51-65 | a v1 answer never sets AddressFamily or RouteTable: both come back empty |
| Redist.NormalizeV2 | netw/routing/protocol/bgp/redist/entry.go:71-87 | a v2 answer keeps its Name, Metric, AddressFamily and RouteTable; Enable is true exactly when the wire text is "yes"; the community list is empty exactly when the element is absent or has no members |
| Redist.SpecifyV1 | netw/routing/protocol/bgp/redist/entry.go:102-116 | Enable goes on the wire as "yes" or "no" |
| Redist.SpecifyV2 | netw/routing/protocol/bgp/redist/entry.go:133-149 | Enable goes on the wire as "yes" or "no" |
| Redist.SpecifyCopiesVerbatim | netw/routing/protocol/bgp/redist/entry.go:102-149 | both specifiers copy Name, Metric, SetOrigin, SetMed, SetLocalPreference and SetAsPathLimit verbatim; Enable is the same text in both and reads back as the entry's bool |
| Redist.RoundTripV2 | netw/routing/protocol/bgp/redist/entry.go:71-149 | normalising the v2 record of e gives e back |
| Redist.RoundTripV1 | netw/routing/protocol/bgp/redist/entry.go:51-116 | normalising the v1 record of e gives e with AddressFamily and RouteTable set to "" and every other field kept |
| Redist.RoundTripV1Exact | netw/routing/protocol/bgp/redist/entry.go:89-116 | the v1 round trip is exact if and only if e uses neither v2-only field |
| Redist.NormalizeThenSpecifyV2 | netw/routing/protocol/bgp/redist/entry.go:71-87 | specifying a normalised v2 answer reproduces the answer if and only if it is canonical (Enable "yes"/"no", no member list present but empty) |
| Util.YesNo | netw/routing/protocol/bgp/redist/entry.go:105 | the text is "yes" or "no" and AsBool reads it back as the same bool |
| Util.StrToMem | netw/routing/protocol/bgp/redist/entry.go:111-112 | an empty list is sent as no element, otherwise one member per string |
| Util.MemToStr | netw/routing/protocol/bgp/redist/entry.go:60-61 | a missing element reads as the empty list, otherwise one string per member |
| Util.MembersRoundTrip | netw/routing/protocol/bgp/redist/entry.go:111-112 | converting strings to members and back gives the same strings |
| Util.MembersRoundTripBack | netw/routing/protocol/bgp/redist/entry.go:60-61 | converting members to strings and back gives the same members |
| Util.MemRoundTrip | netw/routing/protocol/bgp/redist/entry.go:82-83 | MemToStr(StrToMem(l)) == l for every list |
| Util.MemRoundTripBack | netw/routing/protocol/bgp/redist/entry.go:144-145 | StrToMem(MemToStr(m)) == m exactly when m is absent or non-empty |
| Util.BoolRoundTripBack | netw/routing/protocol/bgp/redist/entry.go:74 | YesNo(AsBool(s)) == s exactly when s is "yes" or "no" |
| Version.GteTotal | netw/routing/protocol/bgp/peer/pano.go:150-154 | every two versions are ordered one way or the other |
| Version.GteTransitive | netw/routing/protocol/bgp/peer/pano.go:150-154 | the version order is transitive |
| Peer.Versioning | netw/routing/protocol/bgp/peer/pano.go:147-159 | V4 iff the version is at least 8.1.0; V3 iff in [8.0.0, 8.1.0); V2 iff in [7.1.0, 8.0.0); V1 otherwise |
| Peer.VersioningMonotone | netw/routing/protocol/bgp/peer/pano.go:147-159 | a newer version never selects an older schema variant |
| Peer.Xpath | netw/routing/protocol/bgp/peer/pano.go:172-191 | the template prefix followed by 12 segments: "virtual-router" then entry(vr) at 5-6, "peer-group" then entry(pg) at 9-10, "peer" at 11, and the selector for vals last |
| Peer.XpathLocates | netw/routing/protocol/bgp/peer/pano.go:172-191 | equal peer xpaths (same template) have the same virtual router, peer group and names |
| Peer.ListPath | netw/routing/protocol/bgp/peer/pano.go:22-34 | the list path ends in "peer", and every peer xpath is the list path plus its entry selector |
| Peer.CheckSetArgs | netw/routing/protocol/bgp/peer/pano.go:54-60 | no error iff (tmpl or ts) and vr and pg are given; otherwise the first missing one in the order tmpl/ts, vr, pg |
| Peer.CheckDeleteArgs | netw/routing/protocol/bgp/peer/pano.go:116-124 | no error under the same condition; otherwise the first missing one in the order vr, pg, tmpl/ts |
| Peer.CheckOrdersDiffer | netw/routing/protocol/bgp/peer/pano.go:49-124 | Set/Edit and Delete accept the same arguments, but report different errors when everything is missing |
| Peer.Set | netw/routing/protocol/bgp/peer/pano.go:49-84 | no request for no entries; otherwise the checks' first error, or one SET under the list path (one entry) or its parent in a "peer" element (several), carrying every entry's record in the version's schema, in order |
| Peer.Edit | netw/routing/protocol/bgp/peer/pano.go:87-108 | the checks' first error, or one EDIT of the entry's own path with its record in the version's schema |
| Peer.Delete | netw/routing/protocol/bgp/peer/pano.go:113-143 | no request for no arguments; otherwise Delete's first error, the error for the first argument of unsupported type, or one DELETE of all names in argument order |
| Peer.Details | netw/routing/protocol/bgp/peer/pano.go:161-170 | reads the entry's own path with the same schema variant Set and Edit specify with; the zero Entry comes back with a retrieval error, otherwise the normalised answer |
| Namespace.DeleteNames | objs/tags/pano.go:104-114 | succeeds iff every argument is a string or an Entry; then one name per argument in order; otherwise the error names the first unsupported argument |
| Namespace.ExtractNames | netw/routing/protocol/bgp/peer/pano.go:126-136 | the typed loop computes exactly DeleteNames |
| Namespace.BuildBulk | netw/profile/bfd/fw.go:56-63 | one name and one wire record per entry, same length and order: names[i] == e[i].Name |
| Namespace.Trim | netw/profile/bfd/fw.go:21-24 | dropping n trailing segments leaves a prefix n shorter which, followed by the dropped segments, is the original path |
| Namespace.SetsUnder | netw/profile/bfd/fw.go:67-72 | Set writes to a path one segment shorter than the list path for several entries, followed there by the bulk element's tag, and to the list path itself for one |
| Namespace.Retrieve | netw/profile/bfd/fw.go:129-139 | on a retrieval error the zero Entry comes back with that error; otherwise the normalised answer with no error |
| MatchList.Xpath | objs/profile/logfwd/matchlist/pano.go:150-166 | the device-group prefix (empty means "shared"), then "log-settings", "profiles", entry(logfwd), "match-list", entry(vals) |
| MatchList.XpathDefaultsToShared | objs/profile/logfwd/matchlist/pano.go:151-153 | an empty device group gives the same xpath as "shared" |
| MatchList.ListPath | objs/profile/logfwd/matchlist/pano.go:21-33 | the list path ends in "match-list", and every match-list xpath is the list path plus its entry selector |
| MatchList.Set | objs/profile/logfwd/matchlist/pano.go:48-80 | no request for no entries; an error without logfwd; otherwise one SET whose bulk element is named "match-list" (taken from the xpath), trimmed by one or two segments, with v1 records in order |
| MatchList.Edit | objs/profile/logfwd/matchlist/pano.go:83-100 | an error without logfwd, otherwise one EDIT of the entry's path with its v1 record |
| MatchList.Delete | objs/profile/logfwd/matchlist/pano.go:105-131 | no request for no arguments; an error without logfwd; the error for the first unsupported argument; or one DELETE of all names in order |
| MatchList.Details | objs/profile/logfwd/matchlist/pano.go:139-148 | reads the entry's own path into the v1 container; the zero Entry comes back with a retrieval error |
| Tags.Xpath | objs/tags/pano.go:140-163 | four segments exactly for the shared branch ("" or "shared"), seven otherwise; always ends in "tag" and the selector for vals |
| Tags.XpathShared | objs/tags/pano.go:141-152 | for "" and "shared" the xpath is exactly config/shared/tag/entry(vals) |
| Tags.XpathLocates | objs/tags/pano.go:140-163 | two tag xpaths are equal iff their defaulted device groups and names are equal |
| Tags.ListPath | objs/tags/pano.go:20-32 | the list path ends in "tag", and every tag xpath is the list path plus its entry selector |
| Tags.Set | objs/tags/pano.go:47-76 | no request exactly for no entries, never an error; otherwise one SET trimmed by one or two segments, with v1 records in order |
| Tags.Edit | objs/tags/pano.go:79-92 | always one EDIT of the tag's own path with its v1 record |
| Tags.Delete | objs/tags/pano.go:97-120 | no request for no arguments; the error for the first unsupported argument; or one DELETE of all names in order |
| Tags.Details | objs/tags/pano.go:128-138 | reads the tag's own path into the v1 container; the zero Entry comes back with a retrieval error |
| Bfd.Xpath | netw/profile/bfd/fw.go:141-151 | exactly seven segments: the fixed prefix ending in "bfd-profile", then the selector for vals |
| Bfd.ListPath | netw/profile/bfd/fw.go:21-33 | the list path ends in "bfd-profile", and every profile xpath is the list path plus its entry selector |
| Bfd.Set | netw/profile/bfd/fw.go:48-77 | no request exactly for no entries, never an error; otherwise one SET trimmed by one or two segments, with one v1 record per entry in order |
| Bfd.Edit | netw/profile/bfd/fw.go:80-93 | always one EDIT of the profile's own path with its v1 record |
| Bfd.Delete | netw/profile/bfd/fw.go:98-121 | no request for no arguments; the error for the first unsupported argument; or one DELETE of all names in order |
| Bfd.Details | netw/profile/bfd/fw.go:129-139 | reads the profile's own path into the v1 container; the zero Entry comes back with a retrieval error |

## Left out

- Transport: the `XapiClient` calls, `EntryListUsing`, `LogQuery` and `LogAction` are I/O and logging. Set, Edit and Delete return the request they would send. An error the transport itself returns is not modelled. Get and Show differ only in which retriever they pass to `details`. That retriever, together with the container's `Normalize`, is the `fetch` parameter of `Details`.
- `Initialize` only stores the client and is not modelled.
- XML marshalling through `encoding/xml` struct tags and `util.BulkElement.Config()` is not modelled. Wire records are datatypes and the bulk element is a value: its name and its records.
- `util.AsEntryXpath`, `util.TemplateXpathPrefix` and `util.DeviceGroupXpathPrefix` are not part of this model. The first is the segment `EntryXpath(vals)`, and the other two are one opaque segment each. Their own rendering and defaulting are not modelled.
- `util.YesNo`, `util.AsBool`, `util.StrToMem` and `util.MemToStr` are not part of this model either. They are given stand-in definitions: "yes"/"no"; only "yes" is true; an empty list is sent as no element. The round trips that `redist` relies on are proved for these definitions only.
- Go's nil slice and empty slice are the same value here, `[]`.
- Redist.EntryVar.Copy: the two community lists are values here. Go's slice assignment at netw/routing/protocol/bgp/redist/entry.go:37-38 makes the receiver share the source's backing array, so an in-place change of an element made through one is seen through the other; this model does not capture that sharing.
- `version.Number.Gte` is not part of this model. It is taken to compare major, minor and patch lexicographically and to ignore the suffix.
- The Entry types and the `container_vN`/`specify_vN` of the peer, match-list, tag and BFD packages are not part of this model. An entry is its `Name` plus opaque other fields (`Namespace.Entry<A>`). `specify_vN(e)` is the symbolic record `Wire(VN, e)`, so Get/Set round trips for these namespaces are out of reach.
- The redistribution namespace files, including its own version dispatch between v1 and v2, are not part of this model; only `entry.go` is.
- Go `int` fields (`Metric`, `SetAsPathLimit`) are unbounded integers. The code only copies them and does no arithmetic on them.
- Peer.XpathLocates: says nothing about `tmpl` and `ts`, because the template prefix is a single opaque segment.
- Peer.XpathLocates: relies on `EntryXpath` being a free constructor, i.e. it assumes `util.AsEntryXpath` renders different name lists differently; the real helper need not (for example `[]` and `[""]`).
- Tags.XpathLocates: relies on the same assumption that `util.AsEntryXpath` renders different name lists differently.
