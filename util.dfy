/**
 * The helpers of pango's `util` package that the namespaces call.
 *
 * Xpaths are kept symbolic: a path is a sequence of `Segment`s, and the
 * rendering of a segment to text (`entry[@name='x']`, the prefix splices)
 * is not modelled. The boolean and member-list converters are given
 * concrete definitions so that their round trips can be proved.
 */
module Util {

  datatype Option<T> = None | Some(value: T)

  /** Outcome of an operation that can fail with a Go `error` (a message). */
  datatype Result<T> = Ok(value: T) | Err(msg: string)

  /** One element of an xpath. */
  datatype Segment =
    | Lit(name: string)                        // a fixed element name such as "config"
    | EntryXpath(vals: seq<string>)            // util.AsEntryXpath(vals): an `entry` selector by name
    | TemplatePrefix(tmpl: string, ts: string) // the segments util.TemplateXpathPrefix(tmpl, ts) splices in
    | DeviceGroupPrefix(dg: string)            // the segments util.DeviceGroupXpathPrefix(dg) splices in

  /** util.YesNo: a bool as the API's "yes"/"no" text. */
  function YesNo(b: bool): (s: string)
    ensures s == "yes" || s == "no"
    ensures AsBool(s) == b
  {
    if b then "yes" else "no"
  }

  /** util.AsBool: only "yes" reads as true. */
  function AsBool(s: string): (b: bool)
    ensures b <==> s == "yes"
    ensures s == "no" || s == "" ==> !b
  {
    s == "yes"
  }

  datatype Member = Member(Value: string)

  /** util.MemberType: a list of `<member>` elements. */
  datatype MemberType = MemberType(Members: seq<Member>)

  function ToMembers(l: seq<string>): (m: seq<Member>)
    ensures |m| == |l|
  {
    if |l| == 0 then [] else [Member(l[0])] + ToMembers(l[1..])
  }

  function FromMembers(m: seq<Member>): (l: seq<string>)
    ensures |l| == |m|
  {
    if |m| == 0 then [] else [m[0].Value] + FromMembers(m[1..])
  }

  /** util.StrToMem: an empty list is sent as no element at all (a nil pointer). */
  function StrToMem(l: seq<string>): (m: Option<MemberType>)
    ensures m.None? <==> |l| == 0
    ensures m.Some? ==> |m.value.Members| == |l|
  {
    if |l| == 0 then None else Some(MemberType(ToMembers(l)))
  }

  /** util.MemToStr: a missing element reads back as the empty list. */
  function MemToStr(m: Option<MemberType>): (l: seq<string>)
    ensures m.None? ==> l == []
    ensures m.Some? ==> |l| == |m.value.Members|
  {
    match m
    case None => []
    case Some(mt) => FromMembers(mt.Members)
  }

  lemma {:induction false} MembersRoundTrip(l: seq<string>)
    ensures FromMembers(ToMembers(l)) == l
  {
    if |l| > 0 {
      MembersRoundTrip(l[1..]);
    }
  }

  lemma {:induction false} MembersRoundTripBack(m: seq<Member>)
    ensures ToMembers(FromMembers(m)) == m
  {
    if |m| > 0 {
      MembersRoundTripBack(m[1..]);
    }
  }

  /** A member list survives being sent and read back. */
  lemma MemRoundTrip(l: seq<string>)
    ensures MemToStr(StrToMem(l)) == l
  {
    MembersRoundTrip(l);
  }

  /** Reading a member element and sending it again gives the same element,
      unless it was present but empty (which is sent as no element). */
  lemma MemRoundTripBack(m: Option<MemberType>)
    ensures StrToMem(MemToStr(m)) == m <==> (m.None? || |m.value.Members| > 0)
  {
    if m.Some? {
      MembersRoundTripBack(m.value.Members);
    }
  }

  /** The bool converters are inverse to each other on "yes"/"no". */
  lemma BoolRoundTripBack(s: string)
    ensures YesNo(AsBool(s)) == s <==> (s == "yes" || s == "no")
  {
  }
}
