/**
 * The BGP redistribution rule (netw/routing/protocol/bgp/redist/entry.go):
 * the version independent `Entry`, its two wire records `entry_v1` and
 * `entry_v2`, the specifiers that build them and the normalisers that read
 * them back. `entry_v1` has no slot for the address family and the route
 * table, so the v1 round trip loses exactly those two fields.
 */
module Redist {
  import opened Util

  /** Entry: the normalized, version independent representation. */
  datatype Entry = Entry(
    Name: string,
    Enable: bool,
    AddressFamily: string,
    RouteTable: string, // 8.0+
    Metric: int,
    SetOrigin: string,
    SetMed: string,
    SetLocalPreference: string,
    SetAsPathLimit: int,
    SetCommunity: seq<string>,
    SetExtendedCommunity: seq<string>)

  /** entry_v1: the wire record before 8.0 and without an address family. */
  datatype EntryV1 = EntryV1(
    Name: string,
    Enable: string,
    Metric: int,
    SetOrigin: string,
    SetMed: string,
    SetLocalPreference: string,
    SetAsPathLimit: int,
    SetCommunity: Option<MemberType>,
    SetExtendedCommunity: Option<MemberType>)

  /** entry_v2: adds the address family identifier and the route table. */
  datatype EntryV2 = EntryV2(
    Name: string,
    Enable: string,
    AddressFamily: string,
    RouteTable: string,
    Metric: int,
    SetOrigin: string,
    SetMed: string,
    SetLocalPreference: string,
    SetAsPathLimit: int,
    SetCommunity: Option<MemberType>,
    SetExtendedCommunity: Option<MemberType>)

  /** container_v1 / container_v2: what a retrieval unmarshals into. */
  datatype ContainerV1 = ContainerV1(Answer: EntryV1)
  datatype ContainerV2 = ContainerV2(Answer: EntryV2)

  /** The fields Copy leaves alone: everything but Name is taken from `s`. */
  function CopyInto(o: Entry, s: Entry): (r: Entry)
    ensures r.Name == o.Name
    ensures r.(Name := s.Name) == s
  {
    s.(Name := o.Name)
  }

  /** A Go variable of type Entry, which Copy updates field by field. */
  class EntryVar {
    var Name: string
    var Enable: bool
    var AddressFamily: string
    var RouteTable: string
    var Metric: int
    var SetOrigin: string
    var SetMed: string
    var SetLocalPreference: string
    var SetAsPathLimit: int
    var SetCommunity: seq<string>
    var SetExtendedCommunity: seq<string>

    function Value(): Entry
      reads this
    {
      Entry(Name, Enable, AddressFamily, RouteTable, Metric, SetOrigin, SetMed,
            SetLocalPreference, SetAsPathLimit, SetCommunity, SetExtendedCommunity)
    }

    constructor (e: Entry)
      ensures Value() == e
    {
      Name, Enable, AddressFamily, RouteTable := e.Name, e.Enable, e.AddressFamily, e.RouteTable;
      Metric, SetOrigin, SetMed := e.Metric, e.SetOrigin, e.SetMed;
      SetLocalPreference, SetAsPathLimit := e.SetLocalPreference, e.SetAsPathLimit;
      SetCommunity, SetExtendedCommunity := e.SetCommunity, e.SetExtendedCommunity;
    }

    /** Copy: every field but Name, which relates to the xpath, becomes `s`'s. */
    method Copy(s: Entry)
      modifies this
      ensures Value() == CopyInto(old(Value()), s)
      ensures Name == old(Name)
    {
      Enable := s.Enable;
      AddressFamily := s.AddressFamily;
      RouteTable := s.RouteTable;
      Metric := s.Metric;
      SetOrigin := s.SetOrigin;
      SetMed := s.SetMed;
      SetLocalPreference := s.SetLocalPreference;
      SetAsPathLimit := s.SetAsPathLimit;
      SetCommunity := s.SetCommunity;
      SetExtendedCommunity := s.SetExtendedCommunity;
    }
  }

  function NormalizeV1(c: ContainerV1): (e: Entry)
    ensures e.AddressFamily == "" && e.RouteTable == ""
  {
    Entry(
      Name := c.Answer.Name,
      Enable := AsBool(c.Answer.Enable),
      AddressFamily := "",
      RouteTable := "",
      Metric := c.Answer.Metric,
      SetOrigin := c.Answer.SetOrigin,
      SetMed := c.Answer.SetMed,
      SetLocalPreference := c.Answer.SetLocalPreference,
      SetAsPathLimit := c.Answer.SetAsPathLimit,
      SetCommunity := MemToStr(c.Answer.SetCommunity),
      SetExtendedCommunity := MemToStr(c.Answer.SetExtendedCommunity))
  }

  function NormalizeV2(c: ContainerV2): (e: Entry)
    ensures e.Name == c.Answer.Name && e.Metric == c.Answer.Metric
    ensures e.AddressFamily == c.Answer.AddressFamily && e.RouteTable == c.Answer.RouteTable
    ensures e.Enable <==> c.Answer.Enable == "yes"
    ensures |e.SetCommunity| == 0 <==> c.Answer.SetCommunity.None? || |c.Answer.SetCommunity.value.Members| == 0
  {
    Entry(
      Name := c.Answer.Name,
      Enable := AsBool(c.Answer.Enable),
      AddressFamily := c.Answer.AddressFamily,
      RouteTable := c.Answer.RouteTable,
      Metric := c.Answer.Metric,
      SetOrigin := c.Answer.SetOrigin,
      SetMed := c.Answer.SetMed,
      SetLocalPreference := c.Answer.SetLocalPreference,
      SetAsPathLimit := c.Answer.SetAsPathLimit,
      SetCommunity := MemToStr(c.Answer.SetCommunity),
      SetExtendedCommunity := MemToStr(c.Answer.SetExtendedCommunity))
  }

  function SpecifyV1(e: Entry): (r: EntryV1)
    ensures r.Enable == "yes" || r.Enable == "no"
  {
    EntryV1(
      Name := e.Name,
      Enable := YesNo(e.Enable),
      Metric := e.Metric,
      SetOrigin := e.SetOrigin,
      SetMed := e.SetMed,
      SetLocalPreference := e.SetLocalPreference,
      SetAsPathLimit := e.SetAsPathLimit,
      SetCommunity := StrToMem(e.SetCommunity),
      SetExtendedCommunity := StrToMem(e.SetExtendedCommunity))
  }

  function SpecifyV2(e: Entry): (r: EntryV2)
    ensures r.Enable == "yes" || r.Enable == "no"
  {
    EntryV2(
      Name := e.Name,
      Enable := YesNo(e.Enable),
      AddressFamily := e.AddressFamily,
      RouteTable := e.RouteTable,
      Metric := e.Metric,
      SetOrigin := e.SetOrigin,
      SetMed := e.SetMed,
      SetLocalPreference := e.SetLocalPreference,
      SetAsPathLimit := e.SetAsPathLimit,
      SetCommunity := StrToMem(e.SetCommunity),
      SetExtendedCommunity := StrToMem(e.SetExtendedCommunity))
  }

  /** The fields every schema carries verbatim, and Enable as "yes"/"no". */
  lemma SpecifyCopiesVerbatim(e: Entry)
    ensures var w1, w2 := SpecifyV1(e), SpecifyV2(e);
      && w1.Name == w2.Name == e.Name
      && w1.Metric == w2.Metric == e.Metric
      && w1.SetOrigin == w2.SetOrigin == e.SetOrigin
      && w1.SetMed == w2.SetMed == e.SetMed
      && w1.SetLocalPreference == w2.SetLocalPreference == e.SetLocalPreference
      && w1.SetAsPathLimit == w2.SetAsPathLimit == e.SetAsPathLimit
      && w1.Enable == w2.Enable
      && AsBool(w1.Enable) == e.Enable
  {
  }

  /** v2 round trip: normalising what specify_v2 sends gives the entry back. */
  lemma RoundTripV2(e: Entry)
    ensures NormalizeV2(ContainerV2(SpecifyV2(e))) == e
  {
    MemRoundTrip(e.SetCommunity);
    MemRoundTrip(e.SetExtendedCommunity);
  }

  /** v1 round trip: the entry comes back with AddressFamily and RouteTable
      cleared, and every other field intact. */
  lemma RoundTripV1(e: Entry)
    ensures NormalizeV1(ContainerV1(SpecifyV1(e))) == e.(AddressFamily := "", RouteTable := "")
  {
    MemRoundTrip(e.SetCommunity);
    MemRoundTrip(e.SetExtendedCommunity);
  }

  /** The v1 round trip is exact precisely for entries that use neither
      v2-only field. */
  lemma RoundTripV1Exact(e: Entry)
    ensures NormalizeV1(ContainerV1(SpecifyV1(e))) == e <==> e.AddressFamily == "" && e.RouteTable == ""
  {
    RoundTripV1(e);
  }

  /** A v2 wire record is canonical when it is what some specify_v2 call
      produces: Enable is "yes"/"no" and no member list is present but empty. */
  predicate CanonicalV2(w: EntryV2)
  {
    && (w.Enable == "yes" || w.Enable == "no")
    && (w.SetCommunity.Some? ==> |w.SetCommunity.value.Members| > 0)
    && (w.SetExtendedCommunity.Some? ==> |w.SetExtendedCommunity.value.Members| > 0)
  }

  /** The other direction: normalising a canonical v2 record and specifying
      the result reproduces the record, and only canonical records do. */
  lemma NormalizeThenSpecifyV2(c: ContainerV2)
    ensures SpecifyV2(NormalizeV2(c)) == c.Answer <==> CanonicalV2(c.Answer)
  {
    MemRoundTripBack(c.Answer.SetCommunity);
    MemRoundTripBack(c.Answer.SetExtendedCommunity);
    BoolRoundTripBack(c.Answer.Enable);
  }
}
