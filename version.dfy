/**
 * pango's `version.Number`: the PAN-OS version a client negotiated.
 * `Gte` compares (major, minor, patch) lexicographically; the suffix
 * takes no part in the comparison.
 */
module Version {

  datatype Number = Number(Major: int, Minor: int, Patch: int, Suffix: string)

  /** v.Gte(o): v is at least o. */
  predicate Gte(v: Number, o: Number): (b: bool)
    ensures v.Major != o.Major ==> (b <==> v.Major > o.Major)
    ensures v.Major == o.Major && v.Minor != o.Minor ==> (b <==> v.Minor > o.Minor)
    ensures v.Major == o.Major && v.Minor == o.Minor ==> (b <==> v.Patch >= o.Patch)
  {
    if v.Major != o.Major then v.Major > o.Major
    else if v.Minor != o.Minor then v.Minor > o.Minor
    else v.Patch >= o.Patch
  }

  /** Gte is a total preorder: every two versions are comparable ... */
  lemma GteTotal(v: Number, o: Number)
    ensures Gte(v, o) || Gte(o, v)
  {
  }

  /** ... and comparisons chain. */
  lemma GteTransitive(u: Number, v: Number, w: Number)
    requires Gte(u, v) && Gte(v, w)
    ensures Gte(u, w)
  {
  }
}
