/**
 * What every CRUD namespace of the client shares: the entity as far as the
 * namespace logic looks at it, the request a Set/Edit/Delete would send,
 * and the two loops each namespace repeats (collecting names and wire
 * records for Set, extracting names from the arguments of Delete).
 */
module Namespace {
  import opened Util

  /** A namespace's `Entry`: its name, which locates it in the config tree,
      and the rest of its fields, which the namespace logic only passes on. */
  datatype Entry<A> = Entry(Name: string, Attrs: A)

  /** Which wire schema variant (`entry_vN`, `container_vN`) is in use. */
  datatype Schema = V1 | V2 | V3 | V4

  /** specify_vN(entry): the wire record of the entry under schema N. */
  datatype Wire<A> = Wire(schema: Schema, entry: Entry<A>)

  /** util.BulkElement: a wrapper element named `tag` around several records. */
  datatype Bulk<A> = Bulk(tag: string, records: seq<Wire<A>>)

  /** The call that would be made on the transport. */
  datatype Request<A> =
    | SetReq(path: seq<Segment>, element: Bulk<A>)
    | EditReq(path: seq<Segment>, record: Wire<A>)
    | DeleteReq(path: seq<Segment>)

  /** Result of Set/Edit/Delete: nothing to do, a request, or an argument error. */
  datatype Outcome<A> = NoRequest | Send(req: Request<A>) | Fail(msg: string)

  /** Result of Get/Show (details): Go's (Entry, error) pair. */
  datatype Answer<A> = Answer(entry: Entry<A>, err: Option<string>)

  /** An argument of Delete, which takes `...interface{}`. */
  datatype Arg<A> =
    | NameArg(name: string)     // a string
    | EntryArg(entry: Entry<A>) // an Entry
    | OtherArg(shown: string)   // any other value, as `%s` formats it

  function ArgName<A>(a: Arg<A>): string
    requires !a.OtherArg?
  {
    if a.NameArg? then a.name else a.entry.Name
  }

  /** The names Delete acts on, or the error for the first argument of an
      unsupported type (reference definition for ExtractNames). */
  function DeleteNames<A>(args: seq<Arg<A>>, unsupported: string): (r: Result<seq<string>>)
    ensures r.Ok? <==> forall i | 0 <= i < |args| :: !args[i].OtherArg?
    ensures r.Ok? ==> |r.value| == |args|
    ensures r.Ok? ==> forall i | 0 <= i < |args| :: r.value[i] == ArgName(args[i])
    ensures r.Err? ==> exists k | 0 <= k < |args| ::
      && args[k].OtherArg?
      && (forall j | 0 <= j < k :: !args[j].OtherArg?)
      && r.msg == unsupported + args[k].shown
  {
    if |args| == 0 then Ok([])
    else if args[0].OtherArg? then Err(unsupported + args[0].shown)
    else
      match DeleteNames(args[1..], unsupported)
      case Ok(rest) => Ok([ArgName(args[0])] + rest)
      case Err(m) => Err(m)
  }

  /** The type-switch loop of Delete: fills `names` in argument order and
      stops at the first argument that is neither a string nor an Entry. */
  method ExtractNames<A>(args: seq<Arg<A>>, unsupported: string) returns (r: Result<seq<string>>)
    ensures r == DeleteNames(args, unsupported)
  {
    var names := new string[|args|];
    var i := 0;
    while i < |args|
      invariant 0 <= i <= |args|
      invariant forall j | 0 <= j < i :: !args[j].OtherArg? && names[j] == ArgName(args[j])
    {
      match args[i] {
        case NameArg(v) =>
          names[i] := v;
        case EntryArg(v) =>
          names[i] := v.Name;
        case OtherArg(v) =>
          ghost var d := DeleteNames(args, unsupported);
          assert d.Err? ==> d.msg == unsupported + v;
          return Err(unsupported + v);
      }
      i := i + 1;
    }
    ghost var d := DeleteNames(args, unsupported);
    assert d.value == names[..];
    r := Ok(names[..]);
  }

  /** The loop of Set: one name and one wire record per entry, in order. */
  method BuildBulk<A>(schema: Schema, e: seq<Entry<A>>) returns (names: seq<string>, data: seq<Wire<A>>)
    ensures |names| == |e| && |data| == |e|
    ensures forall i | 0 <= i < |e| :: names[i] == e[i].Name
    ensures forall i | 0 <= i < |e| :: data[i] == Wire(schema, e[i])
  {
    var arr := new string[|e|];
    data := [];
    var i := 0;
    while i < |e|
      invariant 0 <= i <= |e|
      invariant |data| == i
      invariant forall j | 0 <= j < i :: arr[j] == e[j].Name
      invariant forall j | 0 <= j < i :: data[j] == Wire(schema, e[j])
    {
      data := data + [Wire(schema, e[i])];
      arr[i] := e[i].Name;
      i := i + 1;
    }
    names := arr[..];
  }

  /** How many trailing segments Set drops from the entity xpath: the entry
      selector for one entry, the selector and the list element for several
      (the bulk wrapper element then stands in for the list element). */
  function SetTrim(count: nat): (n: nat)
    ensures 1 <= n <= 2
    ensures n == 1 <==> count == 1
  {
    if count == 1 then 1 else 2
  }

  /** Go's `path[:len(path) - n]`. */
  function Trim(path: seq<Segment>, n: nat): (r: seq<Segment>)
    requires n <= |path|
    ensures |r| == |path| - n
    ensures r + path[|path| - n..] == path
  {
    path[..|path| - n]
  }

  /** Where Set writes, given the xpath of the entity list (`list`, which
      ends in the list element): a single entry goes under the list element
      itself; several go under the list's parent, wrapped in an element
      named `tag` that takes the list element's place. */
  predicate SetsUnder(path: seq<Segment>, tag: string, list: seq<Segment>, count: nat): (b: bool)
    ensures b ==> |list| == |path| + SetTrim(count) - 1
    ensures b && count != 1 ==> list[..|path|] == path && list[|path|] == Lit(tag)
  {
    if count == 1 then path == list else path + [Lit(tag)] == list
  }

  /** details: the retriever fills the container of `schema` from `path`; on
      an error the caller gets Go's zero Entry along with the error, otherwise
      the normalised answer. */
  function Retrieve<A>(fetch: (seq<Segment>, Schema) -> Result<Entry<A>>, zero: A, path: seq<Segment>, schema: Schema): (r: Answer<A>)
    ensures r.err.Some? <==> fetch(path, schema).Err?
    ensures r.err.Some? ==> r.entry == Entry("", zero) && r.err.value == fetch(path, schema).msg
    ensures r.err.None? ==> r.entry == fetch(path, schema).value
  {
    match fetch(path, schema)
    case Err(m) => Answer(Entry("", zero), Some(m))
    case Ok(v) => Answer(v, None)
  }
}
