/** The HTTP verbs a request can carry, with their raw string values. */
module RequestTypes {
  import opened Wrappers

  datatype RequestType = Get | Post | Put | Patch | Delete

  /** Every case, in declaration order. */
  const AllCases: seq<RequestType> := [Get, Post, Put, Patch, Delete]

  /** The verb as it is written into the request line. */
  function RawValue(t: RequestType): string {
    match t
    case Get => "GET"
    case Post => "POST"
    case Put => "PUT"
    case Patch => "PATCH"
    case Delete => "DELETE"
  }

  /** The failable initialiser from a raw value: it recognises exactly the
      five raw values and gives back the case that carries it. */
  function FromRawValue(s: string): (r: Option<RequestType>)
    ensures r.Some? ==> RawValue(r.value) == s
    ensures forall t :: RawValue(t) == s ==> r == Some(t)
  {
    if s == "GET" then Some(Get)
    else if s == "POST" then Some(Post)
    else if s == "PUT" then Some(Put)
    else if s == "PATCH" then Some(Patch)
    else if s == "DELETE" then Some(Delete)
    else None
  }

  /** Raw values tell the cases apart, and every case is listed once. */
  lemma RawValuesDistinct(t: RequestType, u: RequestType)
    ensures RawValue(t) == RawValue(u) <==> t == u
    ensures t in AllCases
  {
    assert FromRawValue(RawValue(t)) == Some(t);
  }
}
