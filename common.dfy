/**
 * Shared vocabulary of the model: optional values (JavaScript `undefined`/`null`),
 * results of operations that may throw, path slugs and JavaScript truthiness.
 */
module Common {
  import Text

  /** `None` stands for a field or argument that is `undefined` (or `null`). */
  datatype Option<T> = None | Some(value: T)

  /** The outcome of an operation that either returns a value or throws. */
  datatype Result<T, E> = Ok(value: T) | Err(error: E)

  /** `Record<string, unknown>`; the values are kept as text. */
  type Metadata = map<string, string>

  /** The `string | number` slug accepted by the `getUrl` path builders. */
  datatype Slug = NumSlug(n: int) | TextSlug(s: string)

  /** JavaScript truthiness of a slug: `0` and `''` are falsy. */
  predicate SlugTruthy(s: Slug)
  {
    match s
    case NumSlug(n) => n != 0
    case TextSlug(t) => t != ""
  }

  /** `slug` as the condition of `${slug ? `/${slug}` : ''}`: given and truthy. */
  predicate SlugGiven(slug: Option<Slug>)
  {
    slug.Some? && SlugTruthy(slug.value)
  }

  /** `${slug}`. */
  function SlugText(s: Slug): string
  {
    match s
    case NumSlug(n) => Text.IntToString(n)
    case TextSlug(t) => t
  }

  /** `${slug ? `/${slug}` : ''}`: the path segment a slug adds. */
  function SlugSegment(slug: Option<Slug>): (r: string)
    ensures SlugGiven(slug) ==> r == "/" + SlugText(slug.value)
    ensures !SlugGiven(slug) ==> r == ""
  {
    if SlugGiven(slug) then "/" + SlugText(slug.value) else ""
  }

  /** `${query ? `?${query}` : ''}`: the query string a `getUrl` query argument adds. */
  function QuerySuffix(query: Option<string>): string
  {
    if TextTruthy(query) then "?" + query.value else ""
  }

  /** Two resource paths under the same root with truthy numeric slugs are equal only for equal ids. */
  lemma NumericSegmentInjective(root: string, a: int, b: int)
    requires a != 0 && b != 0
    requires root + SlugSegment(Some(NumSlug(a))) == root + SlugSegment(Some(NumSlug(b)))
    ensures a == b
  {
    var u := "/" + Text.IntToString(a);
    var v := "/" + Text.IntToString(b);
    assert SlugSegment(Some(NumSlug(a))) == u && SlugSegment(Some(NumSlug(b))) == v;
    assert (root + u)[|root|..] == u;
    assert (root + v)[|root|..] == v;
    assert u[1..] == Text.IntToString(a) && v[1..] == Text.IntToString(b);
    Text.IntToStringInjective(a, b);
  }

  /** `${root}/${id}/${rest}`: the path of a sub-resource or action of the record `id`. */
  function SubPath(root: string, id: int, rest: string): string
  {
    root + "/" + Text.IntToString(id) + "/" + rest
  }

  /** Appending to a sub-resource path extends its rest. */
  lemma SubPathExtend(root: string, id: int, rest: string, more: string)
    ensures SubPath(root, id, rest) + more == SubPath(root, id, rest + more)
  {
  }

  /** A sub-resource path determines both the id and the rest of the path. */
  lemma SubPathInjective(root: string, id1: int, rest1: string, id2: int, rest2: string)
    requires SubPath(root, id1, rest1) == SubPath(root, id2, rest2)
    ensures id1 == id2 && rest1 == rest2
  {
    var p := SubPath(root, id1, rest1);
    var n := |root| + 1;
    assert p[n..] == Text.IntToString(id1) + "/" + rest1;
    assert p[n..] == Text.IntToString(id2) + "/" + rest2;
    Text.IntToStringHasNoSlash(id1);
    Text.IntToStringHasNoSlash(id2);
    Text.SplitAtSlash(Text.IntToString(id1), rest1, Text.IntToString(id2), rest2);
    Text.IntToStringInjective(id1, id2);
  }

  /** JavaScript truthiness of an optional numeric id (`undefined` and `0` are falsy). */
  predicate IdTruthy(id: Option<int>)
  {
    id.Some? && id.value != 0
  }

  /** JavaScript truthiness of an optional string (`undefined`, `null` and `''` are falsy). */
  predicate TextTruthy(s: Option<string>)
  {
    s.Some? && s.value != ""
  }

  /** The slug an optional numeric id becomes when it is passed to `getUrl`. */
  function IdSlug(id: Option<int>): (r: Option<Slug>)
    ensures r.Some? <==> id.Some?
    ensures r.Some? ==> (SlugTruthy(r.value) <==> IdTruthy(id))
  {
    match id
    case None => None
    case Some(n) => Some(NumSlug(n))
  }

  /** The id an entity constructor stores: the argument when it is truthy, otherwise none. */
  function KeepTruthyId(id: Option<int>): (r: Option<int>)
    ensures r.Some? <==> IdTruthy(id)
    ensures r.Some? ==> r == id
  {
    if IdTruthy(id) then id else None
  }

  /** `x || fallback` for an optional object argument (every object is truthy). */
  function OrDefault<T>(x: Option<T>, fallback: T): T
  {
    match x
    case Some(v) => v
    case None => fallback
  }
}
