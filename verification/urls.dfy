/**
 * An abstract URL: the parts of a Foundation `URL` that the login flow looks at.
 * Raw-string parsing is not modelled; a URL is given by its components.
 */
module Urls {
  import opened Wrappers

  /** One `name=value` pair of a URL's query. */
  datatype QueryItem = QueryItem(name: string, value: string)

  /**
   * `scheme`, `host` and `path` are the empty string when the URL has none
   * ("spotify.com" has no scheme and no host, only a path); `query` is empty
   * when the URL has no query part.
   */
  datatype Url = Url(scheme: string, host: string, path: string, query: seq<QueryItem>)

  /** Position of the first query item called `name`, or `|query|` when there is none. */
  function FirstIndex(query: seq<QueryItem>, name: string): (i: nat)
    ensures i <= |query|
    ensures forall j :: 0 <= j < i ==> query[j].name != name
    ensures i < |query| ==> query[i].name == name
  {
    if query == [] then 0
    else if query[0].name == name then 0
    else 1 + FirstIndex(query[1..], name)
  }

  /** The value of the first query item called `name`, if any item is called so. */
  function Lookup(query: seq<QueryItem>, name: string): (r: Option<string>)
    ensures r.None? <==> forall j :: 0 <= j < |query| ==> query[j].name != name
    ensures r.Some? ==> exists i :: 0 <= i < |query| && query[i] == QueryItem(name, r.value)
                          && forall j :: 0 <= j < i ==> query[j].name != name
  {
    var i := FirstIndex(query, name);
    if i < |query| then Some(query[i].value) else None
  }

  /** A lookup finds the item at `k` when it is the first one called `name`. */
  lemma LookupAt(query: seq<QueryItem>, k: nat, name: string)
    requires k < |query| && query[k].name == name
    requires forall j :: 0 <= j < k ==> query[j].name != name
    ensures Lookup(query, name) == Some(query[k].value)
  {
    var i := FirstIndex(query, name);
    assert i <= k;
    assert !(i < k);
  }

  /** The URL written out without its query: `scheme://host/path`. Percent-encoding is not modelled. */
  function Text(u: Url): string
  {
    (if u.scheme != "" then u.scheme + "://" else "") + u.host + u.path
  }
}
