/** Query-string and path helpers on URLs. Parsing a URL into components is
    Foundation's; here a URL carries the components it parses to (absent
    when it does not parse) and its path. */
module UrlExtension {
  import opened Common

  datatype QueryItem = QueryItem(name: string, value: Option<string>)

  datatype UrlComponents = UrlComponents(queryItems: Option<seq<QueryItem>>)

  datatype Url = Url(path: string, components: Option<UrlComponents>)

  /** Reference reading: the value of the last item carrying `name`, with a
      missing value read as "". */
  function LastValue(items: seq<QueryItem>, name: string): Option<string>
    decreases |items|
  {
    if items == [] then None
    else if items[|items| - 1].name == name then Some(items[|items| - 1].value.GetOr(""))
    else LastValue(items[..|items| - 1], name)
  }

  function Names(items: seq<QueryItem>): set<string> {
    set i | 0 <= i < |items| :: items[i].name
  }

  /** The `updateValue` loop of `URLComponents.getKeyVals`, item by item. */
  function FoldKeyVals(items: seq<QueryItem>): (m: map<string, string>)
    decreases |items|
  {
    if items == [] then map[]
    else
      var last := items[|items| - 1];
      FoldKeyVals(items[..|items| - 1])[last.name := last.value.GetOr("")]
  }

  /** `URLComponents.getKeyVals`. */
  function ComponentKeyVals(c: UrlComponents): map<string, string> {
    match c.queryItems
    case Some(items) => FoldKeyVals(items)
    case None => map[]
  }

  /** `URL.getKeyVals`: nothing when the URL has no components. */
  function UrlKeyVals(u: Url): (m: map<string, string>)
    ensures u.components.None? ==> m == map[]
    ensures u.components.Some? && u.components.value.queryItems.None? ==> m == map[]
  {
    match u.components
    case Some(c) => ComponentKeyVals(c)
    case None => map[]
  }

  /** Every item name is a key, no other key appears, and each key holds the
      value of its last occurrence ("" when that one has no value). */
  lemma {:induction false} FoldKeyValsLastWins(items: seq<QueryItem>)
    ensures FoldKeyVals(items).Keys == Names(items)
    ensures forall name :: name in FoldKeyVals(items) ==> Some(FoldKeyVals(items)[name]) == LastValue(items, name)
    decreases |items|
  {
    if items != [] {
      var init := items[..|items| - 1];
      FoldKeyValsLastWins(init);
      var last := items[|items| - 1];
      assert Names(items) == Names(init) + {last.name} by {
        forall x | x in Names(items) ensures x in Names(init) + {last.name} {
          var i :| 0 <= i < |items| && items[i].name == x;
          if i < |items| - 1 {
            assert init[i] == items[i];
          }
        }
        forall x | x in Names(init) ensures x in Names(items) {
          var i :| 0 <= i < |init| && init[i].name == x;
          assert items[i] == init[i];
        }
      }
    }
  }

  /** The loop itself, as the source writes it. */
  method GetKeyVals(c: UrlComponents) returns (results: map<string, string>)
    ensures results == ComponentKeyVals(c)
    ensures c.queryItems.Some? ==> results.Keys == Names(c.queryItems.value)
    ensures c.queryItems.None? ==> results == map[]
  {
    results := map[];
    if c.queryItems.Some? {
      var items := c.queryItems.value;
      var i := 0;
      while i < |items|
        invariant 0 <= i <= |items|
        invariant results == FoldKeyVals(items[..i])
      {
        assert items[..i + 1][..i] == items[..i];
        results := results[items[i].name := items[i].value.GetOr("")];
        i := i + 1;
      }
      assert items[..|items|] == items;
      FoldKeyValsLastWins(items);
    }
  }

  /** A repeated name keeps only its last value. */
  lemma DuplicateNameLastWins(name: string, first: string, second: string)
    ensures FoldKeyVals([QueryItem(name, Some(first)), QueryItem(name, Some(second))]) == map[name := second]
  {
    var one := [QueryItem(name, Some(first))];
    assert [QueryItem(name, Some(first)), QueryItem(name, Some(second))][..1] == one;
    assert one[..0] == [];
    assert FoldKeyVals(one) == map[name := first];
  }

  /** `URL.suffix(base:)`: the last `path.count - base.path.count` characters
      of the path. A base longer than the path would ask for a negative
      length, which traps. */
  function PathSuffix(u: Url, base: Url): (r: string)
    requires |base.path| <= |u.path|
    ensures |r| == |u.path| - |base.path|
    ensures HasSuffix(u.path, r)
  {
    u.path[|u.path| - (|u.path| - |base.path|)..]
  }

  /** When the base's path is a prefix of the path, the suffix is exactly
      what follows it. */
  lemma PathSuffixCompletesBase(u: Url, base: Url)
    requires HasPrefix(u.path, base.path)
    ensures base.path + PathSuffix(u, base) == u.path
  {
    assert u.path == u.path[..|base.path|] + u.path[|base.path|..];
  }
}
