/** Query-string formatting: `formatQueryParams` and the collection
    formatter built on it, plus a reference parser used to state what a
    formatted string contains. */
module Query {
  import opened Wrappers
  import opened Js

  /** A value handed to the query formatter. */
  datatype QValue = QStr(s: string) | QNum(n: int) | QNull | QUndefined

  /** A plain object given to the formatter, keys in insertion order. */
  type Params = seq<(string, QValue)>

  /** Options a caller passes to a collection fetch (`CollectionOptions`). */
  datatype CollectionOptions = CollectionOptions(
    shouldAppend: Option<bool>,
    search: Option<string>,
    page: Option<int>,
    filters: Option<Dict>,
    pageSize: Option<int>,
    ordering: Option<string>,
    reverseOrdering: Option<bool>)

  const NoOptions := CollectionOptions(None, None, None, None, None, None, None)

  const ItemsPerPage := 12
  const WholeCollectionPageSize := 10000

  /** Values the formatter drops: `null` and `undefined`. */
  predicate Dropped(v: QValue) {
    v.QNull? || v.QUndefined?
  }

  function Keys(p: Params): seq<string> {
    seq(|p|, i requires 0 <= i < |p| => p[i].0)
  }

  predicate DistinctKeys(p: Params) {
    forall i, j :: 0 <= i < j < |p| ==> p[i].0 != p[j].0
  }

  /** `{...p, [k]: v}`: an existing key keeps its position and takes the new
      value; a new key goes last. */
  function Assign(p: Params, k: string, v: QValue): (r: Params)
    ensures |r| >= |p|
    ensures (k, v) in r
    ensures forall i :: 0 <= i < |p| && p[i].0 != k ==> r[i] == p[i]
    ensures (forall i :: 0 <= i < |p| ==> p[i].0 != k) ==> r == p + [(k, v)]
    decreases |p|
  {
    if |p| == 0 then [(k, v)]
    else if p[0].0 == k then [(k, v)] + p[1..]
    else [p[0]] + Assign(p[1..], k, v)
  }

  /** Assigning to a key already present overwrites its first occurrence in
      place: the order of keys does not change. */
  lemma {:induction false} AssignInPlace(p: Params, k: string, v: QValue, i: nat)
    requires i < |p| && p[i].0 == k
    requires forall j :: 0 <= j < i ==> p[j].0 != k
    ensures Assign(p, k, v) == p[i := (k, v)]
    decreases i
  {
    if i > 0 {
      AssignInPlace(p[1..], k, v, i - 1);
      assert [p[0]] + p[1..][i - 1 := (k, v)] == p[i := (k, v)];
    }
  }

  /** The pairs that survive the filter, in order. */
  function Kept(p: Params): (r: Params)
    ensures forall i :: 0 <= i < |r| ==> !Dropped(r[i].1)
    ensures |r| == 0 <==> forall i :: 0 <= i < |p| ==> Dropped(p[i].1)
    decreases |p|
  {
    if |p| == 0 then []
    else if Dropped(p[0].1) then Kept(p[1..])
    else [p[0]] + Kept(p[1..])
  }

  /** `${value}` for the values the formatter emits. */
  function Stringify(v: QValue): string
    requires !Dropped(v)
  {
    match v
    case QStr(s) => s
    case QNum(n) => IntToString(n)
  }

  function Shown(p: Params): (r: seq<(string, string)>)
    requires forall i :: 0 <= i < |p| ==> !Dropped(p[i].1)
    ensures |r| == |p|
  {
    seq(|p|, i requires 0 <= i < |p| => (p[i].0, Stringify(p[i].1)))
  }

  function Render(p: seq<(string, string)>): (r: seq<string>)
    ensures |r| == |p|
  {
    seq(|p|, i requires 0 <= i < |p| => p[i].0 + "=" + p[i].1)
  }

  function Join(xs: seq<string>, sep: string): string
    decreases |xs|
  {
    if |xs| == 0 then ""
    else if |xs| == 1 then xs[0]
    else xs[0] + sep + Join(xs[1..], sep)
  }

  /** `formatQueryParams(params?)` (src/requests/utils.ts; src/requests.ts
      holds the same code). */
  function FormatQueryParams(params: Option<Params>): (q: string)
    ensures q == "" <==> params.None? || forall i :: 0 <= i < |params.value| ==> Dropped(params.value[i].1)
    ensures q != "" ==> q[0] == '?'
  {
    match params
    case None => ""
    case Some(p) =>
      var kept := Kept(p);
      if |kept| == 0 then "" else "?" + Join(Render(Shown(kept)), "&")
  }

  // ---------------------------------------------------------------------
  // Reference parser: what a formatted query string says.

  function Split(s: string, c: char): (parts: seq<string>)
    ensures |parts| > 0
    decreases |s|
  {
    if |s| == 0 then [""]
    else
      var rest := Split(s[1..], c);
      if s[0] == c then [""] + rest else [[s[0]] + rest[0]] + rest[1..]
  }

  /** Splits `k=v` at its first '='. */
  function SplitPair(s: string): (string, string)
    decreases |s|
  {
    if |s| == 0 then ("", "")
    else if s[0] == '=' then ("", s[1..])
    else
      var kv := SplitPair(s[1..]);
      ([s[0]] + kv.0, kv.1)
  }

  /** The key/value pairs of a query string `?k1=v1&k2=v2...`. */
  function ParseQuery(q: string): seq<(string, string)> {
    if |q| == 0 || q[0] != '?' then []
    else
      var parts := Split(q[1..], '&');
      seq(|parts|, i requires 0 <= i < |parts| => SplitPair(parts[i]))
  }

  lemma {:induction false} SplitNoSeparator(a: string, c: char)
    requires c !in a
    ensures Split(a, c) == [a]
    decreases |a|
  {
    if |a| > 0 {
      SplitNoSeparator(a[1..], c);
      assert [a[0]] + a[1..] == a;
    }
  }

  lemma {:induction false} SplitConcat(a: string, c: char, b: string)
    requires c !in a
    ensures Split(a + [c] + b, c) == [a] + Split(b, c)
    decreases |a|
  {
    var s := a + [c] + b;
    if |a| == 0 {
      assert s[1..] == b;
    } else {
      assert s[1..] == a[1..] + [c] + b;
      SplitConcat(a[1..], c, b);
      assert [a[0]] + a[1..] == a;
    }
  }

  lemma {:induction false} SplitJoin(xs: seq<string>)
    requires |xs| > 0
    requires forall i :: 0 <= i < |xs| ==> '&' !in xs[i]
    ensures Split(Join(xs, "&"), '&') == xs
    decreases |xs|
  {
    if |xs| == 1 {
      SplitNoSeparator(xs[0], '&');
    } else {
      SplitJoin(xs[1..]);
      assert xs[0] + "&" + Join(xs[1..], "&") == xs[0] + ['&'] + Join(xs[1..], "&");
      SplitConcat(xs[0], '&', Join(xs[1..], "&"));
      assert [xs[0]] + xs[1..] == xs;
    }
  }

  lemma {:induction false} SplitPairAtFirstEquals(k: string, v: string)
    requires '=' !in k
    ensures SplitPair(k + "=" + v) == (k, v)
    decreases |k|
  {
    var s := k + "=" + v;
    if |k| == 0 {
      assert s[1..] == v;
    } else {
      assert s[1..] == k[1..] + "=" + v;
      SplitPairAtFirstEquals(k[1..], v);
      assert [k[0]] + k[1..] == k;
    }
  }

  /** Keys carry no '&' or '=' and string values carry no '&', so the
      formatted string can be read back unambiguously. */
  predicate Unambiguous(p: Params) {
    forall i :: 0 <= i < |p| ==>
      '&' !in p[i].0 && '=' !in p[i].0 && (p[i].1.QStr? ==> '&' !in p[i].1.s)
  }

  lemma KeptUnambiguous(p: Params)
    requires Unambiguous(p)
    ensures Unambiguous(Kept(p))
    decreases |p|
  {
    if |p| > 0 {
      KeptUnambiguous(p[1..]);
    }
  }

  lemma StringifyNoAmpersand(v: QValue)
    requires !Dropped(v)
    requires v.QStr? ==> '&' !in v.s
    ensures '&' !in Stringify(v)
  {
    if v.QNum? {
      var s := IntToString(v.n);
      assert forall i :: 0 <= i < |s| ==> s[i] != '&';
    }
  }

  /** The formatter emits exactly the non-null pairs, in insertion order:
      parsing its output gives back each surviving key with its rendered
      value. */
  lemma {:induction false} FormatQueryParamsRoundTrip(p: Params)
    requires Unambiguous(p)
    ensures ParseQuery(FormatQueryParams(Some(p))) == Shown(Kept(p))
  {
    var kept := Kept(p);
    if |kept| > 0 {
      KeptUnambiguous(p);
      var shown := Shown(kept);
      var parts := Render(shown);
      forall i | 0 <= i < |parts|
        ensures '&' !in parts[i]
      {
        StringifyNoAmpersand(kept[i].1);
        assert parts[i] == kept[i].0 + "=" + Stringify(kept[i].1);
      }
      var q := FormatQueryParams(Some(p));
      assert q == "?" + Join(parts, "&");
      assert q[1..] == Join(parts, "&");
      SplitJoin(parts);
      forall i | 0 <= i < |parts|
        ensures SplitPair(parts[i]) == shown[i]
      {
        SplitPairAtFirstEquals(kept[i].0, Stringify(kept[i].1));
      }
    }
  }

  // ---------------------------------------------------------------------
  // The collection formatter.

  function Spread(d: Dict): (p: Params)
    ensures |p| == |d|
    ensures forall i :: 0 <= i < |d| ==> p[i] == (d[i].0, QStr(d[i].1))
  {
    seq(|d|, i requires 0 <= i < |d| => (d[i].0, QStr(d[i].1)))
  }

  /** `d[k]` for a `Dict<string>`. */
  function Lookup(d: Dict, k: string): Option<string>
    decreases |d|
  {
    if |d| == 0 then None
    else if d[0].0 == k then Some(d[0].1)
    else Lookup(d[1..], k)
  }

  /** The `ordering` entry: `-field` when reversed, `field` otherwise, and
      `null` when no ordering is given. */
  function OrderingValue(ordering: Option<string>, reverseOrdering: Option<bool>): QValue {
    if ordering.Some? && ordering.value != "" then
      QStr((if TruthyBool(reverseOrdering) then "-" else "") + ordering.value)
    else QNull
  }

  /** `search || filters.search`. */
  function SearchValue(search: Option<string>, filters: Dict): QValue {
    if search.Some? && search.value != "" then QStr(search.value)
    else match Lookup(filters, "search")
      case Some(s) => QStr(s)
      case None => QUndefined
  }

  /** The `ordering` entry is `-field` exactly when the ordering is
      reversed and is dropped when no ordering is given; the `search` entry
      is dropped only when neither the option nor the filters carry one. */
  lemma OrderingAndSearchEntries(ordering: Option<string>, reverseOrdering: Option<bool>,
                                 search: Option<string>, filters: Dict)
    ensures Dropped(OrderingValue(ordering, reverseOrdering)) <==> OrStr(ordering, "") == ""
    ensures OrStr(ordering, "") != "" && TruthyBool(reverseOrdering) ==>
      OrderingValue(ordering, reverseOrdering) == QStr("-" + ordering.value)
    ensures OrStr(ordering, "") != "" && !TruthyBool(reverseOrdering) ==>
      OrderingValue(ordering, reverseOrdering) == QStr(ordering.value)
    ensures Dropped(SearchValue(search, filters)) <==> OrStr(search, "") == "" && Lookup(filters, "search").None?
    ensures OrStr(search, "") != "" ==> SearchValue(search, filters) == QStr(search.value)
  {
    assert "" + ordering.GetOr("") == ordering.GetOr("");
  }

  /** The object `formatCollectionQueryParams` hands to `formatQueryParams`:
      `{...filters, ordering, page, page_size, search}`. */
  function CollectionQueryParams(options: Option<CollectionOptions>): Params {
    var o := options.GetOr(NoOptions);
    var filters := o.filters.GetOr([]);
    Assign(
      Assign(
        Assign(
          Assign(Spread(filters), "ordering", OrderingValue(o.ordering, o.reverseOrdering)),
          "page", QNum(o.page.GetOr(1))),
        "page_size", QNum(o.pageSize.GetOr(ItemsPerPage))),
      "search", SearchValue(o.search, filters))
  }

  /** `formatCollectionQueryParams(options = {})` (src/collections/utils.ts;
      src/collections.ts holds the same code). */
  function FormatCollectionQueryParams(options: Option<CollectionOptions>): (q: string)
    ensures q != "" && q[0] == '?'
  {
    var p := CollectionQueryParams(options);
    assert exists i :: 0 <= i < |p| && p[i].0 == "page" && p[i].1.QNum? by {
      CollectionParamsHavePage(options);
    }
    FormatQueryParams(Some(p))
  }

  function ReservedKeys(): set<string> {
    {"ordering", "page", "page_size", "search"}
  }

  /** Filters whose keys avoid the four keys the formatter assigns. */
  predicate PlainFilters(d: Dict) {
    forall i :: 0 <= i < |d| ==> d[i].0 !in ReservedKeys()
  }

  /** Assigning to a key no pair carries appends the pair. */
  lemma AssignFresh(p: Params, k: string, v: QValue, later: set<string>)
    requires forall i :: 0 <= i < |p| ==> p[i].0 != k && p[i].0 !in later
    requires k !in later
    ensures Assign(p, k, v) == p + [(k, v)]
    ensures forall i :: 0 <= i < |p + [(k, v)]| ==> (p + [(k, v)])[i].0 !in later
  {
  }

  /** The four assignments of the collection formatter, on an object whose
      keys avoid all four, append the four pairs in order. */
  lemma AssignReservedAppends(p0: Params, v1: QValue, v2: QValue, v3: QValue, v4: QValue)
    requires forall i :: 0 <= i < |p0| ==> p0[i].0 !in ReservedKeys()
    ensures Assign(Assign(Assign(Assign(p0, "ordering", v1), "page", v2), "page_size", v3), "search", v4)
      == p0 + [("ordering", v1), ("page", v2), ("page_size", v3), ("search", v4)]
  {
    AssignFresh(p0, "ordering", v1, {"page", "page_size", "search"});
    var p1 := p0 + [("ordering", v1)];
    AssignFresh(p1, "page", v2, {"page_size", "search"});
    var p2 := p1 + [("page", v2)];
    AssignFresh(p2, "page_size", v3, {"search"});
    var p3 := p2 + [("page_size", v3)];
    AssignFresh(p3, "search", v4, {});
    AppendFour(p0, ("ordering", v1), ("page", v2), ("page_size", v3), ("search", v4));
  }

  lemma AppendFour(p0: Params, e1: (string, QValue), e2: (string, QValue), e3: (string, QValue), e4: (string, QValue))
    ensures p0 + [e1] + [e2] + [e3] + [e4] == p0 + [e1, e2, e3, e4]
  {
  }

  /** With plain filters, the formatter's object is the filters in order,
      then `ordering`, `page`, `page_size` and `search`. */
  lemma CollectionParamsLayout(options: Option<CollectionOptions>)
    requires PlainFilters(options.GetOr(NoOptions).filters.GetOr([]))
    ensures var o := options.GetOr(NoOptions);
      var filters := o.filters.GetOr([]);
      CollectionQueryParams(options) == Spread(filters) + [
        ("ordering", OrderingValue(o.ordering, o.reverseOrdering)),
        ("page", QNum(o.page.GetOr(1))),
        ("page_size", QNum(o.pageSize.GetOr(ItemsPerPage))),
        ("search", SearchValue(o.search, filters))]
  {
    var o := options.GetOr(NoOptions);
    var filters := o.filters.GetOr([]);
    var p0 := Spread(filters);
    assert forall i :: 0 <= i < |p0| ==> p0[i].0 == filters[i].0;
    AssignReservedAppends(p0, OrderingValue(o.ordering, o.reverseOrdering), QNum(o.page.GetOr(1)),
      QNum(o.pageSize.GetOr(ItemsPerPage)), SearchValue(o.search, filters));
  }

  /** Whatever the filters hold, the formatter's object carries a numeric
      `page`, so the collection query string is never empty. */
  lemma CollectionParamsHavePage(options: Option<CollectionOptions>)
    ensures var p := CollectionQueryParams(options);
      exists i :: 0 <= i < |p| && p[i] == ("page", QNum(options.GetOr(NoOptions).page.GetOr(1)))
  {
    var o := options.GetOr(NoOptions);
    var filters := o.filters.GetOr([]);
    var p1 := Assign(Spread(filters), "ordering", OrderingValue(o.ordering, o.reverseOrdering));
    var page := ("page", QNum(o.page.GetOr(1)));
    var p2 := Assign(p1, "page", page.1);
    assert page in p2;
    var i :| 0 <= i < |p2| && p2[i] == page;
    var p3 := Assign(p2, "page_size", QNum(o.pageSize.GetOr(ItemsPerPage)));
    assert p3[i] == page;
    var p4 := Assign(p3, "search", SearchValue(o.search, filters));
    assert p4[i] == page;
    assert p4 == CollectionQueryParams(options);
  }

  /** What a collection query string says, when its parts are unambiguous:
      the filters in order, then `ordering`, `page`, `page_size` and
      `search`, leaving out the ones that are `null` or `undefined`. */
  lemma {:induction false} CollectionQueryRoundTrip(options: Option<CollectionOptions>)
    requires PlainFilters(options.GetOr(NoOptions).filters.GetOr([]))
    requires Unambiguous(CollectionQueryParams(options))
    ensures var o := options.GetOr(NoOptions);
      var filters := o.filters.GetOr([]);
      ParseQuery(FormatCollectionQueryParams(options)) == Shown(Kept(Spread(filters) + [
        ("ordering", OrderingValue(o.ordering, o.reverseOrdering)),
        ("page", QNum(o.page.GetOr(1))),
        ("page_size", QNum(o.pageSize.GetOr(ItemsPerPage))),
        ("search", SearchValue(o.search, filters))]))
  {
    CollectionParamsLayout(options);
    FormatQueryParamsRoundTrip(CollectionQueryParams(options));
  }

  /** With no options, the query asks for the first page of twelve. */
  lemma DefaultCollectionQuery()
    ensures FormatCollectionQueryParams(None) == "?page=1&page_size=12"
  {
    CollectionParamsLayout(None);
    assert Spread([]) == [];
    var p := CollectionQueryParams(None);
    assert p == [("ordering", QNull), ("page", QNum(1)), ("page_size", QNum(12)), ("search", QUndefined)];
    KeptDefaults();
    ShownDefaults();
    assert FormatQueryParams(Some(p)) == "?page=1&page_size=12";
  }

  lemma KeptDefaults()
    ensures Kept([("ordering", QNull), ("page", QNum(1)), ("page_size", QNum(12)), ("search", QUndefined)])
      == [("page", QNum(1)), ("page_size", QNum(12))]
  {
    var p := [("ordering", QNull), ("page", QNum(1)), ("page_size", QNum(12)), ("search", QUndefined)];
    assert p[1..][1..][1..] == [("search", QUndefined)];
    assert Kept(p[1..][1..][1..]) == [];
  }

  lemma ShownDefaults()
    ensures "?" + Join(Render(Shown([("page", QNum(1)), ("page_size", QNum(12))])), "&") == "?page=1&page_size=12"
  {
    assert NatToString(1) == "1";
    assert DigitChar(2) == '2';
    assert NatToString(12) == "12";
    var shown := Shown([("page", QNum(1)), ("page_size", QNum(12))]);
    assert shown[0] == ("page", "1");
    assert shown[1] == ("page_size", "12");
    var parts := Render(shown);
    assert parts[0] == "page=1";
    assert parts[1] == "page_size=12";
    assert parts[1..][0] == "page_size=12";
  }
}
