/**
 * The shared utilities: pagination arithmetic over query strings, `chunk`,
 * `unique`, `groupBy`, `slugify`, `truncate` and `isEmpty`.
 */
module Helpers {
  import opened Wrappers
  import opened Text
  import opened JsValue
  import opened Seqs

  // ------------------------------------------------ pagination

  const DefaultLimit := 50
  const MaxLimit := 100

  /** `parseInt(v)` for a query value, which `parseInt` first converts with `String(v)`. */
  function ParseQuery(v: Value): Option<int> {
    ParseInt(ToJsString(v))
  }

  /** `parseInt(v) || fallback`: `NaN` and `0` give the fallback. */
  function IntOr(v: Value, fallback: int): (r: int)
    ensures ParseQuery(v) == None || ParseQuery(v) == Some(0) ==> r == fallback
    ensures ParseQuery(v).Some? && ParseQuery(v).value != 0 ==> r == ParseQuery(v).value
  {
    match ParseQuery(v)
    case Some(n) => if n != 0 then n else fallback
    case None => fallback
  }

  function Min(a: int, b: int): int { if a <= b then a else b }
  function Max(a: int, b: int): int { if a >= b then a else b }

  /** `Math.floor(a / b)`. */
  function FloorDiv(a: int, b: int): int
    requires b != 0
  {
    if b > 0 then a / b else (-a) / (-b)
  }

  /** `Math.ceil(a / b)`. */
  function CeilDiv(a: int, b: int): int
    requires b != 0
  {
    -FloorDiv(-a, b)
  }

  datatype PageParams = PageParams(limit: int, offset: int, page: int)

  /** The page a limit and an offset put a request on: `Math.floor(offset / limit) + 1`. */
  function PageOf(limit: int, offset: int): PageParams
    requires limit != 0
  {
    PageParams(limit, offset, FloorDiv(offset, limit) + 1)
  }

  /** `getPaginationParams(query)`. */
  function PaginationParams(query: Value): (p: PageParams)
    ensures p.limit != 0 && p.limit <= MaxLimit && p.offset >= 0
  {
    var limit := Min(IntOr(Get(query, "limit"), DefaultLimit), MaxLimit);
    var offset := Max(IntOr(Get(query, "offset"), 0), 0);
    PageOf(limit, offset)
  }

  /** The limit is 50 when the query's is missing, zero or not a number,
      the query's own capped at 100 otherwise; the offset is the query's when
      it is positive and 0 otherwise. */
  lemma PaginationDefaults(query: Value)
    ensures var p := PaginationParams(query);
      var l := ParseQuery(Get(query, "limit"));
      var o := ParseQuery(Get(query, "offset"));
      (l == None || l == Some(0) ==> p.limit == DefaultLimit) &&
      (l.Some? && l.value != 0 ==> p.limit == Min(l.value, MaxLimit)) &&
      (o.Some? && o.value > 0 ==> p.offset == o.value) &&
      (o == None || o.value <= 0 ==> p.offset == 0)
  {
  }

  /** For a positive limit, `page` is the 1-based page that holds `offset`. */
  lemma {:induction false} PageHoldsOffset(limit: int, offset: int)
    requires limit > 0
    ensures var p := PageOf(limit, offset);
      (p.page - 1) * limit <= offset < (p.page - 1) * limit + limit &&
      (offset >= 0 ==> p.page >= 1)
  {
    DivBounds(offset, limit);
    if offset >= 0 {
      assert offset / limit >= 0;
    }
  }

  lemma {:induction false} DivBounds(a: int, b: int)
    requires b > 0
    ensures (a / b) * b <= a < (a / b) * b + b
  {
    assert a == (a / b) * b + a % b;
  }

  /** A negative limit in the query is passed through: `?limit=-5&offset=10`
      gives limit -5 and page -1. */
  lemma PaginationNegativeLimit()
    ensures PaginationParams(Obj([Prop("limit", Num(-5)), Prop("offset", Num(10))]))
         == PageParams(-5, 10, -1)
  {
    ParseIntRoundTrip(-5);
    ParseIntRoundTrip(10);
  }

  datatype PageMetadata = PageMetadata(
    total: int, limit: int, offset: int, page: int, totalPages: int,
    hasNext: bool, hasPrevious: bool, nextOffset: Option<int>, previousOffset: Option<int>)

  /** `createPaginationMetadata(total, limit, offset)`; the two optional
      properties are spread in only when their flag is set. */
  function PaginationMetadata(total: int, limit: int, offset: int): PageMetadata
    requires limit != 0
  {
    var page := FloorDiv(offset, limit) + 1;
    var totalPages := CeilDiv(total, limit);
    var hasNext := page < totalPages;
    var hasPrevious := page > 1;
    PageMetadata(total, limit, offset, page, totalPages, hasNext, hasPrevious,
                 if hasNext then Some(offset + limit) else None,
                 if hasPrevious then Some(Max(0, offset - limit)) else None)
  }

  /** For a positive limit: `totalPages` is the least number of pages of
      `limit` items that holds `total` items; there is a next page exactly
      when items lie beyond the current page, and a previous one exactly when
      `offset` is at least one page in; each offset is present with its flag. */
  lemma {:induction false} PaginationMetadataMeaning(total: int, limit: int, offset: int)
    requires limit > 0
    ensures var m := PaginationMetadata(total, limit, offset);
      m.page == offset / limit + 1 &&
      (m.totalPages - 1) * limit < total <= m.totalPages * limit &&
      (m.hasNext <==> m.page * limit < total) &&
      (m.hasPrevious <==> offset >= limit) &&
      (m.nextOffset.Some? <==> m.hasNext) &&
      (m.nextOffset.Some? ==> m.nextOffset.value == offset + limit) &&
      (m.previousOffset.Some? <==> m.hasPrevious) &&
      (m.previousOffset.Some? ==> 0 <= m.previousOffset.value < offset)
  {
    var m := PaginationMetadata(total, limit, offset);
    CeilDivBounds(total, limit);
    CeilDivCompare(total, limit, m.page);
    DivBounds(offset, limit);
    if offset >= limit {
      assert offset / limit >= 1 by { DivAtLeastOne(offset, limit); }
    }
  }

  lemma {:induction false} CeilDivBounds(a: int, b: int)
    requires b > 0
    ensures (CeilDiv(a, b) - 1) * b < a <= CeilDiv(a, b) * b
  {
    var q := (-a) / b;
    assert -a == q * b + (-a) % b;
    assert CeilDiv(a, b) == -q;
    assert (-q - 1) * b == -(q * b) - b;
    assert (-q) * b == -(q * b);
  }

  /** `p < ceil(a / b)` exactly when `p` pages of `b` fall short of `a`. */
  lemma {:induction false} CeilDivCompare(a: int, b: int, p: int)
    requires b > 0
    ensures p < CeilDiv(a, b) <==> p * b < a
  {
    var c := CeilDiv(a, b);
    CeilDivBounds(a, b);
    if p < c {
      MulMonotone(p, c - 1, b);
    } else {
      MulMonotone(c, p, b);
    }
  }

  lemma MulMonotone(x: int, y: int, b: int)
    requires x <= y && b > 0
    ensures x * b <= y * b
  {
    assert y * b - x * b == (y - x) * b;
  }

  lemma DivAtLeastOne(a: int, b: int)
    requires 0 < b <= a
    ensures a / b >= 1
  {
    DivBounds(a, b);
    if a / b <= 0 {
      MulMonotone(a / b + 1, 1, b);
    }
  }

  // ------------------------------------------------ chunk

  /** `array` cut into consecutive pieces of `size` elements, the last one
      possibly shorter. */
  function Chunks<T>(s: seq<T>, size: nat): seq<seq<T>>
    requires size > 0
    decreases |s|
  {
    if |s| == 0 then []
    else
      var k := if size < |s| then size else |s|;
      [s[..k]] + Chunks(s[k..], size)
  }

  /** `chunk(array, size)`: a loop that steps `i` by `size` and pushes
      the slice from `i` to `i + size`. */
  method Chunk<T>(items: seq<T>, size: int) returns (chunks: seq<seq<T>>)
    requires size > 0
    ensures chunks == Chunks(items, size)
  {
    chunks := [];
    var i := 0;
    while i < |items|
      invariant 0 <= i
      invariant chunks + Chunks(items[Min(i, |items|)..], size) == Chunks(items, size)
      decreases |items| - i
    {
      var end := if i + size < |items| then i + size else |items|;
      ghost var rest := items[i..];
      assert rest[..end - i] == items[i..end];
      assert rest[end - i..] == items[end..];
      assert Chunks(rest, size) == [items[i..end]] + Chunks(items[end..], size);
      chunks := chunks + [items[i..end]];
      i := i + size;
      assert Min(i, |items|) == end;
    }
  }

  /** Concatenating the chunks gives back the input; no chunk is empty or
      longer than `size`, and every chunk but the last has exactly `size`
      elements. */
  lemma {:induction false} ChunksFacts<T>(s: seq<T>, size: nat)
    requires size > 0
    ensures Flatten(Chunks(s, size)) == s
    ensures forall i :: 0 <= i < |Chunks(s, size)| ==> 0 < |Chunks(s, size)[i]| <= size
    ensures forall i :: 0 <= i < |Chunks(s, size)| - 1 ==> |Chunks(s, size)[i]| == size
    decreases |s|
  {
    if |s| > 0 {
      var k := if size < |s| then size else |s|;
      var rest := Chunks(s[k..], size);
      ChunksFacts(s[k..], size);
      FlattenAppend([s[..k]], rest);
      assert Flatten([s[..k]]) == s[..k] by { assert [s[..k]][..0] == []; }
      assert s == s[..k] + s[k..];
      if k < size {
        assert s[k..] == [];
      }
    }
  }

  // ------------------------------------------------ unique

  lemma {:induction false} IndexOfSnoc<T>(t: seq<T>, x: T, y: T)
    requires y in t
    ensures IndexOf(t + [x], y) == IndexOf(t, y)
  {
    assert (t + [x])[IndexOf(t, y)] == y;
  }

  lemma {:induction false} IndexOfLast<T>(t: seq<T>, x: T)
    requires x !in t
    ensures IndexOf(t + [x], x) == |t|
  {
    assert (t + [x])[|t|] == x;
  }

  /** `unique(array)`, that is `[...new Set(array)]`, keeps each element
      once and loses none. */
  lemma UniqueFacts<T>(s: seq<T>)
    ensures NoDuplicates(Distinct(s))
    ensures forall x :: x in Distinct(s) <==> x in s
  {
    DistinctNoDuplicates(s);
    forall x ensures x in Distinct(s) <==> x in s {
      DistinctMembership(s, x);
    }
  }

  /** `unique` lists the elements in the order of their first occurrences. */
  lemma {:induction false} UniqueOrderAt<T>(s: seq<T>, i: nat, j: nat)
    requires i < j < |Distinct(s)|
    ensures Distinct(s)[i] in s && Distinct(s)[j] in s
    ensures IndexOf(s, Distinct(s)[i]) < IndexOf(s, Distinct(s)[j])
    decreases |s|
  {
    var t := s[..|s| - 1];
    var x := s[|s| - 1];
    assert s == t + [x];
    DistinctSnoc(t, x);
    var d := Distinct(t);
    var D := Distinct(s);
    assert D[i] == d[i];
    DistinctMembership(t, d[i]);
    IndexOfSnoc(t, x, d[i]);
    if j < |d| {
      assert D[j] == d[j];
      DistinctMembership(t, d[j]);
      IndexOfSnoc(t, x, d[j]);
      UniqueOrderAt(t, i, j);
    } else {
      assert D[j] == x && x !in d;
      DistinctMembership(t, x);
      IndexOfLast(t, x);
    }
  }

  lemma {:induction false} DistinctOfNoDuplicates<T>(s: seq<T>)
    requires NoDuplicates(s)
    ensures Distinct(s) == s
    decreases |s|
  {
    if |s| > 0 {
      var t := s[..|s| - 1];
      assert NoDuplicates(t);
      DistinctOfNoDuplicates(t);
      assert s[|s| - 1] !in t;
    }
  }

  /** Removing repetitions twice is removing them once. */
  lemma UniqueIdempotent<T>(s: seq<T>)
    ensures Distinct(Distinct(s)) == Distinct(s)
  {
    DistinctNoDuplicates(s);
    DistinctOfNoDuplicates(Distinct(s));
  }

  // ------------------------------------------------ groupBy

  /** One property of the object `groupBy` builds: a group name and its array. */
  datatype Group = Group(name: string, items: seq<Value>)

  /** The properties every object inherits from `Object.prototype`: a group
      with one of these names finds a function (or the prototype) instead of
      an array, and `.push` on it throws a TypeError. */
  const InheritedNames: set<string> := {
    "constructor", "__proto__", "__defineGetter__", "__defineSetter__",
    "__lookupGetter__", "__lookupSetter__", "hasOwnProperty", "isPrototypeOf",
    "propertyIsEnumerable", "toLocaleString", "toString", "valueOf" }

  predicate Inherited(name: string) { name in InheritedNames }

  /** `String(item[key])`, the property name an item is grouped under. */
  function GroupName(item: Value, key: string): string {
    ToJsString(Get(item, key))
  }

  function NameIs(key: string, name: string): Value -> bool {
    item => GroupName(item, key) == name
  }

  /** The group name of each item, in item order. */
  function GroupNames(items: seq<Value>, key: string): (ns: seq<string>)
    ensures |ns| == |items|
    decreases |items|
  {
    if |items| == 0 then []
    else GroupNames(items[..|items| - 1], key) + [GroupName(items[|items| - 1], key)]
  }

  lemma {:induction false} GroupNamesMember(items: seq<Value>, key: string, y: Value)
    requires y in items
    ensures GroupName(y, key) in GroupNames(items, key)
    decreases |items|
  {
    var t := items[..|items| - 1];
    if y != items[|items| - 1] {
      assert items == t + [items[|items| - 1]];
      GroupNamesMember(t, key, y);
    }
  }

  function Names(groups: seq<Group>): (ns: seq<string>)
    ensures |ns| == |groups|
    ensures forall i :: 0 <= i < |groups| ==> ns[i] == groups[i].name
  {
    seq(|groups|, i requires 0 <= i < |groups| => groups[i].name)
  }

  /** One step of the reduction: `if (!result[group]) result[group] = [];
      result[group].push(item)`. */
  function AddToGroups(groups: seq<Group>, name: string, item: Value): seq<Group> {
    if name in Names(groups) then
      var j := IndexOf(Names(groups), name);
      groups[j := groups[j].(items := groups[j].items + [item])]
    else groups + [Group(name, [item])]
  }

  /** The groups after reducing over `items`, in the order they were created. */
  function GroupsOf(items: seq<Value>, key: string): seq<Group>
    decreases |items|
  {
    if |items| == 0 then []
    else
      var t := items[..|items| - 1];
      var x := items[|items| - 1];
      AddToGroups(GroupsOf(t, key), GroupName(x, key), x)
  }

  /** Whether some element of `s` satisfies `p`, scanning from the end. */
  predicate Any<T>(s: seq<T>, p: T -> bool)
    decreases |s|
  {
    |s| > 0 && (Any(s[..|s| - 1], p) || p(s[|s| - 1]))
  }

  lemma AnyPrefix<T>(s: seq<T>, p: T -> bool, i: nat)
    requires i < |s|
    ensures Any(s[..i + 1], p) <==> Any(s[..i], p) || p(s[i])
  {
    assert s[..i + 1][..i] == s[..i];
  }

  lemma {:induction false} AnyExactly<T>(s: seq<T>, p: T -> bool)
    ensures Any(s, p) <==> exists i :: 0 <= i < |s| && p(s[i])
    decreases |s|
  {
    if |s| > 0 {
      var t := s[..|s| - 1];
      AnyExactly(t, p);
      if Any(t, p) {
        var i :| 0 <= i < |t| && p(t[i]);
        assert s[i] == t[i];
      }
      if exists i :: 0 <= i < |s| && p(s[i]) {
        var i :| 0 <= i < |s| && p(s[i]);
        if i < |t| {
          assert t[i] == s[i];
        }
      }
    }
  }

  /** The items `groupBy` cannot push: their group name is inherited. */
  function Unpushable(key: string): Value -> bool {
    item => Inherited(GroupName(item, key))
  }

  /** `groupBy` throws exactly when some item's group name is inherited. */
  lemma GroupByThrowsExactly(items: seq<Value>, key: string)
    ensures Any(items, Unpushable(key)) <==>
            exists i :: 0 <= i < |items| && Inherited(GroupName(items[i], key))
  {
    AnyExactly(items, Unpushable(key));
  }

  /** `groupBy(array, key)`; `None` when an item's group name is an
      inherited property and the `push` throws. */
  method GroupBy(items: seq<Value>, key: string) returns (r: Option<seq<Group>>)
    ensures r.None? <==> Any(items, Unpushable(key))
    ensures r.Some? ==> r.value == GroupsOf(items, key)
  {
    var groups: seq<Group> := [];
    var i := 0;
    while i < |items|
      invariant 0 <= i <= |items|
      invariant groups == GroupsOf(items[..i], key)
      invariant !Any(items[..i], Unpushable(key))
    {
      var item := items[i];
      var name := GroupName(item, key);
      if Inherited(name) {
        AnyExactly(items, Unpushable(key));
        return None;
      }
      GroupsOfPrefix(items, key, i);
      AnyPrefix(items, Unpushable(key), i);
      groups := AddToGroups(groups, name, item);
      i := i + 1;
    }
    assert items[..i] == items;
    r := Some(groups);
  }

  lemma GroupsOfPrefix(items: seq<Value>, key: string, i: nat)
    requires i < |items|
    ensures GroupsOf(items[..i + 1], key) ==
            AddToGroups(GroupsOf(items[..i], key), GroupName(items[i], key), items[i])
  {
    assert items[..i + 1][..i] == items[..i];
  }

  /** The groups have distinct names, created in the order the names first
      occur among the items. */
  lemma {:induction false} GroupsOfNames(items: seq<Value>, key: string)
    ensures Names(GroupsOf(items, key)) == Distinct(GroupNames(items, key))
    decreases |items|
  {
    if |items| > 0 {
      var t := items[..|items| - 1];
      var x := items[|items| - 1];
      var n := GroupName(x, key);
      GroupsOfNames(t, key);
      DistinctSnoc(GroupNames(t, key), n);
      AddToGroupsNames(GroupsOf(t, key), n, x);
    }
  }

  /** Adding an item creates a group exactly when its name is new. */
  lemma AddToGroupsNames(groups: seq<Group>, name: string, item: Value)
    ensures Names(AddToGroups(groups, name, item)) ==
            if name in Names(groups) then Names(groups) else Names(groups) + [name]
  {
    if name in Names(groups) {
      assert Names(AddToGroups(groups, name, item)) == Names(groups);
    } else {
      assert Names(AddToGroups(groups, name, item)) == Names(groups) + [name];
    }
  }

  lemma GroupsNamesDistinct(items: seq<Value>, key: string)
    ensures NoDuplicates(Names(GroupsOf(items, key)))
  {
    GroupsOfNames(items, key);
    DistinctNoDuplicates(GroupNames(items, key));
  }

  /** Every group holds exactly the items with its name, in input order. */
  lemma {:induction false} GroupsOfItems(items: seq<Value>, key: string, j: nat)
    requires j < |GroupsOf(items, key)|
    ensures GroupsOf(items, key)[j].items ==
            Filter(items, NameIs(key, GroupsOf(items, key)[j].name))
    decreases |items|
  {
    var t := items[..|items| - 1];
    var x := items[|items| - 1];
    var n := GroupName(x, key);
    var g := GroupsOf(t, key);
    var G := GroupsOf(items, key);
    assert G == AddToGroups(g, n, x);
    var name := G[j].name;
    assert items == t + [x];
    FilterSnoc(t, x, NameIs(key, name));
    if n in Names(g) {
      var k := IndexOf(Names(g), n);
      assert G == g[k := g[k].(items := g[k].items + [x])];
      assert G[j].name == g[j].name;
      GroupsOfItems(t, key, j);
      if j != k {
        GroupsNamesDistinct(t, key);
        assert Names(g)[j] != Names(g)[k];
      }
    } else if j < |g| {
      assert G[j] == g[j];
      assert Names(g)[j] == name;
      GroupsOfItems(t, key, j);
    } else {
      assert G[j] == Group(n, [x]);
      NewNameNoItems(t, key, n);
    }
  }

  /** A name that is not yet a group's name is no item's name. */
  lemma {:induction false} NewNameNoItems(t: seq<Value>, key: string, n: string)
    requires n !in Names(GroupsOf(t, key))
    ensures Filter(t, NameIs(key, n)) == []
  {
    GroupsOfNames(t, key);
    forall y | y in t ensures !NameIs(key, n)(y) {
      GroupNamesMember(t, key, y);
      DistinctMembership(GroupNames(t, key), GroupName(y, key));
    }
    FilterNone(t, NameIs(key, n));
  }

  function GroupSize(g: Group): int { |g.items| }

  lemma {:induction false} SumUpdate<T>(s: seq<T>, j: nat, y: T, f: T -> int)
    requires j < |s|
    ensures Sum(s[j := y], f) == Sum(s, f) - f(s[j]) + f(y)
    decreases |s|
  {
    var n := |s|;
    if j < n - 1 {
      assert s[j := y][..n - 1] == s[..n - 1][j := y];
      SumUpdate(s[..n - 1], j, y, f);
    } else {
      assert s[j := y][..n - 1] == s[..n - 1];
    }
  }

  /** The group sizes add up to the number of items. */
  lemma {:induction false} GroupSizesSum(items: seq<Value>, key: string)
    ensures Sum(GroupsOf(items, key), GroupSize) == |items|
    decreases |items|
  {
    if |items| > 0 {
      var t := items[..|items| - 1];
      var x := items[|items| - 1];
      var g := GroupsOf(t, key);
      var n := GroupName(x, key);
      GroupSizesSum(t, key);
      if n in Names(g) {
        var j := IndexOf(Names(g), n);
        SumUpdate(g, j, g[j].(items := g[j].items + [x]), GroupSize);
      } else {
        SumSnoc(g, Group(n, [x]), GroupSize);
      }
    }
  }

  // ------------------------------------------------ slugify

  /** `[\w\s-]`: what the first replacement keeps. */
  predicate SlugKeeps(c: char) { IsWordChar(c) || IsSpace(c) || c == '-' }

  /** `[\s_-]`: what the second replacement turns into one hyphen per run. */
  predicate IsSeparator(c: char) { IsSpace(c) || c == '_' || c == '-' }

  function DropSeparators(s: string): (r: string)
    ensures |r| <= |s| && r == s[|s| - |r|..]
    ensures r == [] || !IsSeparator(r[0])
  {
    if |s| > 0 && IsSeparator(s[0]) then DropSeparators(s[1..]) else s
  }

  /** `.replace(/[\s_-]+/g, '-')`. */
  function Collapse(s: string): string
    decreases |s|
  {
    if |s| == 0 then ""
    else if IsSeparator(s[0]) then "-" + Collapse(DropSeparators(s[1..]))
    else [s[0]] + Collapse(s[1..])
  }

  function TrimLeadingHyphens(s: string): (r: string)
    ensures |r| <= |s| && r == s[|s| - |r|..]
    ensures r == [] || r[0] != '-'
  {
    if |s| > 0 && s[0] == '-' then TrimLeadingHyphens(s[1..]) else s
  }

  function TrimTrailingHyphens(s: string): (r: string)
    ensures |r| <= |s| && r == s[..|r|]
    ensures r == [] || r[|r| - 1] != '-'
  {
    if |s| > 0 && s[|s| - 1] == '-' then TrimTrailingHyphens(s[..|s| - 1]) else s
  }

  /** `slugify(text)`: lower-case, drop what is not a word character, space
      or hyphen, turn each run of spaces, underscores and hyphens into one
      hyphen, and strip hyphens at both ends. */
  function Slugify(text: string): string {
    TrimTrailingHyphens(TrimLeadingHyphens(Collapse(Filter(Lower(text), SlugKeeps))))
  }

  predicate SlugChar(c: char) { IsLowerAscii(c) || IsDigit(c) || c == '-' }

  predicate NoDoubleHyphen(s: string) {
    forall i :: 0 <= i < |s| - 1 ==> !(s[i] == '-' && s[i + 1] == '-')
  }

  /** What a slug looks like: lower-case letters, digits and single inner hyphens. */
  predicate IsSlug(s: string) {
    (forall i :: 0 <= i < |s| ==> SlugChar(s[i]))
    && (s == [] || (s[0] != '-' && s[|s| - 1] != '-'))
    && NoDoubleHyphen(s)
  }

  /** Characters a slug is cut from after the first replacement. */
  predicate Kept(c: char) { IsLowerAscii(c) || IsDigit(c) || IsSeparator(c) }

  lemma {:induction false} LowerHasNoUpper(text: string, c: char)
    requires c in Lower(text)
    ensures !IsUpperAscii(c)
  {
    var i :| 0 <= i < |Lower(text)| && Lower(text)[i] == c;
    assert c == LowerChar(text[i]);
  }

  lemma {:induction false} StrippedChars(text: string)
    ensures forall i :: 0 <= i < |Filter(Lower(text), SlugKeeps)| ==> Kept(Filter(Lower(text), SlugKeeps)[i])
  {
    var l := Lower(text);
    var f := Filter(l, SlugKeeps);
    forall i | 0 <= i < |f| ensures Kept(f[i]) {
      FilterMembership(l, SlugKeeps, f[i]);
      LowerHasNoUpper(text, f[i]);
    }
  }

  /** What `Collapse` starts with: a kept character, or the hyphen of a
      leading run of separators. */
  lemma CollapseHead(s: string)
    requires |s| > 0
    ensures |Collapse(s)| > 0
    ensures Collapse(s)[0] == if IsSeparator(s[0]) then '-' else s[0]
  {
  }

  lemma {:induction false} CollapseFacts(s: string)
    requires forall i :: 0 <= i < |s| ==> Kept(s[i])
    ensures forall i :: 0 <= i < |Collapse(s)| ==> SlugChar(Collapse(s)[i])
    ensures NoDoubleHyphen(Collapse(s))
    decreases |s|
  {
    if |s| > 0 {
      var sep := IsSeparator(s[0]);
      var rest := if sep then DropSeparators(s[1..]) else s[1..];
      KeptSuffix(s, |s| - |rest|);
      assert rest == s[|s| - |rest|..];
      CollapseFacts(rest);
      var c := Collapse(rest);
      var head := if sep then '-' else s[0];
      assert Collapse(s) == [head] + c;
      if |c| > 0 && sep {
        CollapseHead(rest);
      }
      Prepend(head, c);
    }
  }

  lemma {:induction false} KeptSuffix(s: string, k: nat)
    requires k <= |s|
    requires forall i :: 0 <= i < |s| ==> Kept(s[i])
    ensures forall i :: 0 <= i < |s[k..]| ==> Kept(s[k..][i])
  {
    forall i | 0 <= i < |s[k..]| ensures Kept(s[k..][i]) {
      assert s[k..][i] == s[k + i];
    }
  }

  lemma {:induction false} Prepend(head: char, c: string)
    requires SlugChar(head)
    requires forall i :: 0 <= i < |c| ==> SlugChar(c[i])
    requires NoDoubleHyphen(c)
    requires !(head == '-' && |c| > 0 && c[0] == '-')
    ensures forall i :: 0 <= i < |[head] + c| ==> SlugChar(([head] + c)[i])
    ensures NoDoubleHyphen([head] + c)
  {
    var r := [head] + c;
    forall i | 0 <= i < |r| - 1 ensures !(r[i] == '-' && r[i + 1] == '-') {
      assert r[i + 1] == c[i];
      if i > 0 {
        assert r[i] == c[i - 1];
      }
    }
    forall i | 0 <= i < |r| ensures SlugChar(r[i]) {
      if i > 0 {
        assert r[i] == c[i - 1];
      }
    }
  }

  /** A piece of a string keeps its characters and its single hyphens. */
  lemma {:induction false} SlugPiece(c: string, lo: nat, hi: nat)
    requires lo <= hi <= |c|
    requires forall i :: 0 <= i < |c| ==> SlugChar(c[i])
    requires NoDoubleHyphen(c)
    ensures forall i :: 0 <= i < hi - lo ==> SlugChar(c[lo..hi][i])
    ensures NoDoubleHyphen(c[lo..hi])
  {
    var p := c[lo..hi];
    forall i | 0 <= i < |p| - 1 ensures !(p[i] == '-' && p[i + 1] == '-') {
      assert p[i] == c[lo + i] && p[i + 1] == c[lo + i + 1];
    }
  }

  /** Whatever the text, the result is a slug. */
  lemma {:induction false} SlugifyIsSlug(text: string)
    ensures IsSlug(Slugify(text))
  {
    var f := Filter(Lower(text), SlugKeeps);
    StrippedChars(text);
    CollapseFacts(f);
    TrimmedSlug(Collapse(f));
  }

  lemma {:induction false} TrimmedSlug(c: string)
    requires forall i :: 0 <= i < |c| ==> SlugChar(c[i])
    requires NoDoubleHyphen(c)
    ensures IsSlug(TrimTrailingHyphens(TrimLeadingHyphens(c)))
  {
    var a := TrimLeadingHyphens(c);
    SlugPiece(c, |c| - |a|, |c|);
    TrimmedEnd(a);
  }

  lemma {:induction false} TrimmedEnd(a: string)
    requires forall i :: 0 <= i < |a| ==> SlugChar(a[i])
    requires NoDoubleHyphen(a)
    requires a == [] || a[0] != '-'
    ensures IsSlug(TrimTrailingHyphens(a))
  {
    var b := TrimTrailingHyphens(a);
    SlugPiece(a, 0, |b|);
    if b != [] {
      assert b[0] == a[0];
    }
  }

  lemma {:induction false} CollapseSlug(s: string)
    requires forall i :: 0 <= i < |s| ==> SlugChar(s[i])
    requires NoDoubleHyphen(s)
    ensures Collapse(s) == s
    decreases |s|
  {
    if |s| > 0 {
      var t := s[1..];
      SlugPiece(s, 1, |s|);
      assert s[1..|s|] == t;
      CollapseSlug(t);
      if s[0] == '-' {
        if |t| > 0 {
          assert s[1] == t[0];
          SlugCharSeparator(t[0]);
        }
        assert DropSeparators(t) == t;
      } else {
        SlugCharSeparator(s[0]);
      }
      assert Collapse(s) == [s[0]] + Collapse(t);
    }
  }

  /** The only separator a slug contains is the hyphen. */
  lemma SlugCharSeparator(c: char)
    requires SlugChar(c)
    ensures IsSeparator(c) <==> c == '-'
  {
  }

  /** A slug is its own slug, so slugifying twice is slugifying once. */
  lemma {:induction false} SlugifySlug(s: string)
    requires IsSlug(s)
    ensures Slugify(s) == s
  {
    LowerSlug(s);
    KeepsSlug(s);
    CollapseSlug(s);
    assert TrimLeadingHyphens(s) == s;
    assert TrimTrailingHyphens(s) == s;
  }

  lemma {:induction false} LowerSlug(s: string)
    requires forall i :: 0 <= i < |s| ==> SlugChar(s[i])
    ensures Lower(s) == s
  {
    forall i | 0 <= i < |s| ensures Lower(s)[i] == s[i] {
      assert !IsUpperAscii(s[i]);
    }
  }

  lemma {:induction false} KeepsSlug(s: string)
    requires forall i :: 0 <= i < |s| ==> SlugChar(s[i])
    ensures Filter(s, SlugKeeps) == s
  {
    forall x | x in s ensures SlugKeeps(x) {
      var i :| 0 <= i < |s| && s[i] == x;
    }
    FilterAll(s, SlugKeeps);
  }

  lemma SlugifyIdempotent(text: string)
    ensures Slugify(Slugify(text)) == Slugify(text)
  {
    SlugifyIsSlug(text);
    SlugifySlug(Slugify(text));
  }

  // ------------------------------------------------ truncate

  const DefaultTruncateLength := 100
  const DefaultSuffix := "..."

  /** `truncate(text, length, suffix)`; `substring(0, length)` treats a
      negative length as 0. */
  function Truncate(text: string, length: int, suffix: string): (r: string)
    ensures |text| <= length ==> r == text
    ensures |text| > length ==>
      |suffix| <= |r| <= Max(length, 0) + |suffix| && r[|r| - |suffix|..] == suffix &&
      r[..|r| - |suffix|] == Trim(text[..Max(length, 0)])
  {
    if |text| <= length then text
    else Trim(text[..Max(length, 0)]) + suffix
  }

  /** A shortened text is strictly shorter than the original found it
      whenever the suffix is shorter than what was cut away. */
  lemma TruncateShortens(text: string, length: int, suffix: string)
    requires |text| > length >= 0 && |suffix| < |text| - length
    ensures |Truncate(text, length, suffix)| < |text|
  {
  }

  // ------------------------------------------------ isEmpty

  /** `isEmpty(obj)`. */
  predicate IsEmpty(v: Value) {
    match v
    case Null => true
    case Undefined => true
    case Arr(items) => |items| == 0
    case Obj(props) => |Keys(props)| == 0
    case _ => false
  }

  /** Exactly `null`, `undefined`, `[]` and `{}` are empty; an empty string,
      `0` and `false` are not. */
  lemma {:induction false} IsEmptyExactly(v: Value)
    ensures IsEmpty(v) <==> v == Null || v == Undefined || v == Arr([]) || v == Obj([])
    ensures !IsEmpty(Str("")) && !IsEmpty(Num(0)) && !IsEmpty(Bool(false))
  {
    if v.Obj? && |v.props| > 0 {
      assert Keys(v.props) == [v.props[0].key] + Keys(v.props[1..]);
    }
  }
}
