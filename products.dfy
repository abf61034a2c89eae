/**
 * The machine listing page: grouping the fetched machines by category, the location filter,
 * the search box that selects a category, and the "load more categories" window.
 */
module Products {
  import opened Wrappers
  import opened Js
  import opened Seqs

  /** A listed machine, reduced to what the page reads: its id, category and optional location. */
  datatype Machine = Machine(id: string, category: string, location: Option<string>)

  /** `machine => machine.category === c`, as a value so that every use names the same predicate. */
  function InCategory(c: string): Machine -> bool {
    (m: Machine) => m.category == c
  }

  /** The machines of category `c`, in the order they were fetched. */
  function OfCategory(ms: seq<Machine>, c: string): seq<Machine> {
    Filter(ms, InCategory(c))
  }

  /** The categories that occur among the machines. */
  function Categories(ms: seq<Machine>): set<string> {
    set m | m in ms :: m.category
  }

  /** The grouping the page is meant to build: one entry per occurring category, holding its machines. */
  function Grouping(ms: seq<Machine>): map<string, seq<Machine>> {
    map c | c in Categories(ms) :: OfCategory(ms, c)
  }

  /** A category that does not occur has no machines. */
  lemma {:induction false} AbsentCategoryIsEmpty(ms: seq<Machine>, c: string)
    requires c !in Categories(ms)
    ensures OfCategory(ms, c) == []
  {
    var r := OfCategory(ms, c);
    if r != [] {
      FilterMembership(ms, InCategory(c), r[0]);
    }
  }

  /** One step of the `reduce`: `m` appended to its category's list, which starts empty when missing. */
  function Push(acc: map<string, seq<Machine>>, m: Machine): map<string, seq<Machine>> {
    acc[m.category := (if m.category in acc then acc[m.category] else []) + [m]]
  }

  /** Appending one machine to the input pushes it onto its own group and changes no other group. */
  lemma GroupingSnoc(ms: seq<Machine>, m: Machine)
    ensures Grouping(ms + [m]) == Push(Grouping(ms), m)
  {
    var g := Grouping(ms);
    var g' := Grouping(ms + [m]);
    var rhs := Push(g, m);
    forall x
      ensures x in Categories(ms + [m]) <==> x in Categories(ms) || x == m.category
    {
      if x in Categories(ms) {
        var w :| w in ms && w.category == x;
        assert w in ms + [m];
      }
      assert (ms + [m])[|ms|] == m;
    }
    assert g'.Keys == rhs.Keys;
    forall d | d in g'
      ensures g'[d] == rhs[d]
    {
      FilterSnoc(ms, m, InCategory(d));
      if d !in Categories(ms) {
        AbsentCategoryIsEmpty(ms, d);
      }
    }
  }

  /** The grouping of one more fetched machine is one more `Push`. */
  lemma GroupingPrefix(ms: seq<Machine>, i: nat)
    requires i < |ms|
    ensures Grouping(ms[..i + 1]) == Push(Grouping(ms[..i]), ms[i])
  {
    assert ms[..i + 1] == ms[..i] + [ms[i]];
    GroupingSnoc(ms[..i], ms[i]);
  }

  /**
   * The properties every plain object `{}` inherits from `Object.prototype`. Each is truthy (a
   * function, or the prototype itself for `__proto__`) and none has a `push`.
   */
  const OBJECT_PROTOTYPE_KEYS: set<string> := {
    "constructor", "hasOwnProperty", "isPrototypeOf", "propertyIsEnumerable", "toString",
    "toLocaleString", "valueOf", "__proto__", "__defineGetter__", "__defineSetter__",
    "__lookupGetter__", "__lookupSetter__"}

  /** No machine's category names an inherited property of the accumulator. */
  predicate Groupable(ms: seq<Machine>) {
    forall k :: 0 <= k < |ms| ==> ms[k].category !in OBJECT_PROTOTYPE_KEYS
  }

  /**
   * The `reduce` of the fetch effect: for each machine, create its category's list when the
   * accumulator has none, then push the machine onto it. The accumulator is a plain `{}`, so for
   * a category such as "toString" the lookup finds the inherited property, skips the creation and
   * `push` throws: the whole grouping fails (`None`).
   */
  method GroupByCategory(machines: seq<Machine>) returns (groups: Option<map<string, seq<Machine>>>)
    ensures groups.Some? <==> Groupable(machines)
    ensures groups.Some? ==> groups.value == Grouping(machines)
  {
    var acc: map<string, seq<Machine>> := map[];
    for i := 0 to |machines|
      invariant acc == Grouping(machines[..i])
      invariant Groupable(machines[..i])
    {
      var m := machines[i];
      if m.category in OBJECT_PROTOTYPE_KEYS {
        assert !Groupable(machines);
        return None;
      }
      acc := AddToGroup(acc, m);
      GroupingPrefix(machines, i);
      GroupablePrefix(machines, i);
    }
    assert machines[..|machines|] == machines;
    return Some(acc);
  }

  /** One step of the `reduce` body: create the category's list when missing, then push. */
  method AddToGroup(acc: map<string, seq<Machine>>, m: Machine) returns (acc': map<string, seq<Machine>>)
    ensures acc' == Push(acc, m)
  {
    acc' := acc;
    if m.category !in acc' {
      acc' := acc'[m.category := []];
    }
    acc' := acc'[m.category := acc'[m.category] + [m]];
  }

  /** One more groupable machine extends a groupable prefix. */
  lemma GroupablePrefix(ms: seq<Machine>, i: nat)
    requires i < |ms| && Groupable(ms[..i]) && ms[i].category !in OBJECT_PROTOTYPE_KEYS
    ensures Groupable(ms[..i + 1])
  {
    assert forall k :: 0 <= k < i ==> ms[..i + 1][k] == ms[..i][k];
  }

  /**
   * Every machine lands in exactly one group: a machine is in the group keyed `c` if and only if
   * it was fetched and its category is `c`.
   */
  lemma MachineInItsOwnGroup(ms: seq<Machine>, m: Machine, c: string)
    ensures (c in Grouping(ms) && m in Grouping(ms)[c]) <==> (m in ms && m.category == c)
  {
    FilterMembership(ms, InCategory(c), m);
  }

  /** Each group lists its machines in the order they were fetched. */
  lemma GroupKeepsOrder(ms: seq<Machine>, c: string)
    requires c in Grouping(ms)
    ensures IsSubsequence(Grouping(ms)[c], ms)
  {
    FilterIsSubsequence(ms, InCategory(c));
  }

  /** The sum of the lengths of the lists stored under the keys `ks`. */
  ghost function SumSizes(g: map<string, seq<Machine>>, ks: set<string>): nat
    requires ks <= g.Keys
  {
    if ks == {} then 0
    else
      var c :| c in ks;
      |g[c]| + SumSizes(g, ks - {c})
  }

  /** The number of machines held by all groups together. */
  ghost function TotalSize(g: map<string, seq<Machine>>): nat {
    SumSizes(g, g.Keys)
  }

  /** Any key may be taken out of the sum first. */
  lemma {:induction false} SumSizesRemove(g: map<string, seq<Machine>>, ks: set<string>, k: string)
    requires ks <= g.Keys && k in ks
    ensures SumSizes(g, ks) == |g[k]| + SumSizes(g, ks - {k})
    decreases ks
  {
    var c :| c in ks && SumSizes(g, ks) == |g[c]| + SumSizes(g, ks - {c});
    if c != k {
      SumSizesRemove(g, ks - {c}, k);
      SumSizesRemove(g, ks - {k}, c);
      assert ks - {c} - {k} == ks - {k} - {c};
    }
  }

  /** The sum only depends on the lists stored under the summed keys. */
  lemma {:induction false} SumSizesAgree(g: map<string, seq<Machine>>, h: map<string, seq<Machine>>, ks: set<string>)
    requires ks <= g.Keys && ks <= h.Keys
    requires forall k :: k in ks ==> g[k] == h[k]
    ensures SumSizes(g, ks) == SumSizes(h, ks)
    decreases ks
  {
    if ks != {} {
      var c :| c in ks && SumSizes(g, ks) == |g[c]| + SumSizes(g, ks - {c});
      SumSizesRemove(h, ks, c);
      SumSizesAgree(g, h, ks - {c});
    }
  }

  /** Storing `v` under `c` replaces what `c` held before, if anything, by `|v|`. */
  lemma TotalSizeUpdate(g: map<string, seq<Machine>>, c: string, v: seq<Machine>)
    ensures TotalSize(g[c := v]) + (if c in g then |g[c]| else 0) == TotalSize(g) + |v|
  {
    var g' := g[c := v];
    var others := g.Keys - {c};
    assert g'.Keys - {c} == others;
    SumSizesRemove(g', g'.Keys, c);
    SumSizesAgree(g, g', others);
    assert TotalSize(g') == |v| + SumSizes(g, others);
    if c in g {
      SumSizesRemove(g, g.Keys, c);
    } else {
      assert others == g.Keys;
    }
  }

  /** The group sizes add up to the number of fetched machines: nothing is lost or duplicated. */
  lemma {:induction false} GroupSizesSum(ms: seq<Machine>)
    ensures TotalSize(Grouping(ms)) == |ms|
  {
    if ms == [] {
      assert Grouping(ms) == map[];
    } else {
      var init := ms[..|ms| - 1];
      var m := ms[|ms| - 1];
      assert ms == init + [m];
      GroupSizesSum(init);
      GroupingSnoc(init, m);
      var g := Grouping(init);
      TotalSizeUpdate(g, m.category, (if m.category in g then g[m.category] else []) + [m]);
    }
  }

  /**
   * `filteredMachines`' test: an empty location query passes everything; otherwise the machine
   * needs a location whose lower-cased text contains the lower-cased query.
   */
  function LocationMatches(locationQuery: string): (p: Machine -> bool)
    ensures locationQuery == "" ==> forall m: Machine :: p(m)
    ensures forall m: Machine :: m.location.None? ==> (p(m) <==> locationQuery == "")
    ensures forall m: Machine :: m.location == Some(locationQuery) ==> p(m)
  {
    (m: Machine) =>
      locationQuery == "" ||
      (m.location.Some? && Includes(ToLowerCase(m.location.value), ToLowerCase(locationQuery)))
  }

  /** `filteredMachines`: the machines passing the location test, in their original order. */
  function FilteredMachines(ms: seq<Machine>, locationQuery: string): (r: seq<Machine>)
    ensures forall m :: m in r <==> m in ms && LocationMatches(locationQuery)(m)
    ensures IsSubsequence(r, ms)
  {
    FilterMembers(ms, LocationMatches(locationQuery));
    FilterIsSubsequence(ms, LocationMatches(locationQuery));
    Filter(ms, LocationMatches(locationQuery))
  }

  /** With no location typed, the filter returns its input unchanged. */
  lemma EmptyLocationQueryKeepsAll(ms: seq<Machine>)
    ensures FilteredMachines(ms, "") == ms
  {
    FilterAll(ms, LocationMatches(""));
  }

  /**
   * With a location typed, a machine is kept exactly when it has a location containing the
   * query, ignoring case; machines without a location are dropped. The survivors keep their order.
   */
  lemma LocationFilterKeeps(ms: seq<Machine>, locationQuery: string, m: Machine)
    requires locationQuery != ""
    ensures m in FilteredMachines(ms, locationQuery) <==>
      m in ms && m.location.Some? && Includes(ToLowerCase(m.location.value), ToLowerCase(locationQuery))
    ensures IsSubsequence(FilteredMachines(ms, locationQuery), ms)
  {
    FilterMembership(ms, LocationMatches(locationQuery), m);
    FilterIsSubsequence(ms, LocationMatches(locationQuery));
  }

  /** Lower-casing twice is lower-casing once. */
  lemma ToLowerCaseIdempotent(s: string)
    ensures ToLowerCase(ToLowerCase(s)) == ToLowerCase(s)
  {
    var l := ToLowerCase(s);
    assert forall k :: 0 <= k < |s| ==> LowerChar(l[k]) == l[k];
  }

  /** Filters that agree on every element produce the same result. */
  lemma {:induction false} FilterSamePredicate<T>(s: seq<T>, p: T -> bool, q: T -> bool)
    requires forall x :: p(x) == q(x)
    ensures Filter(s, p) == Filter(s, q)
  {
    if s != [] {
      FilterSamePredicate(s[..|s| - 1], p, q);
    }
  }

  /** The location query's case makes no difference. */
  lemma LocationQueryCaseInsensitive(ms: seq<Machine>, locationQuery: string)
    ensures FilteredMachines(ms, ToLowerCase(locationQuery)) == FilteredMachines(ms, locationQuery)
  {
    ToLowerCaseIdempotent(locationQuery);
    FilterSamePredicate(ms, LocationMatches(ToLowerCase(locationQuery)), LocationMatches(locationQuery));
  }

  /**
   * `handleSearch`'s `q.charAt(0).toUpperCase() + q.slice(1)`: the first character upper-cased,
   * the rest untouched, and "" for an empty query.
   */
  function Capitalize(q: string): (r: string)
    ensures |r| == |q|
    ensures q != "" ==> r[0] == (if 'a' <= q[0] <= 'z' then (q[0] as int - 32) as char else q[0])
    ensures q != "" ==> !('a' <= r[0] <= 'z')
    ensures forall k :: 1 <= k < |q| ==> r[k] == q[k]
  {
    if q == "" then "" else [UpperChar(q[0])] + q[1..]
  }

  /** Capitalising an already capitalised query changes nothing. */
  lemma CapitalizeIdempotent(q: string)
    ensures Capitalize(Capitalize(q)) == Capitalize(q)
  {
    if q != "" {
      var r := Capitalize(q);
      assert r == [UpperChar(q[0])] + q[1..];
      assert UpperChar(r[0]) == r[0];
      assert r[1..] == q[1..];
    }
  }

  /**
   * The machines a category's grid shows: its location-filtered machines when no category is
   * selected (a falsy selection, including the "" an empty search yields) or this one is, and
   * none otherwise.
   */
  function ShownInCategory(group: seq<Machine>, category: string, selected: Option<string>, locationQuery: string)
    : (r: seq<Machine>)
    ensures !Truthy(selected) || selected == Some(category) ==> r == FilteredMachines(group, locationQuery)
    ensures Truthy(selected) && selected != Some(category) ==> r == []
    ensures forall k :: 0 <= k < |r| ==> LocationMatches(locationQuery)(r[k])
    ensures IsSubsequence(r, group)
  {
    FilterIsSubsequence(group, LocationMatches(locationQuery));
    if !Truthy(selected) || selected == Some(category) then FilteredMachines(group, locationQuery) else []
  }

  /** With no filter set, every category shows all of its machines. */
  lemma UnfilteredShowsWholeGroup(group: seq<Machine>, category: string)
    ensures ShownInCategory(group, category, None, "") == group
  {
    EmptyLocationQueryKeepsAll(group);
  }

  /** Searching with an empty box selects "", which is falsy: no category is hidden. */
  lemma EmptySearchHidesNoCategory(group: seq<Machine>, category: string, locationQuery: string)
    ensures ShownInCategory(group, category, Some(Capitalize("")), locationQuery) ==
      FilteredMachines(group, locationQuery)
  {
  }

  /** `Object.entries(machinesByCategory).slice(0, displayedCategories)`, given the enumeration order. */
  function Window(order: seq<string>, displayed: nat): (r: seq<string>)
    ensures |r| == if displayed < |order| then displayed else |order|
    ensures r == order[..|r|]
  {
    if displayed < |order| then order[..displayed] else order
  }

  /** `order` lists every key of the grouping exactly once (in whatever order `Object.entries` uses). */
  ghost predicate Enumerates(order: seq<string>, keys: set<string>) {
    (forall i, j :: 0 <= i < j < |order| ==> order[i] != order[j]) &&
    (forall c :: c in order <==> c in keys)
  }

  /** An enumeration is as long as the set it enumerates. */
  lemma {:induction false} EnumerationSize(order: seq<string>, keys: set<string>)
    requires Enumerates(order, keys)
    ensures |order| == |keys|
  {
    if order != [] {
      var last := order[|order| - 1];
      var init := order[..|order| - 1];
      assert forall c :: c in order <==> c in init || c == last;
      assert last !in init;
      EnumerationSize(init, keys - {last});
    } else {
      assert keys == {};
    }
  }

  /**
   * "Load More Categories" shows when `displayedCategories` is below the number of categories,
   * which is exactly when some category is not yet shown.
   */
  lemma LoadMoreShownIffSomeHidden(order: seq<string>, keys: set<string>, displayed: nat)
    requires Enumerates(order, keys)
    ensures displayed < |keys| <==> exists c :: c in keys && c !in Window(order, displayed)
  {
    EnumerationSize(order, keys);
    var w := Window(order, displayed);
    if displayed < |keys| {
      var c := order[displayed];
      assert c in keys;
      assert c !in w;
    } else {
      assert w == order;
    }
  }

  /** Loading more keeps the categories already shown, in place, and adds at most four. */
  lemma LoadMoreExtendsWindow(order: seq<string>, displayed: nat)
    ensures var before := Window(order, displayed);
      var after := Window(order, displayed + 4);
      before == after[..|before|] && |after| <= |before| + 4
  {
  }

  /** The page's state. */
  class ProductsPage {
    var machines: seq<Machine>
    var machinesByCategory: map<string, seq<Machine>>
    var loading: bool
    var selectedCategory: Option<string>
    var searchQuery: string
    var locationQuery: string
    var displayedCategories: nat
    var sortBy: string

    /** The grouping always matches the machines, and the window grows from 4 in steps of 4. */
    ghost predicate Valid()
      reads this
    {
      machinesByCategory == Grouping(machines) &&
      displayedCategories >= 4 && displayedCategories % 4 == 0
    }

    constructor ()
      ensures Valid()
      ensures machines == [] && machinesByCategory == map[] && loading
      ensures selectedCategory == None && searchQuery == "" && locationQuery == "" && sortBy == ""
      ensures displayedCategories == 4
    {
      machines := [];
      machinesByCategory := map[];
      loading := true;
      selectedCategory := None;
      searchQuery := "";
      locationQuery := "";
      displayedCategories := 4;
      sortBy := "";
    }

    /**
     * The fetch effect, given the response (`None` when the request failed): when the grouping
     * succeeds the machines and their grouping are stored; a failed request and a grouping that
     * throws both land in the `catch`, which stores nothing. Either way loading ends.
     */
    method FetchMachines(response: Option<seq<Machine>>)
      requires Valid()
      modifies this
      ensures Valid() && !loading
      ensures response.Some? && Groupable(response.value) ==>
        machines == response.value && machinesByCategory == Grouping(response.value)
      ensures response.None? || !Groupable(response.value) ==>
        machines == old(machines) && machinesByCategory == old(machinesByCategory)
      ensures selectedCategory == old(selectedCategory) && searchQuery == old(searchQuery)
      ensures locationQuery == old(locationQuery) && sortBy == old(sortBy)
      ensures displayedCategories == old(displayedCategories)
    {
      if response.Some? {
        var sorted := GroupByCategory(response.value);
        if sorted.Some? {
          machinesByCategory := sorted.value;
          machines := response.value;
        }
      }
      loading := false;
    }

    /** `handleLoadMoreCategories`: four more categories, nothing else changes. */
    method HandleLoadMoreCategories()
      requires Valid()
      modifies this
      ensures Valid()
      ensures displayedCategories == old(displayedCategories) + 4
      ensures machines == old(machines) && machinesByCategory == old(machinesByCategory)
      ensures selectedCategory == old(selectedCategory) && searchQuery == old(searchQuery)
      ensures locationQuery == old(locationQuery) && sortBy == old(sortBy) && loading == old(loading)
    {
      displayedCategories := displayedCategories + 4;
    }

    method HandleSearchQueryChange(value: string)
      modifies this
      ensures searchQuery == value
      ensures machines == old(machines) && machinesByCategory == old(machinesByCategory)
      ensures selectedCategory == old(selectedCategory) && locationQuery == old(locationQuery)
      ensures sortBy == old(sortBy) && loading == old(loading) && displayedCategories == old(displayedCategories)
    {
      searchQuery := value;
    }

    method HandleLocationQueryChange(value: string)
      modifies this
      ensures locationQuery == value
      ensures machines == old(machines) && machinesByCategory == old(machinesByCategory)
      ensures selectedCategory == old(selectedCategory) && searchQuery == old(searchQuery)
      ensures sortBy == old(sortBy) && loading == old(loading) && displayedCategories == old(displayedCategories)
    {
      locationQuery := value;
    }

    /** The sort dropdown stores its choice; nothing reads it when rendering. */
    method SetSortBy(value: string)
      modifies this
      ensures sortBy == value
      ensures machines == old(machines) && machinesByCategory == old(machinesByCategory)
      ensures selectedCategory == old(selectedCategory) && searchQuery == old(searchQuery)
      ensures locationQuery == old(locationQuery) && loading == old(loading)
      ensures displayedCategories == old(displayedCategories)
    {
      sortBy := value;
    }

    /** `handleSearch`: selects the category named by the capitalised query. */
    method HandleSearch()
      modifies this
      ensures selectedCategory == Some(Capitalize(searchQuery))
      ensures searchQuery == old(searchQuery) && locationQuery == old(locationQuery) && sortBy == old(sortBy)
      ensures machines == old(machines) && machinesByCategory == old(machinesByCategory)
      ensures loading == old(loading) && displayedCategories == old(displayedCategories)
    {
      selectedCategory := Some(Capitalize(searchQuery));
    }

    /** "View All" on a category header selects it; "Show Less" and the chip's delete clear the selection. */
    method SelectCategory(category: Option<string>)
      modifies this
      ensures selectedCategory == category
      ensures searchQuery == old(searchQuery) && locationQuery == old(locationQuery) && sortBy == old(sortBy)
      ensures machines == old(machines) && machinesByCategory == old(machinesByCategory)
      ensures loading == old(loading) && displayedCategories == old(displayedCategories)
    {
      selectedCategory := category;
    }

    /**
     * `clearFilters`: empties both queries and the sort key and drops the selection, after which
     * every category shows all of its machines again.
     */
    method ClearFilters()
      requires Valid()
      modifies this
      ensures Valid()
      ensures searchQuery == "" && locationQuery == "" && selectedCategory == None && sortBy == ""
      ensures machines == old(machines) && machinesByCategory == old(machinesByCategory)
      ensures loading == old(loading) && displayedCategories == old(displayedCategories)
      ensures forall c :: c in machinesByCategory ==>
        ShownInCategory(machinesByCategory[c], c, selectedCategory, locationQuery) == OfCategory(machines, c)
    {
      searchQuery := "";
      locationQuery := "";
      selectedCategory := None;
      sortBy := "";
      forall c | c in machinesByCategory
        ensures ShownInCategory(machinesByCategory[c], c, selectedCategory, locationQuery) == OfCategory(machines, c)
      {
        UnfilteredShowsWholeGroup(machinesByCategory[c], c);
      }
    }
  }
}
