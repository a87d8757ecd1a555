/** The language roll-up of the GitHub statistics handler
    (app/api/github/route.ts:110-134): every language edge of every
    repository is folded into a table keyed by language name, then the
    table is turned into records with a percentage, sorted by size,
    largest first, and cut to five. */
module GithubLanguages {
  import opened Text

  /** One language edge of a repository: `{ size, node: { name, color } }`. */
  datatype Edge = Edge(size: nat, name: string, color: string)

  /** A repository's `languages.edges`; a repository without them has none. */
  datatype Repo = Repo(edges: seq<Edge>)

  /** One entry of `languageMap`: the key and its `{ size, color }` record. */
  datatype Entry = Entry(name: string, size: nat, color: string)

  /** One element of the `languages` output list. The handler formats
      `percentage` with `toFixed(1)`; here it is the exact ratio. */
  datatype Language = Language(name: string, color: string, percentage: real, size: nat)

  // ---------------------------------------------------------------------
  // The fold: specification

  /** The edges of all repositories, repository by repository. */
  function AllEdges(repos: seq<Repo>): seq<Edge>
  {
    if repos == [] then [] else AllEdges(repos[..|repos| - 1]) + repos[|repos| - 1].edges
  }

  /** The sum of the sizes of `edges`. */
  function SumSizes(edges: seq<Edge>): nat
  {
    if edges == [] then 0 else SumSizes(edges[..|edges| - 1]) + edges[|edges| - 1].size
  }

  /** Some edge is of language `name`. */
  predicate HasName(edges: seq<Edge>, name: string)
  {
    exists k :: 0 <= k < |edges| && edges[k].name == name
  }

  /** The sum of the sizes of the edges of language `name`. */
  function SizeOf(edges: seq<Edge>, name: string): nat
  {
    if edges == [] then 0
    else SizeOf(edges[..|edges| - 1], name)
         + (if edges[|edges| - 1].name == name then edges[|edges| - 1].size else 0)
  }

  /** The colour of the first edge of language `name`, if there is one. */
  function FirstColor(edges: seq<Edge>, name: string): Option<string>
  {
    if edges == [] then None
    else match FirstColor(edges[..|edges| - 1], name)
      case Some(c) => Some(c)
      case None => if edges[|edges| - 1].name == name then Some(edges[|edges| - 1].color) else None
  }

  /** No two entries of the table share a name. */
  predicate DistinctNames(table: seq<Entry>)
  {
    forall i, j :: 0 <= i < j < |table| ==> table[i].name != table[j].name
  }

  /** The position of `name` in the table, or `|table|` when it is absent. */
  function Lookup(table: seq<Entry>, name: string): (j: nat)
    ensures j <= |table|
    ensures j < |table| ==> table[j].name == name
    ensures j == |table| ==> forall i :: 0 <= i < |table| ==> table[i].name != name
  {
    if table == [] then 0
    else if table[0].name == name then 0
    else 1 + Lookup(table[1..], name)
  }

  /** One step of the fold (route.ts:117-121): add the edge's size to the
      entry of its language, or append a new entry with the edge's colour. */
  function AddEdge(table: seq<Entry>, e: Edge): seq<Entry>
  {
    var j := Lookup(table, e.name);
    if j < |table| then table[j := table[j].(size := table[j].size + e.size)]
    else table + [Entry(e.name, e.size, e.color)]
  }

  /** `languageMap` after folding `edges` into an empty table. */
  function FoldTable(edges: seq<Edge>): seq<Entry>
  {
    if edges == [] then [] else AddEdge(FoldTable(edges[..|edges| - 1]), edges[|edges| - 1])
  }

  // ---------------------------------------------------------------------
  // The fold: the handler's nested loops

  lemma AllEdgesStep(repos: seq<Repo>, r: nat)
    requires r < |repos|
    ensures AllEdges(repos[..r + 1]) == AllEdges(repos[..r]) + repos[r].edges
  {
    assert repos[..r + 1][..r] == repos[..r];
  }

  lemma FoldStep(prefix: seq<Edge>, edges: seq<Edge>, e: nat)
    requires e < |edges|
    ensures FoldTable(prefix + edges[..e + 1]) == AddEdge(FoldTable(prefix + edges[..e]), edges[e])
    ensures SumSizes(prefix + edges[..e + 1]) == SumSizes(prefix + edges[..e]) + edges[e].size
  {
    assert (prefix + edges[..e + 1])[..|prefix + edges[..e + 1]| - 1] == prefix + edges[..e];
  }

  /** route.ts:111-124: `languageMap` is updated in place edge by edge and
      `totalSize` accumulates every edge's size. */
  method BuildLanguageTable(repos: seq<Repo>) returns (table: seq<Entry>, totalSize: nat)
    ensures table == FoldTable(AllEdges(repos))
    ensures totalSize == SumSizes(AllEdges(repos))
  {
    table, totalSize := [], 0;
    for r := 0 to |repos|
      invariant table == FoldTable(AllEdges(repos[..r]))
      invariant totalSize == SumSizes(AllEdges(repos[..r]))
    {
      table, totalSize := AddRepo(table, totalSize, AllEdges(repos[..r]), repos[r].edges);
      AllEdgesStep(repos, r);
    }
    assert repos[..|repos|] == repos;
  }

  /** The inner loop of route.ts:116-122 over one repository's edges. */
  method AddRepo(table: seq<Entry>, totalSize: nat, ghost before: seq<Edge>, edges: seq<Edge>)
    returns (table': seq<Entry>, totalSize': nat)
    requires table == FoldTable(before) && totalSize == SumSizes(before)
    ensures table' == FoldTable(before + edges) && totalSize' == SumSizes(before + edges)
  {
    table', totalSize' := table, totalSize;
    assert before + edges[..0] == before;
    for e := 0 to |edges|
      invariant table' == FoldTable(before + edges[..e])
      invariant totalSize' == SumSizes(before + edges[..e])
    {
      var edge := edges[e];
      FoldStep(before, edges, e);
      var j := Lookup(table', edge.name);
      if j < |table'| {
        table' := table'[j := table'[j].(size := table'[j].size + edge.size)];
      } else {
        table' := table' + [Entry(edge.name, edge.size, edge.color)];
      }
      totalSize' := totalSize' + edge.size;
    }
    assert edges[..|edges|] == edges;
  }

  // ---------------------------------------------------------------------
  // The fold: what the table holds

  /** The sum of the sizes of the table's entries. */
  function SumEntries(table: seq<Entry>): nat
  {
    if table == [] then 0 else SumEntries(table[..|table| - 1]) + table[|table| - 1].size
  }

  lemma {:induction false} SumEntriesUpdate(table: seq<Entry>, j: nat, extra: nat)
    requires j < |table|
    ensures SumEntries(table[j := table[j].(size := table[j].size + extra)]) == SumEntries(table) + extra
  {
    var t := table[j := table[j].(size := table[j].size + extra)];
    var n := |table| - 1;
    if j < n {
      assert t[..n] == table[..n][j := table[j].(size := table[j].size + extra)];
      SumEntriesUpdate(table[..n], j, extra);
    } else {
      assert t[..n] == table[..n];
    }
  }

  /** The table's sizes add up to `totalSize`: no edge is lost or counted twice. */
  lemma {:induction false} TableTotal(edges: seq<Edge>)
    ensures SumEntries(FoldTable(edges)) == SumSizes(edges)
  {
    if edges != [] {
      TableTotal(edges[..|edges| - 1]);
      AddEdgeTotal(FoldTable(edges[..|edges| - 1]), edges[|edges| - 1]);
    }
  }

  /** One step of the fold adds the edge's size to the table's total. */
  lemma AddEdgeTotal(table: seq<Entry>, e: Edge)
    ensures SumEntries(AddEdge(table, e)) == SumEntries(table) + e.size
  {
    var j := Lookup(table, e.name);
    if j < |table| {
      SumEntriesUpdate(table, j, e.size);
    } else {
      SumEntriesAppend(table, Entry(e.name, e.size, e.color));
    }
  }

  lemma SumEntriesAppend(table: seq<Entry>, entry: Entry)
    ensures SumEntries(table + [entry]) == SumEntries(table) + entry.size
  {
    assert (table + [entry])[..|table|] == table;
  }

  lemma {:induction false} SizeOfAbsent(edges: seq<Edge>, name: string)
    requires !HasName(edges, name)
    ensures SizeOf(edges, name) == 0 && FirstColor(edges, name) == None
  {
    if edges != [] {
      var init := edges[..|edges| - 1];
      assert !HasName(init, name) by {
        forall k | 0 <= k < |init| ensures init[k].name != name {
          assert init[k] == edges[k];
        }
      }
      SizeOfAbsent(init, name);
    }
  }

  lemma HasNameStep(edges: seq<Edge>, name: string)
    requires edges != []
    ensures HasName(edges, name)
        <==> HasName(edges[..|edges| - 1], name) || edges[|edges| - 1].name == name
  {
    var init := edges[..|edges| - 1];
    if HasName(edges, name) && edges[|edges| - 1].name != name {
      var k :| 0 <= k < |edges| && edges[k].name == name;
      assert init[k] == edges[k];
    }
    if HasName(init, name) {
      var k :| 0 <= k < |init| && init[k].name == name;
      assert edges[k] == init[k];
    }
  }

  /** `table` is what folding `edges` should give: one entry per language
      that occurs among the edges, none twice; each entry's size is the sum
      of that language's edge sizes; its colour is that of the language's
      first edge. */
  ghost predicate Describes(edges: seq<Edge>, table: seq<Entry>)
  {
    && DistinctNames(table)
    && (forall name :: HasName(edges, name) <==> Lookup(table, name) < |table|)
    && (forall i :: 0 <= i < |table| ==>
          table[i].size == SizeOf(edges, table[i].name)
          && FirstColor(edges, table[i].name) == Some(table[i].color))
  }

  /** Adding an edge of a language already in the table. */
  lemma {:induction false} AddExisting(edges: seq<Edge>, t: seq<Entry>)
    requires edges != []
    requires Describes(edges[..|edges| - 1], t)
    requires Lookup(t, edges[|edges| - 1].name) < |t|
    ensures Describes(edges, AddEdge(t, edges[|edges| - 1]))
  {
    var e := edges[|edges| - 1];
    var j := Lookup(t, e.name);
    var t' := t[j := t[j].(size := t[j].size + e.size)];
    assert AddEdge(t, e) == t';
    forall name ensures HasName(edges, name) <==> Lookup(t', name) < |t'| {
      HasNameStep(edges, name);
      if Lookup(t, name) < |t| { assert t'[Lookup(t, name)].name == name; }
      if Lookup(t', name) < |t'| { assert t[Lookup(t', name)].name == name; }
    }
    forall i | 0 <= i < |t'|
      ensures t'[i].size == SizeOf(edges, t'[i].name)
      ensures FirstColor(edges, t'[i].name) == Some(t'[i].color)
    {
      if i != j {
        assert t'[i] == t[i] && t[i].name != e.name;
      }
    }
  }

  /** Adding an edge of a language not yet in the table. */
  lemma {:induction false} AddNew(edges: seq<Edge>, t: seq<Entry>)
    requires edges != []
    requires Describes(edges[..|edges| - 1], t)
    requires Lookup(t, edges[|edges| - 1].name) == |t|
    ensures Describes(edges, AddEdge(t, edges[|edges| - 1]))
  {
    var init := edges[..|edges| - 1];
    var e := edges[|edges| - 1];
    var t' := t + [Entry(e.name, e.size, e.color)];
    assert AddEdge(t, e) == t';
    assert !HasName(init, e.name);
    SizeOfAbsent(init, e.name);
    forall name ensures HasName(edges, name) <==> Lookup(t', name) < |t'| {
      HasNameStep(edges, name);
      if Lookup(t, name) < |t| { assert t'[Lookup(t, name)].name == name; }
      if name == e.name { assert t'[|t|].name == name; }
      if Lookup(t', name) < |t| { assert t[Lookup(t', name)].name == name; }
    }
    forall i | 0 <= i < |t'|
      ensures t'[i].size == SizeOf(edges, t'[i].name)
      ensures FirstColor(edges, t'[i].name) == Some(t'[i].color)
    {
      if i < |t| {
        assert t'[i] == t[i] && t[i].name != e.name;
      }
    }
  }

  /** What the fold computes (route.ts:111-124): the table describes the
      edges in the sense of `Describes`. */
  lemma {:induction false} FoldTableMeaning(edges: seq<Edge>)
    ensures DistinctNames(FoldTable(edges))
    ensures forall name :: HasName(edges, name) <==> Lookup(FoldTable(edges), name) < |FoldTable(edges)|
    ensures forall i :: 0 <= i < |FoldTable(edges)| ==>
      && FoldTable(edges)[i].size == SizeOf(edges, FoldTable(edges)[i].name)
      && FirstColor(edges, FoldTable(edges)[i].name) == Some(FoldTable(edges)[i].color)
  {
    if edges != [] {
      var init := edges[..|edges| - 1];
      var e := edges[|edges| - 1];
      FoldTableMeaning(init);
      var t := FoldTable(init);
      if Lookup(t, e.name) < |t| {
        AddExisting(edges, t);
      } else {
        AddNew(edges, t);
      }
      assert Describes(edges, FoldTable(edges));
    }
  }

  /** Every entry is no larger than `totalSize`. */
  lemma {:induction false} EntryAtMostTotal(edges: seq<Edge>, name: string)
    ensures SizeOf(edges, name) <= SumSizes(edges)
  {
    if edges != [] {
      EntryAtMostTotal(edges[..|edges| - 1], name);
    }
  }

  // ---------------------------------------------------------------------
  // The output list (route.ts:126-134)

  /** `totalSize > 0 ? (size / totalSize) * 100 : 0`. */
  function Percentage(size: nat, total: nat): (p: real)
    ensures total == 0 ==> p == 0.0
    ensures total > 0 ==> p * (total as real) == (size as real) * 100.0
    ensures size <= total ==> 0.0 <= p <= 100.0
  {
    if total > 0 then (size as real / total as real) * 100.0 else 0.0
  }

  /** `Object.entries(languageMap).map(...)`, in insertion order. */
  function ToLanguages(table: seq<Entry>, total: nat): (out: seq<Language>)
    ensures |out| == |table|
    ensures forall i :: 0 <= i < |out| ==>
      out[i] == Language(table[i].name, table[i].color, Percentage(table[i].size, total), table[i].size)
  {
    if table == [] then []
    else [Language(table[0].name, table[0].color, Percentage(table[0].size, total), table[0].size)]
         + ToLanguages(table[1..], total)
  }

  /** Sizes never increase along the list. */
  predicate SortedBySize(s: seq<Language>)
  {
    forall i, j :: 0 <= i < j < |s| ==> s[i].size >= s[j].size
  }

  /** Where a stable insertion puts `x` into `s`: after the last element
      that is at least as large. */
  function InsertPos(s: seq<Language>, x: Language): (k: nat)
    ensures k <= |s|
    ensures k > 0 ==> s[k - 1].size >= x.size
    ensures forall i :: k <= i < |s| ==> s[i].size < x.size
  {
    if s == [] then 0
    else if s[|s| - 1].size >= x.size then |s|
    else InsertPos(s[..|s| - 1], x)
  }

  function Insert(s: seq<Language>, x: Language): seq<Language>
  {
    var k := InsertPos(s, x);
    s[..k] + [x] + s[k..]
  }

  /** `.sort((a, b) => b.size - a.size)`: JavaScript's sort is stable, so
      this is a stable sort by size, largest first (an insertion sort). */
  function SortBySize(s: seq<Language>): seq<Language>
  {
    if s == [] then [] else Insert(SortBySize(s[..|s| - 1]), s[|s| - 1])
  }

  /** The output records of a table with distinct names have distinct names. */
  predicate DistinctLanguageNames(s: seq<Language>)
  {
    forall i, j :: 0 <= i < j < |s| ==> s[i].name != s[j].name
  }

  /** Inserting into a sorted list keeps it sorted. */
  lemma InsertSorted(t: seq<Language>, x: Language)
    requires SortedBySize(t)
    ensures SortedBySize(Insert(t, x))
  {
    var k := InsertPos(t, x);
    var r := Insert(t, x);
    assert |r| == |t| + 1;
    forall i, j | 0 <= i < j < |r| ensures r[i].size >= r[j].size {
      var si := if i < k then t[i].size else if i == k then x.size else t[i - 1].size;
      var sj := if j < k then t[j].size else if j == k then x.size else t[j - 1].size;
      assert r[i].size == si && r[j].size == sj;
      if i < k && j == k {
        assert t[i].size >= t[k - 1].size;
      }
    }
  }

  /** Inserting adds exactly `x`. */
  lemma InsertMultiset(t: seq<Language>, x: Language)
    ensures multiset(Insert(t, x)) == multiset(t) + multiset{x}
  {
    var k := InsertPos(t, x);
    assert t == t[..k] + t[k..];
  }

  /** Inserting a record with a new name keeps names distinct. */
  lemma InsertDistinct(t: seq<Language>, x: Language)
    requires DistinctLanguageNames(t)
    requires forall i :: 0 <= i < |t| ==> t[i].name != x.name
    ensures DistinctLanguageNames(Insert(t, x))
  {
    var k := InsertPos(t, x);
    var r := Insert(t, x);
    forall i, j | 0 <= i < j < |r| ensures r[i].name != r[j].name {
      var ni := if i < k then t[i].name else if i == k then x.name else t[i - 1].name;
      var nj := if j < k then t[j].name else if j == k then x.name else t[j - 1].name;
      assert r[i].name == ni && r[j].name == nj;
    }
  }

  /** The sort orders by size, only permutes, and keeps names distinct. */
  lemma {:induction false} SortBySizeCorrect(s: seq<Language>)
    ensures SortedBySize(SortBySize(s))
    ensures multiset(SortBySize(s)) == multiset(s)
    ensures |SortBySize(s)| == |s|
    ensures DistinctLanguageNames(s) ==> DistinctLanguageNames(SortBySize(s))
  {
    if s != [] {
      var init := s[..|s| - 1];
      var x := s[|s| - 1];
      assert s == init + [x];
      SortBySizeCorrect(init);
      var t := SortBySize(init);
      InsertSorted(t, x);
      InsertMultiset(t, x);
      if DistinctLanguageNames(s) {
        DistinctSplit(init, x);
        NamesOfPermutation(t, init, x.name);
        InsertDistinct(t, x);
      }
    }
  }

  lemma DistinctSplit(init: seq<Language>, x: Language)
    requires DistinctLanguageNames(init + [x])
    ensures DistinctLanguageNames(init)
    ensures forall p :: 0 <= p < |init| ==> init[p].name != x.name
  {
    var s := init + [x];
    forall p | 0 <= p < |init| ensures init[p].name != x.name {
      assert s[p] == init[p] && s[|init|] == x;
    }
    forall i, j | 0 <= i < j < |init| ensures init[i].name != init[j].name {
      assert s[i] == init[i] && s[j] == init[j];
    }
  }

  /** A permutation of a list without `name` is without `name` too. */
  lemma NamesOfPermutation(t: seq<Language>, s: seq<Language>, name: string)
    requires multiset(t) == multiset(s)
    requires forall p :: 0 <= p < |s| ==> s[p].name != name
    ensures forall i :: 0 <= i < |t| ==> t[i].name != name
  {
    forall i | 0 <= i < |t| ensures t[i].name != name {
      assert t[i] in multiset(s);
      var p :| 0 <= p < |s| && s[p] == t[i];
    }
  }

  /** route.ts:126-134: map each table entry to a record with its
      percentage, sort by size, largest first, and keep the first five. */
  function TopLanguages(table: seq<Entry>, totalSize: nat): (out: seq<Language>)
    ensures |out| <= 5
  {
    var sorted := SortBySize(ToLanguages(table, totalSize));
    if |sorted| <= 5 then sorted else sorted[..5]
  }

  lemma ToLanguagesDistinct(table: seq<Entry>, total: nat)
    requires DistinctNames(table)
    ensures DistinctLanguageNames(ToLanguages(table, total))
  {
    var m := ToLanguages(table, total);
    forall i, j | 0 <= i < j < |m| ensures m[i].name != m[j].name {
      assert m[i].name == table[i].name && m[j].name == table[j].name;
    }
  }

  /** The shape of the output list: at most five records, distinct names,
      sizes non-increasing. */
  lemma TopLanguagesShape(table: seq<Entry>, totalSize: nat)
    requires DistinctNames(table)
    ensures |TopLanguages(table, totalSize)| == (if |table| <= 5 then |table| else 5)
    ensures DistinctLanguageNames(TopLanguages(table, totalSize))
    ensures SortedBySize(TopLanguages(table, totalSize))
  {
    var mapped := ToLanguages(table, totalSize);
    ToLanguagesDistinct(table, totalSize);
    SortBySizeCorrect(mapped);
  }

  /** Every language of `out` is one of `all`, and no language of `all`
      left out of `out` is larger than one kept. */
  ghost predicate KeepsLargest(all: seq<Language>, out: seq<Language>)
  {
    && (forall k :: 0 <= k < |out| ==> out[k] in all)
    && (forall x :: x in all && x !in out ==> forall k :: 0 <= k < |out| ==> x.size <= out[k].size)
  }

  /** A prefix of a sorted permutation of `all` keeps the largest of `all`. */
  lemma PrefixKeepsLargest(all: seq<Language>, sorted: seq<Language>, n: nat)
    requires SortedBySize(sorted) && multiset(sorted) == multiset(all) && n <= |sorted|
    ensures KeepsLargest(all, sorted[..n])
  {
    var out := sorted[..n];
    forall k | 0 <= k < n ensures out[k] in all {
      assert out[k] == sorted[k] && sorted[k] in multiset(sorted);
    }
    forall x | x in all && x !in out
      ensures forall k :: 0 <= k < n ==> x.size <= out[k].size
    {
      assert x in multiset(sorted);
      var p :| 0 <= p < |sorted| && sorted[p] == x;
      assert p >= n;
    }
  }

  /** The output list keeps the largest languages: each record is one of the
      table's languages with its share of `totalSize`, and no language left
      out is larger than one kept. */
  lemma TopLanguagesKeepsLargest(table: seq<Entry>, totalSize: nat)
    ensures KeepsLargest(ToLanguages(table, totalSize), TopLanguages(table, totalSize))
  {
    var mapped := ToLanguages(table, totalSize);
    var sorted := SortBySize(mapped);
    SortBySizeCorrect(mapped);
    var n := if |sorted| <= 5 then |sorted| else 5;
    assert TopLanguages(table, totalSize) == sorted[..n];
    PrefixKeepsLargest(mapped, sorted, n);
  }

  /** The percentage of every kept language lies between 0 and 100. */
  lemma PercentagesInRange(repos: seq<Repo>, k: nat)
    requires k < |TopLanguages(FoldTable(AllEdges(repos)), SumSizes(AllEdges(repos)))|
    ensures var l := TopLanguages(FoldTable(AllEdges(repos)), SumSizes(AllEdges(repos)))[k];
      0.0 <= l.percentage <= 100.0
  {
    var edges := AllEdges(repos);
    var table := FoldTable(edges);
    var total := SumSizes(edges);
    FoldTableMeaning(edges);
    TopLanguagesKeepsLargest(table, total);
    var out := TopLanguages(table, total);
    var mapped := ToLanguages(table, total);
    var i :| 0 <= i < |mapped| && mapped[i] == out[k];
    EntryAtMostTotal(edges, table[i].name);
  }
}
