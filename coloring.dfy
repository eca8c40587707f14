/** Colours of the ER diagram: the two palettes, the per-entity themes, and
    the greedy graph colouring that gives neighbouring entities different
    header colours while spreading the colours evenly. */
module DiagramColors {
  import opened Wrappers
  import opened Text
  import H = ODataHelper

  // ---------------------------------------------------------------------
  // Palettes and themes

  const PaletteLight: seq<string> :=
    ["#9966ff", "#6666ff", "#6699ff", "#ffcc66", "#ff9966", "#ff6666", "#14b8a6", "#84cc16", "#3b82f6"]

  const PaletteDark: seq<string> :=
    ["#61afef", "#98c379", "#e5c07b", "#e06c75", "#c678dd", "#56b6c2", "#d19a66", "#be5046"]

  function Palette(isDark: bool): seq<string> {
    if isDark then PaletteDark else PaletteLight
  }

  /** `PALETTE_DARK_LEN` and `PALETTE_LIGHT_LEN`: the number of colours the colouring may use. */
  function PaletteLength(isDark: bool): (n: nat)
    ensures n == |Palette(isDark)|
    ensures n == (if isDark then 8 else 9)
  {
    |Palette(isDark)|
  }

  /** JavaScript's `%` on integers: the remainder takes the sign of the dividend. */
  function JsRem(a: int, b: int): (r: int)
    requires b > 0
    ensures a >= 0 ==> r == a % b
    ensures a < 0 ==> -b < r <= 0
  {
    if a >= 0 then a % b else -((-a) % b)
  }

  /** `getColor`: `palette[index % palette.length]`, undefined for a negative remainder. */
  function GetColor(index: int, isDark: bool): Option<string> {
    var p := Palette(isDark);
    var r := JsRem(index, |p|);
    if r >= 0 then Some(p[r]) else None
  }

  /** Colours repeat with the palette's period and exist for every colouring index. */
  lemma GetColorPeriodic(index: nat, isDark: bool)
    ensures GetColor(index, isDark) == Some(Palette(isDark)[index % PaletteLength(isDark)])
    ensures GetColor(index + PaletteLength(isDark), isDark) == GetColor(index, isDark)
  {
    var n := PaletteLength(isDark);
    assert (index + n) % n == index % n;
  }

  /** The colours of one entity card. */
  datatype Theme = Theme(header: Option<string>, body: string, nav: string, border: string, text: string)

  const ThemesLight: seq<Theme> := [
    Theme(Some("#9966ff"), "#e9dfff", "#d8b4fe", "#aaaaaa", "#1a2a3a"),
    Theme(Some("#6666ff"), "#dbeafe", "#c7d2fe", "#bbbbbb", "#2a3a4a"),
    Theme(Some("#6699ff"), "#cfe4fc", "#a5cfff", "#cccccc", "#3a4a5a"),
    Theme(Some("#ffcc66"), "#fef3c7", "#fde68a", "#dddddd", "#4a5a6a"),
    Theme(Some("#ff9966"), "#ffe4cc", "#ffdcb3", "#aaaaaa", "#1a2a3a"),
    Theme(Some("#ff6666"), "#fee2e2", "#fecaca", "#bbbbbb", "#2a3a4a"),
    Theme(Some("#14b8a6"), "#ccfbf1", "#99f6e4", "#cccccc", "#3a4a5a"),
    Theme(Some("#84cc16"), "#dceeb8", "#c6ec7e", "#dddddd", "#4a5a6a"),
    Theme(Some("#3b82f6"), "#d1e5fd", "#93c5fd", "#aaaaaa", "#1a2a3a")
  ]

  /** `getEntityTheme`: a light theme from the table, or a dark theme built
      around the dark palette's colour; a light theme does not exist for a
      negative remainder. */
  function GetEntityTheme(index: int, isDark: bool): Option<Theme> {
    if !isDark then
      var r := JsRem(index, |ThemesLight|);
      if r >= 0 then Some(ThemesLight[r]) else None
    else Some(Theme(GetColor(index, true), "#282c34", "#21252b", "#3e4451", "#abb2bf"))
  }

  /** The header of every theme is the palette colour of the same index, and
      the dark theme's other colours are fixed. */
  lemma ThemeMatchesPalette(index: int, isDark: bool)
    ensures GetEntityTheme(index, isDark).Some? ==> GetEntityTheme(index, isDark).value.header == GetColor(index, isDark)
    ensures isDark ==> (GetEntityTheme(index, isDark).Some?
      && GetEntityTheme(index, isDark).value.(header := None) == Theme(None, "#282c34", "#21252b", "#3e4451", "#abb2bf"))
    ensures !isDark ==> (GetEntityTheme(index, isDark).Some? <==> GetColor(index, isDark).Some?)
  {
    if !isDark {
      var r := JsRem(index, 9);
      if 0 <= r {
        assert ThemesLight[r].header == Some(PaletteLight[r]) by { ThemeHeaders(); }
      }
    }
  }

  lemma ThemeHeaders()
    ensures forall i :: 0 <= i < 9 ==> ThemesLight[i].header == Some(PaletteLight[i])
  {
  }

  // ---------------------------------------------------------------------
  // Adjacency

  /** `adj`: for every entity name, the names it is related to. */
  type Adjacency = map<string, set<string>>

  function Neighbors(adj: Adjacency, k: string): set<string> {
    if k in adj then adj[k] else {}
  }

  /** The short type a navigation points to: `Collection(...)` and the namespace removed. */
  function TargetShort(nav: H.NavigationProperty): (r: Option<string>)
    ensures r.Some? ==> r.value != "" && '.' !in r.value
  {
    if nav.targetType.Some? && nav.targetType.value != "" then
      var s := AfterLast(H.V4Target(nav.targetType.value).0, '.');
      if s != "" then Some(s) else None
    else None
  }

  /** Records the relation in both directions. */
  function Link(adj: Adjacency, a: string, b: string): Adjacency {
    var adj1 := adj[a := Neighbors(adj, a) + {b}];
    adj1[b := Neighbors(adj1, b) + {a}]
  }

  /** The edge one navigation of the entity `name` adds; a self-reference adds none. */
  function NavStep(adj: Adjacency, name: string, nav: H.NavigationProperty): Adjacency {
    var t := TargetShort(nav);
    if t.Some? && t.value != name then Link(adj, name, t.value) else adj
  }

  /** The edges of the first `n` navigations of the entity `name`. */
  function NavEdges(adj: Adjacency, name: string, navs: seq<H.NavigationProperty>, n: nat): Adjacency
    requires n <= |navs|
  {
    if n == 0 then adj else NavStep(NavEdges(adj, name, navs, n - 1), name, navs[n - 1])
  }

  /** One entity's contribution: its own entry, then its edges. */
  function EntityEdges(adj: Adjacency, e: H.EntityType): Adjacency {
    NavEdges(adj[e.name := Neighbors(adj, e.name)], e.name, e.navigationProperties, |e.navigationProperties|)
  }

  /** The adjacency of the first `n` entities. */
  function AdjacencyOf(es: seq<H.EntityType>, n: nat): Adjacency
    requires n <= |es|
  {
    if n == 0 then map[] else EntityEdges(AdjacencyOf(es, n - 1), es[n - 1])
  }

  predicate Symmetric(adj: Adjacency) {
    forall a, b :: a in adj && b in adj[a] ==> b in adj && a in adj[b]
  }

  predicate NoSelfLoops(adj: Adjacency) {
    forall a :: a in adj ==> a !in adj[a]
  }

  lemma LinkWellFormed(adj: Adjacency, a: string, b: string)
    requires Symmetric(adj) && NoSelfLoops(adj) && a != b
    ensures Symmetric(Link(adj, a, b)) && NoSelfLoops(Link(adj, a, b))
  {
  }

  lemma {:induction false} NavEdgesWellFormed(adj: Adjacency, name: string, navs: seq<H.NavigationProperty>, n: nat)
    requires n <= |navs|
    requires Symmetric(adj) && NoSelfLoops(adj)
    ensures Symmetric(NavEdges(adj, name, navs, n)) && NoSelfLoops(NavEdges(adj, name, navs, n))
  {
    if n > 0 {
      NavEdgesWellFormed(adj, name, navs, n - 1);
      var t := TargetShort(navs[n - 1]);
      if t.Some? && t.value != name {
        LinkWellFormed(NavEdges(adj, name, navs, n - 1), name, t.value);
      }
    }
  }

  /** The adjacency is symmetric and has no self-loops. */
  lemma {:induction false} AdjacencyWellFormed(es: seq<H.EntityType>, n: nat)
    requires n <= |es|
    ensures Symmetric(AdjacencyOf(es, n)) && NoSelfLoops(AdjacencyOf(es, n))
  {
    if n > 0 {
      AdjacencyWellFormed(es, n - 1);
      var prev := AdjacencyOf(es, n - 1);
      var e := es[n - 1];
      var start := prev[e.name := Neighbors(prev, e.name)];
      assert Symmetric(start) && NoSelfLoops(start);
      NavEdgesWellFormed(start, e.name, e.navigationProperties, |e.navigationProperties|);
    }
  }

  lemma LinkMembers(adj: Adjacency, x: string, y: string, a: string, b: string)
    requires x != y
    ensures b in Neighbors(Link(adj, x, y), a) <==> b in Neighbors(adj, a) || (a, b) == (x, y) || (a, b) == (y, x)
    ensures a in Link(adj, x, y) <==> a in adj || a == x || a == y
  {
  }

  /** The ordered pairs the first `n` navigations of `e` relate, both directions. */
  function NavLinks(e: H.EntityType, n: nat): set<(string, string)>
    requires n <= |e.navigationProperties|
  {
    if n == 0 then {}
    else
      var t := TargetShort(e.navigationProperties[n - 1]);
      NavLinks(e, n - 1) + (if t.Some? && t.value != e.name then {(e.name, t.value), (t.value, e.name)} else {})
  }

  /** The names the first `n` navigations of `e` bring into the adjacency. */
  function NavEnds(e: H.EntityType, n: nat): set<string>
    requires n <= |e.navigationProperties|
  {
    if n == 0 then {}
    else
      var t := TargetShort(e.navigationProperties[n - 1]);
      NavEnds(e, n - 1) + (if t.Some? && t.value != e.name then {e.name, t.value} else {})
  }

  lemma {:induction false} NavEdgesMembers(adj: Adjacency, e: H.EntityType, n: nat, a: string, b: string)
    requires n <= |e.navigationProperties|
    ensures b in Neighbors(NavEdges(adj, e.name, e.navigationProperties, n), a) <==>
      b in Neighbors(adj, a) || (a, b) in NavLinks(e, n)
    ensures a in NavEdges(adj, e.name, e.navigationProperties, n) <==> a in adj || a in NavEnds(e, n)
  {
    if n > 0 {
      NavEdgesMembers(adj, e, n - 1, a, b);
      var prev := NavEdges(adj, e.name, e.navigationProperties, n - 1);
      var t := TargetShort(e.navigationProperties[n - 1]);
      assert NavEdges(adj, e.name, e.navigationProperties, n) == NavStep(prev, e.name, e.navigationProperties[n - 1]);
      if t.Some? && t.value != e.name {
        LinkMembers(prev, e.name, t.value, a, b);
        assert NavLinks(e, n) == NavLinks(e, n - 1) + {(e.name, t.value), (t.value, e.name)};
        assert NavEnds(e, n) == NavEnds(e, n - 1) + {e.name, t.value};
      } else {
        assert NavLinks(e, n) == NavLinks(e, n - 1);
        assert NavEnds(e, n) == NavEnds(e, n - 1);
      }
    }
  }

  /** All pairs related by the first `n` entities. */
  function LinksOf(es: seq<H.EntityType>, n: nat): set<(string, string)>
    requires n <= |es|
  {
    if n == 0 then {} else LinksOf(es, n - 1) + NavLinks(es[n - 1], |es[n - 1].navigationProperties|)
  }

  /** All names with an entry: the first `n` entities and their targets. */
  function EntriesOf(es: seq<H.EntityType>, n: nat): set<string>
    requires n <= |es|
  {
    if n == 0 then {} else EntriesOf(es, n - 1) + {es[n - 1].name} + NavEnds(es[n - 1], |es[n - 1].navigationProperties|)
  }

  /** The adjacency relates exactly the pairs some navigation links, and has
      an entry exactly for the entities and their targets. */
  lemma {:induction false} AdjacencyMembers(es: seq<H.EntityType>, n: nat, a: string, b: string)
    requires n <= |es|
    ensures b in Neighbors(AdjacencyOf(es, n), a) <==> (a, b) in LinksOf(es, n)
    ensures a in AdjacencyOf(es, n) <==> a in EntriesOf(es, n)
  {
    if n > 0 {
      AdjacencyMembers(es, n - 1, a, b);
      var prev := AdjacencyOf(es, n - 1);
      var e := es[n - 1];
      var start := prev[e.name := Neighbors(prev, e.name)];
      NavEdgesMembers(start, e, |e.navigationProperties|, a, b);
      assert Neighbors(start, a) == Neighbors(prev, a);
    }
  }

  lemma {:induction false} LinkSource(es: seq<H.EntityType>, n: nat, p: (string, string))
    requires n <= |es| && p in LinksOf(es, n)
    ensures exists i :: 0 <= i < n && p in NavLinks(es[i], |es[i].navigationProperties|)
  {
    if p !in NavLinks(es[n - 1], |es[n - 1].navigationProperties|) {
      LinkSource(es, n - 1, p);
    }
  }

  lemma {:induction false} LinkKept(es: seq<H.EntityType>, n: nat, i: nat, p: (string, string))
    requires i < n <= |es| && p in NavLinks(es[i], |es[i].navigationProperties|)
    ensures p in LinksOf(es, n)
  {
    if i < n - 1 {
      LinkKept(es, n - 1, i, p);
    }
  }

  lemma {:induction false} EntriesOfMembers(es: seq<H.EntityType>, n: nat, a: string)
    requires n <= |es|
    ensures a in EntriesOf(es, n) <==>
      exists i :: 0 <= i < n && (a == es[i].name || a in NavEnds(es[i], |es[i].navigationProperties|))
  {
    if n > 0 {
      EntriesOfMembers(es, n - 1, a);
    }
  }

  lemma LinksOrderFree(es1: seq<H.EntityType>, es2: seq<H.EntityType>)
    requires multiset(es1) == multiset(es2)
    ensures LinksOf(es1, |es1|) <= LinksOf(es2, |es2|)
  {
    forall p | p in LinksOf(es1, |es1|) ensures p in LinksOf(es2, |es2|) {
      LinkSource(es1, |es1|, p);
      var i :| 0 <= i < |es1| && p in NavLinks(es1[i], |es1[i].navigationProperties|);
      assert es1[i] in multiset(es2);
      var k :| 0 <= k < |es2| && es2[k] == es1[i];
      LinkKept(es2, |es2|, k, p);
    }
  }

  lemma EntriesOrderFree(es1: seq<H.EntityType>, es2: seq<H.EntityType>)
    requires multiset(es1) == multiset(es2)
    ensures EntriesOf(es1, |es1|) <= EntriesOf(es2, |es2|)
  {
    forall a | a in EntriesOf(es1, |es1|) ensures a in EntriesOf(es2, |es2|) {
      EntriesOfMembers(es1, |es1|, a);
      var i :| 0 <= i < |es1| && (a == es1[i].name || a in NavEnds(es1[i], |es1[i].navigationProperties|));
      assert es1[i] in multiset(es2);
      var k :| 0 <= k < |es2| && es2[k] == es1[i];
      EntriesOfMembers(es2, |es2|, a);
    }
  }

  /** The adjacency depends only on which entities there are, not on their order. */
  lemma AdjacencyOrderFree(es1: seq<H.EntityType>, es2: seq<H.EntityType>)
    requires multiset(es1) == multiset(es2)
    ensures AdjacencyOf(es1, |es1|) == AdjacencyOf(es2, |es2|)
  {
    var m1 := AdjacencyOf(es1, |es1|);
    var m2 := AdjacencyOf(es2, |es2|);
    LinksOrderFree(es1, es2);
    LinksOrderFree(es2, es1);
    EntriesOrderFree(es1, es2);
    EntriesOrderFree(es2, es1);
    forall a
      ensures a in m1 <==> a in m2
      ensures a in m1 ==> m1[a] == m2[a]
    {
      AdjacencyMembers(es1, |es1|, a, a);
      AdjacencyMembers(es2, |es2|, a, a);
      if a in m1 {
        forall b ensures b in m1[a] <==> b in m2[a] {
          AdjacencyMembers(es1, |es1|, a, b);
          AdjacencyMembers(es2, |es2|, a, b);
        }
      }
    }
  }

  // ---------------------------------------------------------------------
  // Colouring order

  /** `adj[name]?.size || 0`. */
  function Degree(adj: Adjacency, name: string): nat {
    |Neighbors(adj, name)|
  }

  /** The comparator of the colouring order does not put `y` before `x`:
      higher degree first, then by name. */
  predicate Before(adj: Adjacency, x: H.EntityType, y: H.EntityType) {
    Degree(adj, x.name) > Degree(adj, y.name)
    || (Degree(adj, x.name) == Degree(adj, y.name) && NameLe(x.name, y.name))
  }

  lemma BeforeTotal(adj: Adjacency, x: H.EntityType, y: H.EntityType)
    ensures Before(adj, x, y) || Before(adj, y, x)
  {
    NameLeTotal(x.name, y.name);
  }

  lemma BeforeTransitive(adj: Adjacency, x: H.EntityType, y: H.EntityType, z: H.EntityType)
    requires Before(adj, x, y) && Before(adj, y, z)
    ensures Before(adj, x, z)
  {
    if Degree(adj, x.name) == Degree(adj, y.name) == Degree(adj, z.name) {
      NameLeTransitive(x.name, y.name, z.name);
    }
  }

  predicate Sorted(adj: Adjacency, s: seq<H.EntityType>) {
    forall i, j :: 0 <= i < j < |s| ==> Before(adj, s[i], s[j])
  }

  /** Inserts `x` after every element the comparator does not put after it (a stable insertion). */
  function Insert(adj: Adjacency, x: H.EntityType, s: seq<H.EntityType>): (r: seq<H.EntityType>)
    ensures multiset(r) == multiset(s) + multiset{x}
  {
    if s == [] then [x]
    else if Before(adj, x, s[0]) && !Before(adj, s[0], x) then [x] + s
    else
      assert s == [s[0]] + s[1..];
      [s[0]] + Insert(adj, x, s[1..])
  }

  /** Insertion keeps a list sorted. */
  lemma {:induction false} InsertSorted(adj: Adjacency, x: H.EntityType, s: seq<H.EntityType>)
    requires Sorted(adj, s)
    ensures Sorted(adj, Insert(adj, x, s))
  {
    if s == [] {
    } else if Before(adj, x, s[0]) && !Before(adj, s[0], x) {
      forall j | 0 < j < |[x] + s| ensures Before(adj, x, ([x] + s)[j]) {
        if j > 1 { BeforeTransitive(adj, x, s[0], s[j - 1]); }
      }
    } else {
      var rest := Insert(adj, x, s[1..]);
      InsertSorted(adj, x, s[1..]);
      BeforeTotal(adj, x, s[0]);
      assert s == [s[0]] + s[1..];
      forall j | 0 <= j < |rest| ensures Before(adj, s[0], rest[j]) {
        assert rest[j] in multiset(rest);
        if rest[j] != x {
          assert rest[j] in multiset(s[1..]);
          var k :| 0 <= k < |s[1..]| && s[1..][k] == rest[j];
          assert Before(adj, s[0], s[k + 1]);
        }
      }
    }
  }

  /** `[...entities].sort(...)`: the first `n` entities in colouring order. */
  function SortForColoring(adj: Adjacency, es: seq<H.EntityType>, n: nat): (r: seq<H.EntityType>)
    requires n <= |es|
    ensures Sorted(adj, r)
    ensures multiset(r) == multiset(es[..n])
  {
    if n == 0 then []
    else
      assert es[..n] == es[..n - 1] + [es[n - 1]];
      InsertSorted(adj, es[n - 1], SortForColoring(adj, es, n - 1));
      Insert(adj, es[n - 1], SortForColoring(adj, es, n - 1))
  }

  /** Entities with the same name are the same entity. */
  predicate NamesIdentify(s: seq<H.EntityType>) {
    forall x, y :: x in multiset(s) && y in multiset(s) && x.name == y.name ==> x == y
  }

  /** With distinct names the colouring order is a strict total order, so the
      sorted list is the same whatever order the entities came in. */
  lemma {:induction false} SortedUnique(adj: Adjacency, s1: seq<H.EntityType>, s2: seq<H.EntityType>)
    requires Sorted(adj, s1) && Sorted(adj, s2)
    requires multiset(s1) == multiset(s2) && NamesIdentify(s1)
    ensures s1 == s2
    decreases |s1|
  {
    assert |s1| == |multiset(s1)| == |s2|;
    if s1 != [] {
      HeadsEqual(adj, s1, s2);
      TailFacts(adj, s1, s2);
      SortedUnique(adj, s1[1..], s2[1..]);
      assert s1 == [s1[0]] + s1[1..] && s2 == [s2[0]] + s2[1..];
    }
  }

  lemma HeadsEqual(adj: Adjacency, s1: seq<H.EntityType>, s2: seq<H.EntityType>)
    requires Sorted(adj, s1) && Sorted(adj, s2) && s1 != [] && s2 != []
    requires multiset(s1) == multiset(s2) && NamesIdentify(s1)
    ensures s1[0] == s2[0]
  {
    assert s1[0] in multiset(s2) && s2[0] in multiset(s1);
    var k :| 0 <= k < |s2| && s2[k] == s1[0];
    var m :| 0 <= m < |s1| && s1[m] == s2[0];
    NameLeReflexive(s1[0].name);
    NameLeReflexive(s2[0].name);
    assert Before(adj, s2[0], s1[0]) by { if k > 0 { assert Before(adj, s2[0], s2[k]); } }
    assert Before(adj, s1[0], s2[0]) by { if m > 0 { assert Before(adj, s1[0], s1[m]); } }
    NameLeAntisymmetric(s1[0].name, s2[0].name);
  }

  lemma TailFacts(adj: Adjacency, s1: seq<H.EntityType>, s2: seq<H.EntityType>)
    requires Sorted(adj, s1) && Sorted(adj, s2) && s1 != [] && s2 != [] && s1[0] == s2[0]
    requires multiset(s1) == multiset(s2) && NamesIdentify(s1)
    ensures Sorted(adj, s1[1..]) && Sorted(adj, s2[1..])
    ensures multiset(s1[1..]) == multiset(s2[1..]) && NamesIdentify(s1[1..])
  {
    assert s1 == [s1[0]] + s1[1..] && s2 == [s2[0]] + s2[1..];
    assert multiset(s1[1..]) <= multiset(s1);
  }

  // ---------------------------------------------------------------------
  // The greedy colouring, as a specification

  /** The colours of the already-coloured neighbours. */
  function NeighborColors(ns: set<string>, colors: map<string, int>): set<int> {
    set m | m in ns && m in colors :: colors[m]
  }

  /** `localUsageCount[c]`: how many coloured neighbours have colour `c`. */
  function LocalCount(ns: set<string>, colors: map<string, int>, c: int): nat {
    |set m | m in ns && m in colors && colors[m] == c|
  }

  /** Among the colours below `n` that no neighbour has, the least used
      (lowest index on ties); -1 when every colour is taken. */
  function MinFree(taken: set<int>, usage: seq<int>, n: nat): (b: int)
    requires n <= |usage|
    ensures -1 <= b < n
    ensures b == -1 <==> forall c :: 0 <= c < n ==> c in taken
    ensures b >= 0 ==> b !in taken
    ensures b >= 0 ==> forall c :: 0 <= c < n && c !in taken ==>
      usage[b] < usage[c] || (usage[b] == usage[c] && b <= c)
  {
    if n == 0 then -1
    else
      var b := MinFree(taken, usage, n - 1);
      if n - 1 in taken then b
      else if b == -1 || usage[n - 1] < usage[b] then n - 1
      else b
  }

  /** The local counts of colours `0 .. p-1`. */
  function LocalCounts(ns: set<string>, colors: map<string, int>, p: nat): (r: seq<nat>)
    ensures |r| == p && forall c :: 0 <= c < p ==> r[c] == LocalCount(ns, colors, c)
  {
    seq(p, c => LocalCount(ns, colors, c))
  }

  /** Among the colours below `n`, the one with the least local count, then
      the least used, then the lowest. */
  function MinLocal(local: seq<int>, usage: seq<int>, n: nat): (b: nat)
    requires 1 <= n <= |usage| && n <= |local|
    ensures b < n
    ensures forall c :: 0 <= c < n ==>
      local[b] < local[c] || (local[b] == local[c] && (usage[b] < usage[c] || (usage[b] == usage[c] && b <= c)))
  {
    if n == 1 then 0
    else
      var b := MinLocal(local, usage, n - 1);
      if local[n - 1] < local[b] || (local[n - 1] == local[b] && usage[n - 1] < usage[b]) then n - 1 else b
  }

  /** The colour chosen for an entity with neighbours `ns`. */
  function Pick(ns: set<string>, colors: map<string, int>, usage: seq<int>): (c: int)
    requires |usage| >= 1
    ensures 0 <= c < |usage|
  {
    var f := MinFree(NeighborColors(ns, colors), usage, |usage|);
    if f >= 0 then f else MinLocal(LocalCounts(ns, colors, |usage|), usage, |usage|)
  }

  /** When some colour is free, the choice differs from every coloured
      neighbour and is the least used free colour, lowest index on ties. */
  lemma PickFree(ns: set<string>, colors: map<string, int>, usage: seq<int>, free: int)
    requires |usage| >= 1 && 0 <= free < |usage| && free !in NeighborColors(ns, colors)
    ensures var c := Pick(ns, colors, usage);
      (forall m :: m in ns && m in colors ==> colors[m] != c)
      && forall d :: 0 <= d < |usage| && d !in NeighborColors(ns, colors) ==>
        usage[c] < usage[d] || (usage[c] == usage[d] && c <= d)
  {
  }

  /** When every colour is taken, the choice is the colour fewest neighbours
      have, then the least used, then the lowest. */
  lemma PickFallback(ns: set<string>, colors: map<string, int>, usage: seq<int>)
    requires |usage| >= 1 && forall d :: 0 <= d < |usage| ==> d in NeighborColors(ns, colors)
    ensures var c := Pick(ns, colors, usage);
      forall d :: 0 <= d < |usage| ==>
        LocalCount(ns, colors, c) < LocalCount(ns, colors, d)
        || (LocalCount(ns, colors, c) == LocalCount(ns, colors, d)
            && (usage[c] < usage[d] || (usage[c] == usage[d] && c <= d)))
  {
  }

  /** The state after colouring a prefix of the order: the colour map, the
      global usage counts and the colour chosen at each step. */
  datatype Run = Run(colors: map<string, int>, usage: seq<int>, choices: seq<int>)

  function InitialUsage(p: nat): (u: seq<int>)
    ensures |u| == p && forall c :: 0 <= c < p ==> u[c] == 0
  {
    seq(p, _ => 0)
  }

  /** Colours the first `n` entities of `order` with `p` colours. */
  function ColorRun(order: seq<H.EntityType>, n: nat, adj: Adjacency, p: nat): (r: Run)
    requires n <= |order| && p >= 1
    ensures |r.usage| == p && |r.choices| == n
    ensures forall k :: k in r.colors ==> 0 <= r.colors[k] < p
  {
    if n == 0 then Run(map[], InitialUsage(p), [])
    else ColorOne(ColorRun(order, n - 1, adj, p), order[n - 1].name, Neighbors(adj, order[n - 1].name))
  }

  /** One greedy choice: `name` takes the colour `Pick` gives for its neighbours, and that colour's use count grows. */
  function ColorOne(prev: Run, name: string, ns: set<string>): Run
    requires |prev.usage| >= 1
  {
    var c := Pick(ns, prev.colors, prev.usage);
    Run(prev.colors[name := c], prev.usage[c := prev.usage[c] + 1], prev.choices + [c])
  }

  /** `computeGraphColoring`: the colour index of every entity name. */
  function GraphColoring(entities: seq<H.EntityType>, isDark: bool): map<string, int> {
    var adj := AdjacencyOf(entities, |entities|);
    var order := SortForColoring(adj, entities, |entities|);
    ColorRun(order, |order|, adj, PaletteLength(isDark)).colors
  }

  /** How often `c` occurs in `s`. */
  function Count(s: seq<int>, c: int): nat {
    if s == [] then 0 else Count(s[..|s| - 1], c) + (if s[|s| - 1] == c then 1 else 0)
  }

  lemma CountSnoc(s: seq<int>, x: int, c: int)
    ensures Count(s + [x], c) == Count(s, c) + (if x == c then 1 else 0)
  {
    assert (s + [x])[..|s|] == s;
  }

  /** Each colour's usage is the number of steps that chose it. */
  lemma {:induction false} UsageCounts(order: seq<H.EntityType>, n: nat, adj: Adjacency, p: nat, c: nat)
    requires n <= |order| && p >= 1 && c < p
    ensures ColorRun(order, n, adj, p).usage[c] == Count(ColorRun(order, n, adj, p).choices, c)
  {
    if n > 0 {
      UsageCounts(order, n - 1, adj, p, c);
      var prev := ColorRun(order, n - 1, adj, p);
      var d := Pick(Neighbors(adj, order[n - 1].name), prev.colors, prev.usage);
      CountSnoc(prev.choices, d, c);
    }
  }

  /** Every processed entity has a colour, and it is the one its last step chose. */
  lemma {:induction false} EveryEntityColored(order: seq<H.EntityType>, n: nat, adj: Adjacency, p: nat, i: nat)
    requires i < n <= |order| && p >= 1
    requires forall j :: i < j < n ==> order[j].name != order[i].name
    ensures order[i].name in ColorRun(order, n, adj, p).colors
    ensures ColorRun(order, n, adj, p).colors[order[i].name] == ColorRun(order, n, adj, p).choices[i]
  {
    if i < n - 1 {
      EveryEntityColored(order, n - 1, adj, p, i);
      assert ColorRun(order, n, adj, p).choices[i] == ColorRun(order, n - 1, adj, p).choices[i];
    }
  }

  /** When names identify entities, the colouring is the same whatever order the entities came in. */
  lemma ColoringOrderFree(es1: seq<H.EntityType>, es2: seq<H.EntityType>, isDark: bool)
    requires multiset(es1) == multiset(es2) && NamesIdentify(es1)
    ensures GraphColoring(es1, isDark) == GraphColoring(es2, isDark)
  {
    AdjacencyOrderFree(es1, es2);
    var adj := AdjacencyOf(es1, |es1|);
    var o1 := SortForColoring(adj, es1, |es1|);
    var o2 := SortForColoring(adj, es2, |es2|);
    assert es1[..|es1|] == es1 && es2[..|es2|] == es2;
    SortedUnique(adj, o1, o2);
  }

  // ---------------------------------------------------------------------
  // The colouring, as the source performs it

  /** Step 1: the adjacency, built entity by entity. */
  method BuildAdjacency(entities: seq<H.EntityType>) returns (adj: Adjacency)
    ensures adj == AdjacencyOf(entities, |entities|)
  {
    adj := map[];
    var i := 0;
    while i < |entities|
      invariant 0 <= i <= |entities|
      invariant adj == AdjacencyOf(entities, i)
    {
      adj := AddEntityEdges(adj, entities[i]);
      i := i + 1;
    }
  }

  /** One entity's `navigationProperties.forEach`. */
  method AddEntityEdges(adj0: Adjacency, e: H.EntityType) returns (adj: Adjacency)
    ensures adj == EntityEdges(adj0, e)
  {
    adj := adj0;
    if e.name !in adj {
      adj := adj[e.name := {}];
    }
    assert adj == adj0[e.name := Neighbors(adj0, e.name)];
    var j := 0;
    while j < |e.navigationProperties|
      invariant 0 <= j <= |e.navigationProperties|
      invariant e.name in adj
      invariant adj == NavEdges(adj0[e.name := Neighbors(adj0, e.name)], e.name, e.navigationProperties, j)
    {
      adj := AddNavEdge(adj, e.name, e.navigationProperties[j]);
      j := j + 1;
    }
  }

  /** One navigation: unwrap and shorten the target, then record both directions. */
  method AddNavEdge(adj0: Adjacency, name: string, nav: H.NavigationProperty) returns (adj: Adjacency)
    requires name in adj0
    ensures adj == NavStep(adj0, name, nav) && name in adj
  {
    adj := adj0;
    var target := nav.targetType;
    if target.Some? && target.value != "" {
      var t := target.value;
      if StartsWith(t, "Collection(") {
        t := if |t| >= 12 then t[11..|t| - 1] else "";
      }
      t := AfterLast(t, '.');
      if t != "" && t != name {
        adj := adj[name := adj[name] + {t}];
        if t !in adj {
          adj := adj[t := {}];
        }
        adj := adj[t := adj[t] + {name}];
      }
    }
  }

  /** The colours of the coloured neighbours, one neighbour at a time. */
  method CollectNeighborColors(ns: set<string>, colors: map<string, int>) returns (taken: set<int>)
    ensures taken == NeighborColors(ns, colors)
  {
    taken := {};
    var rest := ns;
    while rest != {}
      invariant rest <= ns
      invariant taken == NeighborColors(ns - rest, colors)
      decreases |rest|
    {
      var m :| m in rest;
      NeighborColorsStep(ns - rest, m, colors);
      if m in colors {
        taken := taken + {colors[m]};
      }
      DoneStep(ns, rest, m);
      rest := rest - {m};
    }
  }

  lemma DoneStep(ns: set<string>, rest: set<string>, m: string)
    requires m in rest && rest <= ns
    ensures ns - (rest - {m}) == (ns - rest) + {m} && m !in ns - rest
  {
  }

  lemma NeighborColorsStep(done: set<string>, m: string, colors: map<string, int>)
    ensures NeighborColors(done + {m}, colors) == NeighborColors(done, colors) + (if m in colors then {colors[m]} else {})
  {
  }

  lemma LocalCountStep(done: set<string>, m: string, colors: map<string, int>, c: int)
    requires m !in done
    ensures LocalCount(done + {m}, colors, c) == LocalCount(done, colors, c) + (if m in colors && colors[m] == c then 1 else 0)
  {
    var before := set k | k in done && k in colors && colors[k] == c;
    var after := set k | k in done + {m} && k in colors && colors[k] == c;
    if m in colors && colors[m] == c {
      assert after == before + {m};
    } else {
      assert after == before;
    }
  }

  lemma LocalCountsStep(done: set<string>, m: string, colors: map<string, int>)
    requires m !in done
    ensures forall c :: LocalCount(done + {m}, colors, c) == LocalCount(done, colors, c) + (if m in colors && colors[m] == c then 1 else 0)
  {
    forall c ensures LocalCount(done + {m}, colors, c) == LocalCount(done, colors, c) + (if m in colors && colors[m] == c then 1 else 0) {
      LocalCountStep(done, m, colors, c);
    }
  }

  /** `localUsageCount`: for each colour, how many coloured neighbours have it. */
  method CountNeighborColors(ns: set<string>, colors: map<string, int>, p: nat) returns (local: array<int>)
    requires forall k :: k in colors ==> 0 <= colors[k] < p
    ensures fresh(local) && local[..] == LocalCounts(ns, colors, p)
  {
    local := new int[p](_ => 0);
    var rest := ns;
    assert ns - rest == {};
    while rest != {}
      invariant rest <= ns
      invariant forall c :: 0 <= c < p ==> local[c] == LocalCount(ns - rest, colors, c)
      decreases |rest|
    {
      var m :| m in rest;
      DoneStep(ns, rest, m);
      LocalCountsStep(ns - rest, m, colors);
      if m in colors {
        local[colors[m]] := local[colors[m]] + 1;
      }
      rest := rest - {m};
    }
    assert ns - rest == ns;
    assert local[..] == LocalCounts(ns, colors, p);
  }

  /** Step 2 for one entity: the least used free colour, else the least
      conflicting one; then its usage is counted. */
  method ColorEntity(ns: set<string>, colors: map<string, int>, usage: array<int>) returns (c: int)
    requires usage.Length >= 1
    requires forall k :: k in colors ==> 0 <= colors[k] < usage.Length
    modifies usage
    ensures c == Pick(ns, colors, old(usage[..]))
    ensures usage[..] == old(usage[..])[c := old(usage[..])[c] + 1]
  {
    var taken := CollectNeighborColors(ns, colors);
    c := FreeScan(taken, usage);
    if c == -1 {
      c := LocalScan(ns, colors, usage);
    }
    usage[c] := usage[c] + 1;
  }

  /** The least used colour no neighbour has, or -1. */
  method FreeScan(taken: set<int>, usage: array<int>) returns (c: int)
    ensures c == MinFree(taken, usage[..], usage.Length)
  {
    c := -1;
    var i := 0;
    while i < usage.Length
      invariant 0 <= i <= usage.Length
      invariant c == MinFree(taken, usage[..], i)
    {
      if i !in taken && (c == -1 || usage[i] < usage[c]) {
        c := i;
      }
      i := i + 1;
    }
  }

  /** The colour fewest neighbours have, then the least used. */
  method LocalScan(ns: set<string>, colors: map<string, int>, usage: array<int>) returns (c: int)
    requires usage.Length >= 1
    requires forall k :: k in colors ==> 0 <= colors[k] < usage.Length
    ensures c == MinLocal(LocalCounts(ns, colors, usage.Length), usage[..], usage.Length)
  {
    var local := CountNeighborColors(ns, colors, usage.Length);
    var minLocal := local[0];
    c := 0;
    var i := 1;
    while i < usage.Length
      invariant 1 <= i <= usage.Length && 0 <= c < usage.Length
      invariant c == MinLocal(local[..], usage[..], i) && minLocal == local[c]
    {
      if local[i] < minLocal {
        minLocal := local[i];
        c := i;
      } else if local[i] == minLocal && usage[i] < usage[c] {
        c := i;
      }
      i := i + 1;
    }
  }

  /** Step 3: the entities in colouring order, one greedy choice each. */
  method ColorInOrder(order: seq<H.EntityType>, adj: Adjacency, p: nat) returns (colors: map<string, int>)
    requires p >= 1
    ensures colors == ColorRun(order, |order|, adj, p).colors
  {
    var globalUsage := new int[p](_ => 0);
    colors := map[];
    assert globalUsage[..] == InitialUsage(p);
    var k := 0;
    while k < |order|
      invariant 0 <= k <= |order| && globalUsage.Length == p
      invariant colors == ColorRun(order, k, adj, p).colors
      invariant globalUsage[..] == ColorRun(order, k, adj, p).usage
    {
      colors := ColorNext(order, k, adj, p, colors, globalUsage);
      k := k + 1;
    }
  }

  /** One iteration of step 3: colours `order[k]` and counts its use. */
  method ColorNext(order: seq<H.EntityType>, k: nat, adj: Adjacency, p: nat, colors: map<string, int>, usage: array<int>)
    returns (colors': map<string, int>)
    requires k < |order| && p >= 1
    requires colors == ColorRun(order, k, adj, p).colors && usage[..] == ColorRun(order, k, adj, p).usage
    modifies usage
    ensures colors' == ColorRun(order, k + 1, adj, p).colors && usage[..] == ColorRun(order, k + 1, adj, p).usage
  {
    var c := ColorEntity(Neighbors(adj, order[k].name), colors, usage);
    ColorRunNext(order, k, adj, p, c);
    colors' := colors[order[k].name := c];
  }

  /** Colouring one more entity with the colour `Pick` chose extends the run's colours and use counts by that choice. */
  lemma ColorRunNext(order: seq<H.EntityType>, k: nat, adj: Adjacency, p: nat, c: int)
    requires k < |order| && p >= 1
    requires c == Pick(Neighbors(adj, order[k].name), ColorRun(order, k, adj, p).colors, ColorRun(order, k, adj, p).usage)
    ensures ColorRun(order, k + 1, adj, p).colors == ColorRun(order, k, adj, p).colors[order[k].name := c]
    ensures ColorRun(order, k + 1, adj, p).usage == ColorRun(order, k, adj, p).usage[c := ColorRun(order, k, adj, p).usage[c] + 1]
  {
    var prev := ColorRun(order, k, adj, p);
    assert ColorRun(order, k + 1, adj, p) == ColorOne(prev, order[k].name, Neighbors(adj, order[k].name));
  }

  /** `computeGraphColoring`: adjacency, order, then one greedy choice per entity. */
  method ComputeGraphColoring(entities: seq<H.EntityType>, isDark: bool) returns (colors: map<string, int>)
    ensures colors == GraphColoring(entities, isDark)
  {
    var paletteLength := PaletteLength(isDark);
    var adj := BuildAdjacency(entities);
    var sorted := SortForColoring(adj, entities, |entities|);
    colors := ColorInOrder(sorted, adj, paletteLength);
  }
}
