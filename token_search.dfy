/** The ranking behind the custom-token search box: three tiers of catalog
    matches (exact, popular, general), concatenated and deduplicated; the
    section offsets shown between them; and the page window over the result.

    A tier holds references to catalog objects and the deduplication is by
    object identity, so a reference is modelled here by its catalog position:
    tiers, ranked lists and windows are sequences of catalog indices. */
module TokenSearch {
  import opened Strings
  import opened TokenCatalog

  /** TOKEN_SHOW_LIMIT: how many results one page adds. */
  const PageSize: nat := 10

  /** Symbol, name or address equals the query, ignoring case. */
  predicate IsExact(t: Token, q: string) {
    Lower(t.symbol) == Lower(q) || Lower(t.name) == Lower(q) || Lower(t.address) == Lower(q)
  }

  /** Name or symbol contains the query, ignoring case. */
  predicate IsGeneral(t: Token, q: string) {
    Contains(Lower(t.name), Lower(q)) || Contains(Lower(t.symbol), Lower(q))
  }

  /** The symbol is on the popular list (compared with case) and the token is a general match. */
  predicate IsPopular(t: Token, popular: seq<string>, q: string) {
    t.symbol in popular && IsGeneral(t, q)
  }

  datatype Tier = Exact | Popular | General

  predicate InTier(tier: Tier, t: Token, popular: seq<string>, q: string) {
    match tier
    case Exact => IsExact(t, q)
    case Popular => IsPopular(t, popular, q)
    case General => IsGeneral(t, q)
  }

  ghost predicate Increasing(s: seq<nat>) {
    forall i, j :: 0 <= i < j < |s| ==> s[i] < s[j]
  }

  ghost predicate Distinct(s: seq<nat>) {
    forall i, j :: 0 <= i < j < |s| ==> s[i] != s[j]
  }

  function Elements(s: seq<nat>): set<nat> {
    set x | x in s
  }

  /** The catalog positions from `lo` on whose token is in `tier`, in catalog
      order: one `filter` over the catalog. */
  function Matching(c: seq<Token>, tier: Tier, popular: seq<string>, q: string, lo: nat): (r: seq<nat>)
    requires lo <= |c|
    ensures forall k :: 0 <= k < |r| ==> lo <= r[k] < |c| && InTier(tier, c[r[k]], popular, q)
    ensures forall x :: lo <= x < |c| && InTier(tier, c[x], popular, q) ==> x in r
    ensures Increasing(r)
    decreases |c| - lo
  {
    if lo == |c| then []
    else
      var rest := Matching(c, tier, popular, q, lo + 1);
      if InTier(tier, c[lo], popular, q) then
        assert forall k :: 0 < k <= |rest| ==> ([lo] + rest)[k] == rest[k - 1];
        [lo] + rest
      else rest
  }

  function TierOf(c: seq<Token>, tier: Tier, popular: seq<string>, q: string): seq<nat> {
    Matching(c, tier, popular, q, 0)
  }

  /** `[...new Set(s)]` with the positions in `seen` already taken: every
      position once, at its first occurrence. */
  function DedupFrom(s: seq<nat>, seen: set<nat>): (r: seq<nat>)
    ensures forall x :: x in r <==> x in s && x !in seen
    ensures Distinct(r)
    decreases |s|
  {
    if s == [] then []
    else
      assert s == [s[0]] + s[1..];
      if s[0] in seen then DedupFrom(s[1..], seen)
      else [s[0]] + DedupFrom(s[1..], seen + {s[0]})
  }

  /** The positions of `s` outside `drop`, in their order. */
  function Without(s: seq<nat>, drop: set<nat>): (r: seq<nat>)
    ensures forall x :: x in r <==> x in s && x !in drop
    decreases |s|
  {
    if s == [] then []
    else
      assert s == [s[0]] + s[1..];
      (if s[0] in drop then [] else [s[0]]) + Without(s[1..], drop)
  }

  /** The ranked result of `filter(search)`: the exact matches, the popular
      matches and the general matches, concatenated and deduplicated. */
  function Rank(c: seq<Token>, popular: seq<string>, q: string): (r: seq<nat>)
    ensures forall k :: 0 <= k < |r| ==> r[k] < |c|
  {
    TiersBounded(c, popular, q);
    var r := DedupFrom(TierOf(c, Exact, popular, q) + TierOf(c, Popular, popular, q) + TierOf(c, General, popular, q), {});
    assert forall k :: 0 <= k < |r| ==> r[k] in r;
    r
  }

  lemma TiersBounded(c: seq<Token>, popular: seq<string>, q: string)
    ensures forall x :: x in TierOf(c, Exact, popular, q) + TierOf(c, Popular, popular, q) + TierOf(c, General, popular, q)
              ==> x < |c|
  {
    var e, p, g := TierOf(c, Exact, popular, q), TierOf(c, Popular, popular, q), TierOf(c, General, popular, q);
    forall x | x in e + p + g ensures x < |c| {
      if x in e {
        var k :| 0 <= k < |e| && e[k] == x;
      } else if x in p {
        var k :| 0 <= k < |p| && p[k] == x;
      } else {
        var k :| 0 <= k < |g| && g[k] == x;
      }
    }
  }

  /** The ranked result holds each catalog token that matches exactly or
      generally, and nothing else, once. */
  lemma RankMembers(c: seq<Token>, popular: seq<string>, q: string)
    ensures var r := Rank(c, popular, q);
      && (forall x :: 0 <= x < |c| ==> (x in r <==> IsExact(c[x], q) || IsGeneral(c[x], q)))
      && Distinct(r)
  {
    var e, p, g := TierOf(c, Exact, popular, q), TierOf(c, Popular, popular, q), TierOf(c, General, popular, q);
  }

  lemma {:induction false} WithoutIncreasing(s: seq<nat>, drop: set<nat>)
    requires Increasing(s)
    ensures Increasing(Without(s, drop))
    decreases |s|
  {
    if s != [] {
      var t := s[1..];
      WithoutIncreasing(t, drop);
      var w := Without(t, drop);
      forall j | 0 <= j < |w| ensures s[0] < w[j] {
        assert w[j] in t;
        var i :| 0 <= i < |t| && t[i] == w[j];
        assert t[i] == s[i + 1];
      }
    }
  }

  lemma {:induction false} DedupAppend(a: seq<nat>, b: seq<nat>, seen: set<nat>)
    ensures DedupFrom(a + b, seen) == DedupFrom(a, seen) + DedupFrom(b, seen + Elements(a))
    decreases |a|
  {
    if a == [] {
      assert a + b == b;
      assert seen + Elements(a) == seen;
    } else {
      assert (a + b)[0] == a[0] && (a + b)[1..] == a[1..] + b;
      assert Elements(a) == {a[0]} + Elements(a[1..]);
      if a[0] in seen {
        DedupAppend(a[1..], b, seen);
        assert seen + Elements(a) == seen + Elements(a[1..]);
      } else {
        DedupAppend(a[1..], b, seen + {a[0]});
        assert seen + {a[0]} + Elements(a[1..]) == seen + Elements(a);
      }
    }
  }

  lemma {:induction false} WithoutUnaffected(s: seq<nat>, drop: set<nat>, x: nat)
    requires x !in s
    ensures Without(s, drop + {x}) == Without(s, drop)
    decreases |s|
  {
    if s != [] {
      WithoutUnaffected(s[1..], drop, x);
    }
  }

  lemma {:induction false} WithoutNothing(s: seq<nat>, drop: set<nat>)
    requires forall x :: x in s ==> x !in drop
    ensures Without(s, drop) == s
    decreases |s|
  {
    if s != [] {
      WithoutNothing(s[1..], drop);
      assert s == [s[0]] + s[1..];
    }
  }

  lemma {:induction false} WithoutOne(s: seq<nat>, x: nat)
    requires Distinct(s) && x in s
    ensures |Without(s, {x})| == |s| - 1
    decreases |s|
  {
    if s[0] == x {
      WithoutNothing(s[1..], {x});
    } else {
      assert s == [s[0]] + s[1..];
      WithoutOne(s[1..], x);
    }
  }

  /** On a sequence without repeats, deduplication only removes what was seen. */
  lemma {:induction false} DedupDistinct(s: seq<nat>, seen: set<nat>)
    requires Distinct(s)
    ensures DedupFrom(s, seen) == Without(s, seen)
    decreases |s|
  {
    if s != [] {
      assert s == [s[0]] + s[1..];
      if s[0] in seen {
        DedupDistinct(s[1..], seen);
      } else {
        DedupDistinct(s[1..], seen + {s[0]});
        WithoutUnaffected(s[1..], seen, s[0]);
      }
    }
  }

  lemma DedupThree(e: seq<nat>, p: seq<nat>, g: seq<nat>)
    requires Increasing(e) && Increasing(p) && Increasing(g)
    ensures DedupFrom(e + p + g, {}) == e + Without(p, Elements(e)) + Without(g, Elements(e) + Elements(p))
  {
    DedupAppend(e + p, g, {});
    DedupAppend(e, p, {});
    assert Elements(e + p) == Elements(e) + Elements(p);
    assert {} + Elements(e) == Elements(e);
    assert {} + (Elements(e) + Elements(p)) == Elements(e) + Elements(p);
    DedupDistinct(e, {});
    WithoutNothing(e, {});
    DedupDistinct(p, Elements(e));
    DedupDistinct(g, Elements(e) + Elements(p));
  }

  /** The ranked list is the exact tier, then the popular tier minus the exact
      matches, then the general tier minus both; each part keeps catalog order. */
  lemma RankTiers(c: seq<Token>, popular: seq<string>, q: string)
    ensures var e, p, g := TierOf(c, Exact, popular, q), TierOf(c, Popular, popular, q), TierOf(c, General, popular, q);
      && Rank(c, popular, q) == e + Without(p, Elements(e)) + Without(g, Elements(e) + Elements(p))
      && Increasing(e) && Increasing(Without(p, Elements(e))) && Increasing(Without(g, Elements(e) + Elements(p)))
  {
    var e, p, g := TierOf(c, Exact, popular, q), TierOf(c, Popular, popular, q), TierOf(c, General, popular, q);
    DedupThree(e, p, g);
    WithoutIncreasing(p, Elements(e));
    WithoutIncreasing(g, Elements(e) + Elements(p));
  }

  /** The popular tier adds nothing the general tier lacks. */
  lemma PopularWithinGeneral(c: seq<Token>, popular: seq<string>, q: string)
    ensures forall x :: x in TierOf(c, Popular, popular, q) ==> x in TierOf(c, General, popular, q)
  {
  }

  /** 0 for an exact match, 1 for a popular non-exact one, 2 for the rest. */
  function TierRank(t: Token, popular: seq<string>, q: string): nat {
    if IsExact(t, q) then 0 else if IsPopular(t, popular, q) then 1 else 2
  }

  lemma TierMember(c: seq<Token>, tier: Tier, popular: seq<string>, q: string, x: int)
    ensures x in TierOf(c, tier, popular, q) <==> 0 <= x < |c| && InTier(tier, c[x], popular, q)
  {
    var t := TierOf(c, tier, popular, q);
    if x in t {
      var k :| 0 <= k < |t| && t[k] == x;
    }
  }

  lemma ConcatAt(a: seq<nat>, b: seq<nat>, d: seq<nat>, k: int)
    requires 0 <= k < |a| + |b| + |d|
    ensures (a + b + d)[k] == if k < |a| then a[k] else if k < |a| + |b| then b[k - |a|] else d[k - |a| - |b|]
  {
  }

  /** The tier rank of the token at each position of the ranked list: 0 over
      the exact part, 1 over the popular part, 2 over the rest. */
  lemma RankSegments(c: seq<Token>, popular: seq<string>, q: string, k: int)
    requires 0 <= k < |Rank(c, popular, q)|
    ensures var e, p := TierOf(c, Exact, popular, q), TierOf(c, Popular, popular, q);
      var n := |Without(p, Elements(e))|;
      TierRank(c[Rank(c, popular, q)[k]], popular, q) == if k < |e| then 0 else if k < |e| + n then 1 else 2
  {
    var r := Rank(c, popular, q);
    var e, p, g := TierOf(c, Exact, popular, q), TierOf(c, Popular, popular, q), TierOf(c, General, popular, q);
    RankTiers(c, popular, q);
    var p', g' := Without(p, Elements(e)), Without(g, Elements(e) + Elements(p));
    ConcatAt(e, p', g', k);
    var x := r[k];
    TierMember(c, Exact, popular, q, x);
    if k < |e| {
      assert x in e;
    } else if k < |e| + |p'| {
      assert x in p' && x in p && x !in e;
      TierMember(c, Popular, popular, q, x);
    } else {
      assert x in g' && x !in e && x !in p;
      TierMember(c, Popular, popular, q, x);
    }
  }

  /** The ranked list is ordered by tier first and by catalog position within a tier. */
  lemma RankOrdered(c: seq<Token>, popular: seq<string>, q: string)
    ensures var r := Rank(c, popular, q);
      forall i, j :: 0 <= i < j < |r| ==>
        TierRank(c[r[i]], popular, q) < TierRank(c[r[j]], popular, q)
        || (TierRank(c[r[i]], popular, q) == TierRank(c[r[j]], popular, q) && r[i] < r[j])
  {
    var r := Rank(c, popular, q);
    var e, p, g := TierOf(c, Exact, popular, q), TierOf(c, Popular, popular, q), TierOf(c, General, popular, q);
    RankTiers(c, popular, q);
    var p', g' := Without(p, Elements(e)), Without(g, Elements(e) + Elements(p));
    forall i, j | 0 <= i < j < |r|
      ensures TierRank(c[r[i]], popular, q) < TierRank(c[r[j]], popular, q)
           || (TierRank(c[r[i]], popular, q) == TierRank(c[r[j]], popular, q) && r[i] < r[j])
    {
      RankSegments(c, popular, q, i);
      RankSegments(c, popular, q, j);
      ConcatAt(e, p', g', i);
      ConcatAt(e, p', g', j);
    }
  }

  /** `popularTokensPosition` and `otherTokensPosition`, as `filter` sets them. */
  datatype SectionOffsets = Unsectioned | Offsets(popularStart: nat, otherStart: nat)

  /** The offsets exist exactly when some token is a popular match. The
      popular section is then as long as the popular tier, and it starts
      after one slot exactly when the first exact match is not popular. */
  function Sections(c: seq<Token>, popular: seq<string>, q: string): (r: SectionOffsets)
    ensures r.Unsectioned? <==> TierOf(c, Popular, popular, q) == []
    ensures r.Offsets? ==> r.otherStart == r.popularStart + |TierOf(c, Popular, popular, q)|
    ensures r.Offsets? ==> (r.popularStart == 1 <==> var e := TierOf(c, Exact, popular, q);
                                                       e != [] && c[e[0]].symbol !in popular)
    ensures r.Offsets? ==> r.popularStart <= 1
  {
    var e, p := TierOf(c, Exact, popular, q), TierOf(c, Popular, popular, q);
    if |p| > 0 then
      if |e| > 0 then
        if c[e[0]].symbol in popular then Offsets(0, |p|) else Offsets(1, |p| + 1)
      else Offsets(0, |p|)
    else Unsectioned
  }

  /** With at most one exact match, and that one a popular match when its
      symbol is popular, the offsets split the ranked list into its exact
      non-popular head, the tokens with a popular symbol, and the rest. */
  lemma SectionsMatchRank(c: seq<Token>, popular: seq<string>, q: string)
    requires SingleExactMatch(c, popular, q)
    ensures Sections(c, popular, q).Unsectioned? <==> TierOf(c, Popular, popular, q) == []
    ensures var r, s := Rank(c, popular, q), Sections(c, popular, q);
      s.Offsets? ==>
        && s.popularStart <= s.otherStart <= |r|
        && (forall k :: 0 <= k < s.popularStart ==> IsExact(c[r[k]], q) && c[r[k]].symbol !in popular)
        && (forall k :: s.popularStart <= k < s.otherStart ==> c[r[k]].symbol in popular)
        && (forall k :: s.otherStart <= k < |r| ==> !IsExact(c[r[k]], q) && c[r[k]].symbol !in popular)
  {
    if Sections(c, popular, q).Offsets? {
      SectionBounds(c, popular, q);
      forall k | 0 <= k < |Rank(c, popular, q)| {
        SectionAt(c, popular, q, k);
      }
    }
  }

  /** The case the offsets are computed for: at most one exact match, and
      one whose symbol is popular is also a popular match. */
  predicate SingleExactMatch(c: seq<Token>, popular: seq<string>, q: string) {
    var e := TierOf(c, Exact, popular, q);
    |e| <= 1 && (|e| == 1 && c[e[0]].symbol in popular ==> IsGeneral(c[e[0]], q))
  }

  lemma RankLength(c: seq<Token>, popular: seq<string>, q: string)
    ensures var e, p := TierOf(c, Exact, popular, q), TierOf(c, Popular, popular, q);
      |e| + |Without(p, Elements(e))| <= |Rank(c, popular, q)|
  {
    RankTiers(c, popular, q);
  }

  /** With at most one exact match, removing it from the popular tier
      shortens that tier by one exactly when its symbol is popular. */
  lemma PopularAfterExact(c: seq<Token>, popular: seq<string>, q: string)
    requires SingleExactMatch(c, popular, q)
    ensures var e, p := TierOf(c, Exact, popular, q), TierOf(c, Popular, popular, q);
      |Without(p, Elements(e))| == if e != [] && c[e[0]].symbol in popular then |p| - 1 else |p|
  {
    var e, p := TierOf(c, Exact, popular, q), TierOf(c, Popular, popular, q);
    if e == [] {
      assert Elements(e) == {};
      WithoutNothing(p, {});
    } else {
      var x := e[0];
      assert Elements(e) == {x};
      TierMember(c, Popular, popular, q, x);
      if c[x].symbol in popular {
        assert Distinct(p);
        WithoutOne(p, x);
      } else {
        assert x !in p;
        WithoutNothing(p, {x});
      }
    }
  }

  lemma SectionBounds(c: seq<Token>, popular: seq<string>, q: string)
    requires SingleExactMatch(c, popular, q) && Sections(c, popular, q).Offsets?
    ensures var e, p := TierOf(c, Exact, popular, q), TierOf(c, Popular, popular, q);
      var s := Sections(c, popular, q);
      && s.popularStart <= s.otherStart == |e| + |Without(p, Elements(e))|
      && s.otherStart <= |Rank(c, popular, q)|
  {
    RankLength(c, popular, q);
    PopularAfterExact(c, popular, q);
  }

  lemma SectionAt(c: seq<Token>, popular: seq<string>, q: string, k: int)
    requires SingleExactMatch(c, popular, q) && Sections(c, popular, q).Offsets?
    requires 0 <= k < |Rank(c, popular, q)|
    ensures var r, s := Rank(c, popular, q), Sections(c, popular, q);
      && (k < s.popularStart ==> IsExact(c[r[k]], q) && c[r[k]].symbol !in popular)
      && (s.popularStart <= k < s.otherStart ==> c[r[k]].symbol in popular)
      && (s.otherStart <= k ==> !IsExact(c[r[k]], q) && c[r[k]].symbol !in popular)
  {
    var e := TierOf(c, Exact, popular, q);
    var x := Rank(c, popular, q)[k];
    SectionBounds(c, popular, q);
    RankSegments(c, popular, q, k);
    RankMembers(c, popular, q);
    assert x in Rank(c, popular, q);
    if k < |e| {
      TierMember(c, Exact, popular, q, x);
      assert x == e[0];
    }
  }

  /** Two exact matches break the offsets: when neither of the first two
      exact matches has a popular symbol, the second one sits at position 1,
      inside the popular section. */
  lemma SectionsMisplaceSecondExactMatch(c: seq<Token>, popular: seq<string>, q: string)
    requires var e := TierOf(c, Exact, popular, q);
      |e| >= 2 && c[e[0]].symbol !in popular && c[e[1]].symbol !in popular
    requires TierOf(c, Popular, popular, q) != []
    ensures Sections(c, popular, q) == Offsets(1, |TierOf(c, Popular, popular, q)| + 1)
    ensures var r := Rank(c, popular, q);
      |r| > 1 && IsExact(c[r[1]], q) && c[r[1]].symbol !in popular
  {
    var e, p, g := TierOf(c, Exact, popular, q), TierOf(c, Popular, popular, q), TierOf(c, General, popular, q);
    RankTiers(c, popular, q);
    ConcatAt(e, Without(p, Elements(e)), Without(g, Elements(e) + Elements(p)), 1);
  }

  /** An exact match with a popular symbol that is not a general match
      (the query is its address, say) breaks the offsets too: the popular
      section is taken to start at 0, so the last popular match, one slot
      further on, falls into the section of the other tokens. */
  lemma SectionsMisplacePopularAddressMatch(c: seq<Token>, popular: seq<string>, q: string)
    requires var e := TierOf(c, Exact, popular, q);
      |e| == 1 && c[e[0]].symbol in popular && !IsGeneral(c[e[0]], q)
    requires TierOf(c, Popular, popular, q) != []
    ensures var p := TierOf(c, Popular, popular, q);
      Sections(c, popular, q) == Offsets(0, |p|)
    ensures var p, r := TierOf(c, Popular, popular, q), Rank(c, popular, q);
      |r| > |p| && c[r[|p|]].symbol in popular && IsPopular(c[r[|p|]], popular, q)
  {
    var e, p := TierOf(c, Exact, popular, q), TierOf(c, Popular, popular, q);
    TierMember(c, Popular, popular, q, e[0]);
    PopularAfterLoneExact(c, popular, q);
    var y := p[|p| - 1];
    TierMember(c, Popular, popular, q, y);
  }

  /** When the only exact match is not a popular match, the popular tier
      follows it whole, so the last popular match is at the tier's length. */
  lemma PopularAfterLoneExact(c: seq<Token>, popular: seq<string>, q: string)
    requires var e := TierOf(c, Exact, popular, q);
      |e| == 1 && e[0] !in TierOf(c, Popular, popular, q)
    requires TierOf(c, Popular, popular, q) != []
    ensures var p, r := TierOf(c, Popular, popular, q), Rank(c, popular, q);
      |r| > |p| && r[|p|] == p[|p| - 1]
  {
    var e, p, g := TierOf(c, Exact, popular, q), TierOf(c, Popular, popular, q), TierOf(c, General, popular, q);
    var r := Rank(c, popular, q);
    var g' := Without(g, Elements(e) + Elements(p));
    RankTiers(c, popular, q);
    assert r == e + Without(p, Elements(e)) + g';
    assert Elements(e) == {e[0]};
    WithoutNothing(p, {e[0]});
    assert r == e + p + g';
    ConcatAt(e, p, g', |p|);
    assert r[|p|] == p[|p| - 1];
  }

  /** For the empty query every catalog token is ranked, once. */
  lemma RankEmptyQuery(c: seq<Token>, popular: seq<string>)
    ensures |Rank(c, popular, "")| == |c|
    ensures forall x :: 0 <= x < |c| ==> x in Rank(c, popular, "")
  {
    var r := Rank(c, popular, "");
    forall x | 0 <= x < |c| ensures x in r {
      assert Lower(c[x].name)[..0] == Lower("");
    }
    DistinctCard(r);
    BelowFacts(|c|);
    assert Elements(r) == Below(|c|);
  }

  lemma {:induction false} DistinctCard(s: seq<nat>)
    requires Distinct(s)
    ensures |Elements(s)| == |s|
    decreases |s|
  {
    if s != [] {
      DistinctCard(s[1..]);
      assert Elements(s) == Elements(s[1..]) + {s[0]};
      assert s[0] !in Elements(s[1..]);
    }
  }

  /** The indices below `n`. */
  function Below(n: nat): set<nat> {
    if n == 0 then {} else Below(n - 1) + {n - 1}
  }

  lemma {:induction false} BelowFacts(n: nat)
    ensures |Below(n)| == n
    ensures forall x: nat :: x in Below(n) <==> x < n
  {
    if n > 0 {
      BelowFacts(n - 1);
      assert Below(n) == Below(n - 1) + {n - 1};
      assert n - 1 !in Below(n - 1);
    }
  }

  /** For the empty query a token with non-empty fields matches generally
      but not exactly, so only its symbol decides its tier. */
  lemma EmptyQueryTier(t: Token, popular: seq<string>)
    requires t.name != "" && t.symbol != "" && t.address != ""
    ensures TierRank(t, popular, "") == if t.symbol in popular then 1 else 2
  {
    assert Lower(t.name)[..0] == Lower("");
    assert |Lower(t.symbol)| > 0 && |Lower(t.name)| > 0 && |Lower(t.address)| > 0;
  }

  /** With the empty query, and no token with an empty name, symbol or
      address, every token with a popular symbol is ranked ahead of every
      token without one, whatever their names. */
  lemma EmptyQueryPutsPopularFirst(c: seq<Token>, popular: seq<string>)
    requires forall t :: t in c ==> t.name != "" && t.symbol != "" && t.address != ""
    ensures var r := Rank(c, popular, "");
      forall i, j :: 0 <= i < j < |r| && c[r[j]].symbol in popular ==> c[r[i]].symbol in popular
  {
    RankOrdered(c, popular, "");
    forall k | 0 <= k < |c|
      ensures TierRank(c[k], popular, "") == if c[k].symbol in popular then 1 else 2
    {
      assert c[k] in c;
      EmptyQueryTier(c[k], popular);
    }
  }

  function Min(a: int, b: int): int {
    if a < b then a else b
  }

  /** `filteredTokens.slice(0, (page + 1) * TOKEN_SHOW_LIMIT)`. */
  function Window(s: seq<nat>, page: nat): (w: seq<nat>)
    ensures |w| == Min((page + 1) * PageSize, |s|) && w == s[..|w|]
  {
    s[..Min((page + 1) * PageSize, |s|)]
  }

  /** `tokenListShowMore`: some ranked token lies beyond the window. */
  predicate HasMore(s: seq<nat>, page: nat) {
    |s| > |Window(s, page)|
  }

  /** The next page extends the window by at most one page, and grows it
      exactly when there was more to show. */
  lemma WindowNextPage(s: seq<nat>, page: nat)
    ensures Window(s, page) <= Window(s, page + 1)
    ensures |Window(s, page + 1)| <= |Window(s, page)| + PageSize
    ensures HasMore(s, page) <==> |s| > (page + 1) * PageSize
    ensures HasMore(s, page) <==> |Window(s, page + 1)| > |Window(s, page)|
  {
  }

  /** Once the pages cover the list, the window is the whole list. */
  lemma WindowCoversAll(s: seq<nat>, page: nat)
    requires |s| <= (page + 1) * PageSize
    ensures Window(s, page) == s && !HasMore(s, page)
  {
  }
}
