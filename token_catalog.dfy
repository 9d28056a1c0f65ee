/** The catalog of custom tokens offered for search: the available tokens
    ordered by name (lodash `orderBy(tokens, 'name')`, a stable ascending
    sort), minus the native coin and every token BitPay already supports. */
module TokenCatalog {
  import opened Strings

  datatype Token = Token(name: string, symbol: string, address: string, decimals: int, logoURI: Option<string>)

  /** The chain's native coin, never offered as a custom token. */
  const NativeSymbol := "eth"

  /** `['eth', ...bitpaySupportedTokens]`: the supported symbols lower-cased. */
  function ExclusionList(supported: seq<string>): seq<string> {
    [NativeSymbol] + seq(|supported|, i requires 0 <= i < |supported| => Lower(supported[i]))
  }

  predicate Excluded(t: Token, supported: seq<string>) {
    Lower(t.symbol) in ExclusionList(supported)
  }

  /** A token is excluded exactly when its lower-cased symbol is the native
      coin's or that of some supported token. */
  lemma ExcludedIff(t: Token, supported: seq<string>)
    ensures Excluded(t, supported)
        <==> Lower(t.symbol) == NativeSymbol || exists i :: 0 <= i < |supported| && Lower(supported[i]) == Lower(t.symbol)
  {
    var list := ExclusionList(supported);
    if i :| 0 <= i < |supported| && Lower(supported[i]) == Lower(t.symbol) {
      assert list[i + 1] == Lower(t.symbol);
    }
  }

  /** Keeps the tokens that are not excluded, in their order. */
  function DropExcluded(ts: seq<Token>, supported: seq<string>): (r: seq<Token>)
    ensures |r| <= |ts|
    ensures forall i :: 0 <= i < |r| ==> !Excluded(r[i], supported)
  {
    if ts == [] then []
    else (if Excluded(ts[0], supported) then [] else [ts[0]]) + DropExcluded(ts[1..], supported)
  }

  /** Each kept token occurs as often as in the input; excluded ones not at all. */
  lemma {:induction false} DropExcludedCount(ts: seq<Token>, supported: seq<string>, t: Token)
    ensures multiset(DropExcluded(ts, supported))[t] == if Excluded(t, supported) then 0 else multiset(ts)[t]
  {
    if ts != [] {
      assert ts == [ts[0]] + ts[1..];
      DropExcludedCount(ts[1..], supported, t);
    }
  }

  lemma {:induction false} DropExcludedMember(ts: seq<Token>, supported: seq<string>, t: Token)
    ensures t in DropExcluded(ts, supported) <==> t in ts && !Excluded(t, supported)
  {
    DropExcludedCount(ts, supported, t);
    assert t in DropExcluded(ts, supported) <==> t in multiset(DropExcluded(ts, supported));
    assert t in ts <==> t in multiset(ts);
  }

  ghost predicate SortedByName(ts: seq<Token>) {
    forall i, j :: 0 <= i < j < |ts| ==> LexLe(ts[i].name, ts[j].name)
  }

  /** Places `t` before the first token whose name is not smaller, so that
      a sort built from it keeps equal names in input order. */
  function Insert(t: Token, ts: seq<Token>): (r: seq<Token>)
    ensures multiset(r) == multiset(ts) + multiset{t}
  {
    if ts == [] || LexLe(t.name, ts[0].name) then [t] + ts
    else
      assert ts == [ts[0]] + ts[1..];
      [ts[0]] + Insert(t, ts[1..])
  }

  function SortByName(ts: seq<Token>): (r: seq<Token>)
    ensures multiset(r) == multiset(ts)
  {
    if ts == [] then []
    else
      assert ts == [ts[0]] + ts[1..];
      Insert(ts[0], SortByName(ts[1..]))
  }

  lemma {:induction false} InsertSorted(t: Token, ts: seq<Token>)
    requires SortedByName(ts)
    ensures SortedByName(Insert(t, ts))
  {
    if ts == [] || LexLe(t.name, ts[0].name) {
      forall j | 0 <= j < |ts| ensures LexLe(t.name, ts[j].name) {
        if j > 0 { LexLeTransitive(t.name, ts[0].name, ts[j].name); }
      }
    } else {
      InsertSorted(t, ts[1..]);
      var rest := Insert(t, ts[1..]);
      LexLeTotal(t.name, ts[0].name);
      forall j | 0 <= j < |rest| ensures LexLe(ts[0].name, rest[j].name) {
        assert rest[j] in multiset(rest);
        if rest[j] != t {
          assert rest[j] in ts[1..];
        }
      }
    }
  }

  lemma {:induction false} SortByNameSorted(ts: seq<Token>)
    ensures SortedByName(SortByName(ts))
  {
    if ts != [] {
      SortByNameSorted(ts[1..]);
      InsertSorted(ts[0], SortByName(ts[1..]));
    }
  }

  lemma SortedTail(ts: seq<Token>)
    requires ts != [] && SortedByName(ts)
    ensures SortedByName(ts[1..])
  {
    forall i, j | 0 <= i < j < |ts| - 1 ensures LexLe(ts[1..][i].name, ts[1..][j].name) {
      assert ts[1..][i] == ts[i + 1] && ts[1..][j] == ts[j + 1];
    }
  }

  lemma DropCons(t: Token, ts: seq<Token>, supported: seq<string>)
    ensures DropExcluded([t] + ts, supported)
         == (if Excluded(t, supported) then [] else [t]) + DropExcluded(ts, supported)
  {
    assert ([t] + ts)[0] == t && ([t] + ts)[1..] == ts;
  }

  lemma InsertCons(t: Token, u: Token, ts: seq<Token>)
    ensures Insert(t, [u] + ts) == if LexLe(t.name, u.name) then [t, u] + ts else [u] + Insert(t, ts)
  {
    assert ([u] + ts)[0] == u && ([u] + ts)[1..] == ts;
  }

  lemma DropInsertFront(t: Token, ts: seq<Token>, supported: seq<string>)
    requires SortedByName(ts)
    requires ts == [] || LexLe(t.name, ts[0].name)
    ensures DropExcluded(Insert(t, ts), supported)
         == if Excluded(t, supported) then DropExcluded(ts, supported)
            else Insert(t, DropExcluded(ts, supported))
  {
    assert Insert(t, ts) == [t] + ts;
    DropCons(t, ts, supported);
    var kept := DropExcluded(ts, supported);
    if !Excluded(t, supported) && kept != [] {
      DropExcludedMember(ts, supported, kept[0]);
      var j :| 0 <= j < |ts| && ts[j] == kept[0];
      if j > 0 { LexLeTransitive(t.name, ts[0].name, ts[j].name); }
      assert Insert(t, kept) == [t] + kept;
    }
  }

  /** Dropping excluded tokens commutes with inserting into a sorted list. */
  lemma {:induction false} DropInsert(t: Token, ts: seq<Token>, supported: seq<string>)
    requires SortedByName(ts)
    ensures DropExcluded(Insert(t, ts), supported)
         == if Excluded(t, supported) then DropExcluded(ts, supported)
            else Insert(t, DropExcluded(ts, supported))
  {
    if ts == [] || LexLe(t.name, ts[0].name) {
      DropInsertFront(t, ts, supported);
    } else {
      var u, tail := ts[0], ts[1..];
      assert ts == [u] + tail;
      var head := if Excluded(u, supported) then [] else [u];
      assert Insert(t, ts) == [u] + Insert(t, tail);
      SortedTail(ts);
      DropInsert(t, tail, supported);
      DropCons(u, Insert(t, tail), supported);
      assert DropExcluded(Insert(t, ts), supported) == head + DropExcluded(Insert(t, tail), supported);
      DropCons(u, tail, supported);
      assert DropExcluded(ts, supported) == head + DropExcluded(tail, supported);
      if !Excluded(t, supported) {
        if Excluded(u, supported) {
          assert head + DropExcluded(tail, supported) == DropExcluded(tail, supported);
        } else {
          InsertCons(t, u, DropExcluded(tail, supported));
        }
      }
    }
  }

  lemma {:induction false} DropSortCommute(ts: seq<Token>, supported: seq<string>)
    ensures DropExcluded(SortByName(ts), supported) == SortByName(DropExcluded(ts, supported))
  {
    if ts != [] {
      var u, tail := ts[0], ts[1..];
      assert ts == [u] + tail;
      assert SortByName(ts) == Insert(u, SortByName(tail));
      DropSortCommute(tail, supported);
      SortByNameSorted(tail);
      DropInsert(u, SortByName(tail), supported);
      DropCons(u, tail, supported);
      var kept := DropExcluded(tail, supported);
      if Excluded(u, supported) {
        assert DropExcluded(ts, supported) == kept;
        assert DropExcluded(SortByName(ts), supported) == DropExcluded(SortByName(tail), supported);
      } else {
        assert DropExcluded(ts, supported) == [u] + kept;
        assert ([u] + kept)[0] == u && ([u] + kept)[1..] == kept;
        assert SortByName([u] + kept) == Insert(u, SortByName(kept));
        assert DropExcluded(SortByName(ts), supported) == Insert(u, DropExcluded(SortByName(tail), supported));
      }
    }
  }

  /** The catalog built once by the page's constructor: ordered by name, a
      permutation of the non-excluded available tokens, and free of the
      native coin and of every BitPay-supported symbol, case-insensitively. */
  function BuildCatalog(available: seq<Token>, supported: seq<string>): (r: seq<Token>)
    ensures SortedByName(r)
    ensures multiset(r) == multiset(DropExcluded(available, supported))
  {
    DropSortCommute(available, supported);
    SortByNameSorted(DropExcluded(available, supported));
    DropExcluded(SortByName(available), supported)
  }

  /** No catalog token carries the native or a supported symbol, in any case,
      and each token is in the catalog as often as it is available. */
  lemma CatalogContents(available: seq<Token>, supported: seq<string>, t: Token)
    ensures multiset(BuildCatalog(available, supported))[t]
         == if Excluded(t, supported) then 0 else multiset(available)[t]
    ensures t in BuildCatalog(available, supported) <==> t in available && !Excluded(t, supported)
  {
    DropExcludedCount(available, supported, t);
    DropExcludedMember(available, supported, t);
    var r := BuildCatalog(available, supported);
    assert t in r <==> t in multiset(r);
    assert t in DropExcluded(available, supported) <==> t in multiset(DropExcluded(available, supported));
  }
}
