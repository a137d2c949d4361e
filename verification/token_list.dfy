/** The token list of the create-pool view: wallet tokens enriched from the
    token registry by mint (`matchedTokens`), and the four-key comparator the
    view sorts the wallet tokens with, together with the in-place sort. */
module TokenList {
  import opened Common
  import opened Text

  /** A token account held by the wallet. A missing or empty name or logo is
      the empty string: both are falsy for `||` and for `.filter`. */
  datatype Token = Token(mint: PublicKey, amount: int, decimals: nat, name: string, logo: string)

  /** An entry of the external token registry. */
  datatype RegistryToken = RegistryToken(
    mint: PublicKey, name: string, symbol: string, image: string, decimals: Option<nat>)

  /** What the comparator consults besides the tokens: the SDK, for its
      native-mint test, and the mints of the standard token list. */
  datatype Ranking = Ranking(sdk: Sdk, known: seq<PublicKey>)

  // ---------------------------------------------------------------------------
  // Registry lookup and enrichment

  /** `registry.find(jt => jt.mint.equals(mint))`: the first entry with that mint. */
  function FindByMint(registry: seq<RegistryToken>, mint: PublicKey): (r: Option<RegistryToken>)
    ensures r.None? <==> forall i :: 0 <= i < |registry| ==> registry[i].mint != mint
    ensures r.Some? ==> exists i :: (0 <= i < |registry| && registry[i] == r.value
      && r.value.mint == mint && forall j :: 0 <= j < i ==> registry[j].mint != mint)
  {
    if |registry| == 0 then None
    else if registry[0].mint == mint then Some(registry[0])
    else
      var r := FindByMint(registry[1..], mint);
      assert r.Some? ==> exists i :: (0 <= i < |registry| && registry[i] == r.value
        && forall j :: 0 <= j < i ==> registry[j].mint != mint)
      by {
        if r.Some? {
          var i :| 0 <= i < |registry| - 1 && registry[1..][i] == r.value
            && forall j :: 0 <= j < i ==> registry[1..][j].mint != mint;
          assert registry[i + 1] == r.value;
          assert forall j :: 0 < j < i + 1 ==> registry[j].mint == registry[1..][j - 1].mint;
        }
      }
      r
  }

  /** JavaScript `a || b` on strings. */
  function OrElse(a: string, b: string): string {
    if a != "" then a else b
  }

  /** One element of `matchedTokens` before filtering: the registry's name and
      image win when they are non-empty. */
  function Enrich(t: Token, registry: seq<RegistryToken>): (e: Token)
    ensures e.mint == t.mint && e.amount == t.amount && e.decimals == t.decimals
  {
    var jt := FindByMint(registry, t.mint);
    t.(name := OrElse(if jt.Some? then jt.value.name else "", t.name),
       logo := OrElse(if jt.Some? then jt.value.image else "", t.logo))
  }

  /** `matchedTokens`: enrich every wallet token, then drop those without a name. */
  function MatchTokens(tokens: seq<Token>, registry: seq<RegistryToken>): (r: seq<Token>)
    ensures |r| <= |tokens|
    ensures forall k :: 0 <= k < |r| ==> r[k].name != ""
  {
    if |tokens| == 0 then []
    else
      var e := Enrich(tokens[0], registry);
      (if e.name != "" then [e] else []) + MatchTokens(tokens[1..], registry)
  }

  /** The name and logo of an enriched token: the registry's first match by
      mint when it has a non-empty value, the token's own value otherwise. */
  lemma EnrichNameAndLogo(t: Token, registry: seq<RegistryToken>, i: nat)
    requires i < |registry| && registry[i].mint == t.mint
    requires forall j :: 0 <= j < i ==> registry[j].mint != t.mint
    ensures Enrich(t, registry).name == if registry[i].name != "" then registry[i].name else t.name
    ensures Enrich(t, registry).logo == if registry[i].image != "" then registry[i].image else t.logo
  {
    var jt := FindByMint(registry, t.mint);
    var k :| 0 <= k < |registry| && registry[k] == jt.value && jt.value.mint == t.mint
      && forall j :: 0 <= j < k ==> registry[j].mint != t.mint;
    assert k == i;
  }

  /** A token without a registry match keeps its own name and logo. */
  lemma EnrichUnmatched(t: Token, registry: seq<RegistryToken>)
    requires forall j :: 0 <= j < |registry| ==> registry[j].mint != t.mint
    ensures Enrich(t, registry) == t
  {
  }

  /** The merge is an order-preserving map-then-filter: it works element by
      element and commutes with concatenation. */
  lemma {:induction false} MatchTokensAppend(a: seq<Token>, b: seq<Token>, registry: seq<RegistryToken>)
    ensures MatchTokens(a + b, registry) == MatchTokens(a, registry) + MatchTokens(b, registry)
    decreases |a|
  {
    if |a| == 0 {
      assert a + b == b;
    } else {
      assert (a + b)[0] == a[0] && (a + b)[1..] == a[1..] + b;
      MatchTokensAppend(a[1..], b, registry);
    }
  }

  /** A token survives the filter exactly when its resolved name is non-empty. */
  lemma MatchTokensOne(t: Token, registry: seq<RegistryToken>)
    ensures MatchTokens([t], registry) == if Enrich(t, registry).name != "" then [Enrich(t, registry)] else []
    ensures |MatchTokens([t], registry)| == 1 <==> (Enrich(t, registry).name != "")
    ensures Enrich(t, registry).name == "" <==>
      t.name == "" && (FindByMint(registry, t.mint).None? || FindByMint(registry, t.mint).value.name == "")
  {
    assert [t][1..] == [];
  }

  lemma EnrichIdempotent(t: Token, registry: seq<RegistryToken>)
    ensures Enrich(Enrich(t, registry), registry) == Enrich(t, registry)
  {
  }

  /** Merging an already merged list changes nothing. */
  lemma {:induction false} MatchTokensIdempotent(tokens: seq<Token>, registry: seq<RegistryToken>)
    ensures MatchTokens(MatchTokens(tokens, registry), registry) == MatchTokens(tokens, registry)
    decreases |tokens|
  {
    if |tokens| > 0 {
      var e := Enrich(tokens[0], registry);
      var head := if e.name != "" then [e] else [];
      var rest := MatchTokens(tokens[1..], registry);
      MatchTokensIdempotent(tokens[1..], registry);
      MatchTokensAppend(head, rest, registry);
      EnrichIdempotent(tokens[0], registry);
      if e.name != "" {
        MatchTokensOne(e, registry);
      }
    }
  }

  // ---------------------------------------------------------------------------
  // The comparator

  function Flag(b: bool): int {
    if b then 1 else 0
  }

  /** The comparator handed to `tokens.sort`: native mint first, then the
      standard token list, then larger balance, then base58 mint ascending.
      It never returns 0; equal mints with equal balances give -1 both ways. */
  function Compare(r: Ranking, a: Token, b: Token): (c: int)
    ensures c != 0
  {
    var nativeDiff := Flag(r.sdk.isNativeMint(b.mint)) - Flag(r.sdk.isNativeMint(a.mint));
    if nativeDiff != 0 then nativeDiff
    else
      var knownDiff := Flag(b.mint in r.known) - Flag(a.mint in r.known);
      if knownDiff != 0 then knownDiff
      else
        var balanceDiff := b.amount - a.amount;
        if balanceDiff != 0 then balanceDiff
        else if StrLess(b.mint, a.mint) then 1 else -1
  }

  /** `a` may stand before `b` in the sorted list. */
  predicate Before(r: Ranking, a: Token, b: Token) {
    Compare(r, a, b) < 0
  }

  lemma NativeFirst(r: Ranking, a: Token, b: Token)
    requires r.sdk.isNativeMint(a.mint) && !r.sdk.isNativeMint(b.mint)
    ensures Compare(r, a, b) < 0 && Compare(r, b, a) > 0
  {
  }

  lemma KnownFirst(r: Ranking, a: Token, b: Token)
    requires r.sdk.isNativeMint(a.mint) == r.sdk.isNativeMint(b.mint)
    requires a.mint in r.known && b.mint !in r.known
    ensures Compare(r, a, b) < 0 && Compare(r, b, a) > 0
  {
  }

  lemma LargerBalanceFirst(r: Ranking, a: Token, b: Token)
    requires r.sdk.isNativeMint(a.mint) == r.sdk.isNativeMint(b.mint)
    requires (a.mint in r.known) == (b.mint in r.known)
    requires a.amount > b.amount
    ensures Compare(r, a, b) < 0 && Compare(r, b, a) > 0
  {
  }

  lemma SmallerMintFirst(r: Ranking, a: Token, b: Token)
    requires r.sdk.isNativeMint(a.mint) == r.sdk.isNativeMint(b.mint)
    requires (a.mint in r.known) == (b.mint in r.known)
    requires a.amount == b.amount && StrLess(a.mint, b.mint)
    ensures Compare(r, a, b) == -1 && Compare(r, b, a) == 1
  {
    StrLessAsymmetric(a.mint, b.mint);
  }

  /** For distinct mints the comparator is antisymmetric. */
  lemma CompareAntisymmetric(r: Ranking, a: Token, b: Token)
    requires a.mint != b.mint
    ensures Compare(r, a, b) < 0 <==> Compare(r, b, a) > 0
  {
    StrLessTotal(a.mint, b.mint);
    if StrLess(a.mint, b.mint) {
      StrLessAsymmetric(a.mint, b.mint);
    } else {
      StrLessAsymmetric(b.mint, a.mint);
    }
  }

  /** For equal mints and balances it answers -1 both ways: it is a strict
      order only on lists whose mints are unique. */
  lemma CompareSameMint(r: Ranking, a: Token, b: Token)
    requires a.mint == b.mint && a.amount == b.amount
    ensures Compare(r, a, b) == -1 && Compare(r, b, a) == -1
  {
    StrLessIrreflexive(a.mint);
  }

  lemma BeforeTotal(r: Ranking, a: Token, b: Token)
    ensures Before(r, a, b) || Before(r, b, a)
  {
    if a.mint != b.mint {
      CompareAntisymmetric(r, a, b);
    } else {
      StrLessIrreflexive(a.mint);
    }
  }

  lemma BeforeTransitive(r: Ranking, a: Token, b: Token, c: Token)
    requires Before(r, a, b) && Before(r, b, c)
    ensures Before(r, a, c)
  {
    if r.sdk.isNativeMint(a.mint) == r.sdk.isNativeMint(c.mint) && (a.mint in r.known) == (c.mint in r.known)
      && a.amount == c.amount
    {
      // all three share the first three keys; only the mint order is left
      if StrLess(c.mint, a.mint) {
        if StrLess(a.mint, b.mint) {
          StrLessTransitive(c.mint, a.mint, b.mint);
        } else if a.mint != b.mint {
          StrLessTotal(a.mint, b.mint);
        }
      }
    }
  }

  // ---------------------------------------------------------------------------
  // Sortedness and the in-place sort

  ghost predicate Sorted(r: Ranking, s: seq<Token>) {
    forall i, j :: 0 <= i < j < |s| ==> Before(r, s[i], s[j])
  }

  ghost predicate AdjacentSorted(r: Ranking, s: seq<Token>) {
    forall k :: 0 < k < |s| ==> Before(r, s[k - 1], s[k])
  }

  lemma {:induction false} AdjacentSortedIsSorted(r: Ranking, s: seq<Token>)
    requires AdjacentSorted(r, s)
    ensures Sorted(r, s)
    decreases |s|
  {
    if |s| > 1 {
      var init := s[..|s| - 1];
      assert AdjacentSorted(r, init);
      AdjacentSortedIsSorted(r, init);
      forall i | 0 <= i < |s| - 1
        ensures Before(r, s[i], s[|s| - 1])
      {
        if i < |s| - 2 {
          assert Before(r, init[i], init[|s| - 2]);
          BeforeTransitive(r, s[i], s[|s| - 2], s[|s| - 1]);
        }
      }
    }
  }

  /** In a sorted list every native-mint token precedes every other token. */
  lemma SortedNativeFirst(r: Ranking, s: seq<Token>, i: nat, j: nat)
    requires Sorted(r, s) && i < |s| && j < |s|
    requires r.sdk.isNativeMint(s[i].mint) && !r.sdk.isNativeMint(s[j].mint)
    ensures i < j
  {
    if j < i {
      assert Before(r, s[j], s[i]);
      NativeFirst(r, s[i], s[j]);
    }
  }

  /** Among tokens of equal native status, standard-list tokens come first. */
  lemma SortedKnownFirst(r: Ranking, s: seq<Token>, i: nat, j: nat)
    requires Sorted(r, s) && i < |s| && j < |s|
    requires r.sdk.isNativeMint(s[i].mint) == r.sdk.isNativeMint(s[j].mint)
    requires s[i].mint in r.known && s[j].mint !in r.known
    ensures i < j
  {
    if j < i {
      assert Before(r, s[j], s[i]);
      KnownFirst(r, s[i], s[j]);
    }
  }

  /** The first `i + 1` elements are in order except possibly at the pair
      ending at `j`, which the element at `j - 1` may precede only after the
      element at `j` has moved past it. */
  ghost predicate InsertionState(r: Ranking, s: seq<Token>, i: nat, j: nat) {
    j <= i < |s|
    && (forall k :: 0 < k <= i && k != j ==> Before(r, s[k - 1], s[k]))
    && (0 < j < i ==> Before(r, s[j - 1], s[j + 1]))
  }

  /** Swapping an out-of-order pair at `j` moves the gap to `j - 1`. */
  lemma SwapStep(r: Ranking, s: seq<Token>, i: nat, j: nat)
    requires InsertionState(r, s, i, j) && 0 < j
    requires !Before(r, s[j - 1], s[j])
    ensures InsertionState(r, s[j - 1 := s[j]][j := s[j - 1]], i, j - 1)
  {
    BeforeTotal(r, s[j - 1], s[j]);
    var t := s[j - 1 := s[j]][j := s[j - 1]];
    forall k | 0 < k <= i && k != j - 1
      ensures Before(r, t[k - 1], t[k])
    {
      if k == j + 1 {
        assert t[k - 1] == s[j - 1] && t[k] == s[j + 1];
      } else if k != j {
        assert t[k - 1] == s[k - 1] && t[k] == s[k];
      }
    }
    if 0 < j - 1 {
      assert t[j - 2] == s[j - 2] && t[j] == s[j - 1];
    }
  }

  /** Exchanges `a[j - 1]` and `a[j]`. */
  method Swap(a: array<Token>, j: nat)
    requires 0 < j < a.Length
    modifies a
    ensures a[..] == old(a[..])[j - 1 := old(a[j])][j := old(a[j - 1])]
    ensures multiset(a[..]) == multiset(old(a[..]))
  {
    a[j - 1], a[j] := a[j], a[j - 1];
  }

  /** One pass of the sort: moves `a[i]` left past every element it must
      precede, so that the first `i + 1` elements are in order. */
  method InsertAt(r: Ranking, a: array<Token>, i: nat)
    requires i < a.Length
    requires forall k :: 0 < k < i ==> Before(r, a[k - 1], a[k])
    modifies a
    ensures forall k :: 0 < k <= i ==> Before(r, a[k - 1], a[k])
    ensures forall k :: i < k < a.Length ==> a[k] == old(a[k])
    ensures multiset(a[..]) == multiset(old(a[..]))
  {
    var j: nat := i;
    assert InsertionState(r, a[..], i, j);
    while j > 0 && !Before(r, a[j - 1], a[j])
      invariant InsertionState(r, a[..], i, j)
      invariant a[i + 1..] == old(a[i + 1..])
      invariant multiset(a[..]) == multiset(old(a[..]))
    {
      ghost var s := a[..];
      SwapStep(r, s, i, j);
      Swap(a, j);
      assert a[i + 1..] == s[i + 1..];
      j := j - 1;
    }
    assert forall k :: 0 < k <= i ==> Before(r, a[..][k - 1], a[..][k]);
    assert forall k :: i < k < a.Length ==> a[k] == a[i + 1..][k - i - 1];
  }

  /** `tokens.sort(compare)`: reorders the array in place into comparator order. */
  method SortTokens(r: Ranking, a: array<Token>)
    modifies a
    ensures Sorted(r, a[..])
    ensures multiset(a[..]) == multiset(old(a[..]))
  {
    if a.Length == 0 {
      return;
    }
    var i := 1;
    while i < a.Length
      invariant 1 <= i <= a.Length
      invariant forall k :: 0 < k < i ==> Before(r, a[k - 1], a[k])
      invariant multiset(a[..]) == multiset(old(a[..]))
    {
      InsertAt(r, a, i);
      i := i + 1;
    }
    AdjacentSortedIsSorted(r, a[..]);
  }
}
