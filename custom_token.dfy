/** The "add custom token" page: it searches the catalog of ERC-20 tokens,
    pages through the ranked results, pairs the new token with an ETH wallet
    of the key, and fills the token form from the contract found at a
    typed address.

    Calls into other providers are parameters: the wallets of the key, the
    address decoder, the contract lookup, and what the user picks in a
    chooser or a confirmation modal. */
module CustomToken {
  import opened Strings
  import opened TokenCatalog
  import opened TokenSearch

  datatype Wallet = Wallet(id: string, coin: string, network: string)

  /** What the address decoder says an address belongs to. */
  datatype CoinNetwork = CoinNetwork(coin: string, network: string)

  /** The ERC-20 details read from a contract. */
  datatype ContractInfo = ContractInfo(name: string, symbol: string, decimals: int)

  /** The contract lookup either throws or answers. */
  datatype Lookup = LookupFailed | Found(info: ContractInfo)

  /** How a run of `setTokenInfo` ended. */
  datatype TokenInfoOutcome =
    | Skipped             // no address typed: nothing happens
    | NoPairedWallet      // `this.pairedWallet.network` throws a TypeError
    | WrongCoinOrNetwork  // the address is not for the paired wallet
    | ContractNotFound    // the lookup threw; an error sheet is shown
    | Filled              // the form holds the contract's details

  /** What `showPairedWalletSelector` does with the eligible wallets. */
  datatype Pairing = AutoPair(wallet: Wallet) | PresentChooser(wallets: seq<Wallet>)

  /** The request handed to wallet creation once a token is confirmed. */
  datatype CustomTokenSpec =
    CustomTokenSpec(keyId: string, name: string, address: string, logoURI: Option<string>, symbol: string, decimals: int)

  /** The wallets offered for pairing: the key's single-signature ETH wallets
      (`wallets`, as the profile provider returns them), or none when the
      page was opened without a key. */
  function EligibleWallets(keyId: string, wallets: seq<Wallet>): (r: seq<Wallet>)
    ensures keyId == "" ==> r == []
    ensures keyId != "" ==> r == wallets
  {
    if keyId != "" then wallets else []
  }

  /** A single eligible wallet is paired at once; any other number, none
      included, opens the chooser with all of them. */
  function DecidePairing(eligible: seq<Wallet>): (r: Pairing)
    ensures r.AutoPair? <==> |eligible| == 1
    ensures r.AutoPair? ==> r.wallet == eligible[0]
    ensures r.PresentChooser? ==> r.wallets == eligible
  {
    if |eligible| == 1 then AutoPair(eligible[0]) else PresentChooser(eligible)
  }

  /** Without a key the chooser always opens, and it offers nothing. */
  lemma NoKeyOpensEmptyChooser(wallets: seq<Wallet>)
    ensures DecidePairing(EligibleWallets("", wallets)) == PresentChooser([])
  {
  }

  /** The modal's answer turned into a wallet-creation request: nothing when
      it was dismissed without a token, otherwise the token's fields with
      the symbol lower-cased. */
  function ConfirmedToken(keyId: string, dismissed: Option<Token>): (r: Option<CustomTokenSpec>)
    ensures r.Some? <==> dismissed.Some?
    ensures r.Some? ==>
      (r.value.keyId == keyId && r.value.name == dismissed.value.name
       && r.value.address == dismissed.value.address && r.value.logoURI == dismissed.value.logoURI
       && r.value.decimals == dismissed.value.decimals
       && r.value.symbol == Lower(dismissed.value.symbol))
  {
    match dismissed
    case None => None
    case Some(t) => Some(CustomTokenSpec(keyId, t.name, t.address, t.logoURI, Lower(t.symbol), t.decimals))
  }

  /** The requested symbol is already in lower case, and two tokens whose
      symbols differ only in letter case ask for the same symbol. */
  lemma ConfirmedSymbolCanonical(keyId: string, a: Token, b: Token)
    ensures var ra := ConfirmedToken(keyId, Some(a)).value;
      Lower(ra.symbol) == ra.symbol
    ensures EqualIgnoringCase(a.symbol, b.symbol)
      ==> ConfirmedToken(keyId, Some(a)).value.symbol == ConfirmedToken(keyId, Some(b)).value.symbol
  {
    LowerIdempotent(a.symbol);
    if EqualIgnoringCase(a.symbol, b.symbol) {
      LowerOfEqualIgnoringCase(a.symbol, b.symbol);
    }
  }

  /** `_.isEmpty` on a form value: absent or the empty string. */
  predicate IsEmpty(o: Option<string>) {
    o.None? || o.value == ""
  }

  /** The decoder accepts the address for the paired wallet's coin and network. */
  predicate Matches(decoded: Option<CoinNetwork>, w: Wallet) {
    decoded.Some? && decoded.value.coin == w.coin && decoded.value.network == w.network
  }

  /** `filtered` is the ranking of catalog `c` for query `q`, and
      `sections` its section offsets. */
  ghost predicate RankedFor(c: seq<Token>, popular: seq<string>, q: string, filtered: seq<nat>, sections: SectionOffsets) {
    filtered == Rank(c, popular, q) && sections == Sections(c, popular, q)
  }

  /** `results` is the window of `filtered` for `page`, and `showMore`
      says whether anything lies beyond it. */
  predicate WindowShows(filtered: seq<nat>, page: nat, results: seq<nat>, showMore: bool) {
    results == Window(filtered, page) && showMore == HasMore(filtered, page)
  }

  class CustomTokenPage {
    /** The tokens on offer, fixed when the page is built. */
    const catalog: seq<Token>
    /** `getPopularErc20Tokens()`. */
    const popular: seq<string>
    const keyId: string

    /** `filteredTokens`: catalog indices in rank order. */
    var filtered: seq<nat>
    /** `tokenSearchResults`: the part of `filtered` on screen. */
    var results: seq<nat>
    /** `currentTokenListPage`. */
    var page: nat
    /** `tokenListShowMore`. */
    var showMore: bool
    /** `popularTokensPosition` and `otherTokensPosition`. */
    var sections: SectionOffsets
    /** The search box, bound by the template. */
    var searchQuery: Option<string>
    /** The query of the last search that ran. */
    ghost var lastSearch: string

    /** The four form controls. */
    var tokenName: Option<string>
    var tokenAddress: Option<string>
    var tokenSymbol: Option<string>
    var tokenDecimals: Option<int>
    /** `isValid`: `undefined` until an address is checked. */
    var isValid: Option<bool>

    var pairedWallet: Option<Wallet>
    var isOpenSelector: bool
    /** The wallets offered by the chooser sheet while it is presented. */
    var chooser: Option<seq<Wallet>>
    /** The page was dismissed. */
    var closed: bool

    /** The ranked list and its sections belong to the last query. */
    ghost predicate SearchConsistent()
      reads this`filtered, this`sections, this`lastSearch
    {
      RankedFor(catalog, popular, lastSearch, filtered, sections)
    }

    /** The screen shows the current page's window of the ranked list. */
    ghost predicate WindowConsistent()
      reads this`results, this`showMore, this`filtered, this`page
    {
      WindowShows(filtered, page, results, showMore)
    }

    ghost predicate Valid()
      reads this`filtered, this`sections, this`lastSearch, this`results, this`showMore, this`page
    {
      SearchConsistent() && WindowConsistent()
    }

    /** Builds the catalog, runs the empty search and pairs a wallet;
        `wallets` is what the profile provider returns for the key. */
    constructor(available: seq<Token>, supported: seq<string>, popularSymbols: seq<string>,
                keyId: string, wallets: seq<Wallet>)
      ensures catalog == BuildCatalog(available, supported) && popular == popularSymbols
      ensures this.keyId == keyId
      ensures Valid() && lastSearch == "" && page == 0
      ensures isOpenSelector
      ensures var d := DecidePairing(EligibleWallets(keyId, wallets));
        (d.AutoPair? ==> pairedWallet == Some(d.wallet) && chooser == None)
        && (d.PresentChooser? ==> pairedWallet == None && chooser == Some(d.wallets))
    {
      catalog := BuildCatalog(available, supported);
      popular := popularSymbols;
      this.keyId := keyId;
      filtered := [];
      results := [];
      page := 0;
      showMore := false;
      sections := Unsectioned;
      searchQuery := None;
      lastSearch := "";
      tokenName := None;
      tokenAddress := None;
      tokenSymbol := None;
      tokenDecimals := None;
      isValid := None;
      pairedWallet := None;
      isOpenSelector := false;
      chooser := None;
      closed := false;
      new;
      ShowPairedWalletSelector(wallets);
      UpdateSearchInput("");
    }

    /** `filter`: ranks the catalog for `search`, records the section
        offsets, and flags whether more than one page matched. */
    method Filter(search: string) returns (r: seq<nat>)
      modifies this`filtered, this`sections, this`showMore, this`lastSearch
      ensures r == filtered && lastSearch == search && SearchConsistent()
      ensures showMore == HasMore(filtered, 0)
    {
      lastSearch := search;
      filtered := Rank(catalog, popular, search);
      sections := Sections(catalog, popular, search);
      showMore := |filtered| > PageSize;
      r := filtered;
    }

    /** The throttled search: filters and shows the first page. */
    method ThrottleSearch(search: string)
      modifies this`filtered, this`sections, this`showMore, this`lastSearch, this`results
      ensures lastSearch == search && SearchConsistent()
      ensures results == Window(filtered, 0) && showMore == HasMore(filtered, 0)
    {
      var r := Filter(search);
      results := r[..Min(PageSize, |r|)];
    }

    /** `updateSearchInput`: a new query starts again from the first page. */
    method UpdateSearchInput(search: string)
      modifies this`filtered, this`sections, this`showMore, this`lastSearch, this`results, this`page
      ensures Valid() && lastSearch == search && page == 0
      ensures unchanged(this`pairedWallet, this`chooser, this`isOpenSelector)
    {
      page := 0;
      ThrottleSearch(search);
    }

    /** `showTokens`: the window for the current page. */
    method ShowTokens()
      modifies this`results, this`showMore
      ensures WindowConsistent()
    {
      results := filtered[..Min((page + 1) * PageSize, |filtered|)];
      showMore := |filtered| > |results|;
    }

    /** `moreSearchResults`: the next page keeps what was on screen, adds at
        most one page, and adds something exactly when more was flagged. */
    method MoreSearchResults()
      modifies this`page, this`results, this`showMore
      ensures page == old(page) + 1 && WindowConsistent()
      ensures old(WindowConsistent()) ==> old(results) <= results
      ensures old(WindowConsistent()) ==> |results| <= |old(results)| + PageSize
      ensures old(WindowConsistent()) ==> (old(showMore) <==> |results| > |old(results)|)
    {
      WindowNextPage(filtered, page);
      page := page + 1;
      ShowTokens();
    }

    /** `cleanSearch`: empties the box and searches for nothing. */
    method CleanSearch()
      modifies this`searchQuery, this`filtered, this`sections, this`showMore, this`lastSearch, this`results, this`page
      ensures searchQuery == Some("") && Valid() && lastSearch == "" && page == 0
    {
      searchQuery := Some("");
      UpdateSearchInput("");
    }

    /** `checkCoinAndNetwork`: asks the decoder about `address` for the
        paired wallet's network and records whether coin and network match. */
    method CheckCoinAndNetwork(address: string, decode: (string, string) -> Option<CoinNetwork>) returns (ok: bool)
      requires pairedWallet.Some?
      modifies this`isValid
      ensures ok == Matches(decode(address, pairedWallet.value.network), pairedWallet.value)
      ensures isValid == Some(ok)
    {
      var w := pairedWallet.value;
      var decoded := decode(address, w.network);
      ok := decoded.Some? && w.coin == decoded.value.coin && w.network == decoded.value.network;
      isValid := Some(ok);
    }

    /** `setTokenInfo`: clears the name, symbol and decimals, then fills
        them from the contract at the typed address when that address is
        for the paired wallet's coin and network. */
    method SetTokenInfo(decode: (string, string) -> Option<CoinNetwork>, lookup: (Wallet, string) -> Lookup)
      returns (outcome: TokenInfoOutcome)
      modifies this`tokenName, this`tokenSymbol, this`tokenDecimals, this`tokenAddress, this`isValid
      ensures IsEmpty(old(tokenAddress)) <==> outcome == Skipped
      ensures outcome == Skipped ==> unchanged(this)
      ensures tokenAddress == old(tokenAddress)
      ensures outcome != Filled && outcome != Skipped
          ==> tokenName == None && tokenSymbol == None && tokenDecimals == None
      ensures outcome == NoPairedWallet <==> !IsEmpty(old(tokenAddress)) && pairedWallet.None?
      ensures outcome == NoPairedWallet ==> isValid == old(isValid)
      ensures !IsEmpty(old(tokenAddress)) && pairedWallet.Some? ==>
        var address, w := old(tokenAddress).value, pairedWallet.value;
        if !Matches(decode(address, w.network), w) then
          outcome == WrongCoinOrNetwork && isValid == Some(false)
        else match lookup(w, address)
          case LookupFailed => outcome == ContractNotFound && isValid == None
          case Found(info) =>
            (outcome == Filled && isValid == Some(true)
             && tokenName == Some(info.name) && tokenSymbol == Some(info.symbol)
             && tokenDecimals == Some(info.decimals))
    {
      if IsEmpty(tokenAddress) {
        return Skipped;
      }
      var address := tokenAddress.value;
      tokenName := None;
      tokenSymbol := None;
      tokenDecimals := None;
      if pairedWallet.None? {
        return NoPairedWallet;
      }
      var ok := CheckCoinAndNetwork(address, decode);
      if !ok {
        return WrongCoinOrNetwork;
      }
      var answer := lookup(pairedWallet.value, address);
      match answer {
        case LookupFailed =>
          isValid := None;
          outcome := ContractNotFound;
        case Found(info) =>
          tokenAddress := Some(address);
          tokenName := Some(info.name);
          tokenSymbol := Some(info.symbol);
          tokenDecimals := Some(info.decimals);
          outcome := Filled;
      }
    }

    /** `showPairedWalletSelector`: marks the selector open, then pairs the
        only eligible wallet or presents the chooser with all of them. */
    method ShowPairedWalletSelector(wallets: seq<Wallet>)
      modifies this`isOpenSelector, this`pairedWallet, this`chooser
      ensures isOpenSelector
      ensures var d := DecidePairing(EligibleWallets(keyId, wallets));
        (d.AutoPair? ==> pairedWallet == Some(d.wallet) && chooser == old(chooser))
        && (d.PresentChooser? ==> pairedWallet == old(pairedWallet) && chooser == Some(d.wallets))
    {
      isOpenSelector := true;
      var eligible := EligibleWallets(keyId, wallets);
      if |eligible| == 1 {
        pairedWallet := Some(eligible[0]);
      } else {
        chooser := Some(eligible);
      }
    }

    /** The chooser's dismissal: a picked wallet is paired; dismissing it
        empty-handed closes the page. */
    method OnWalletSelectorDismiss(choice: Option<Wallet>)
      requires chooser.Some?
      modifies this`isOpenSelector, this`pairedWallet, this`chooser, this`closed
      ensures !isOpenSelector && chooser == None
      ensures choice.Some? ==> pairedWallet == choice && closed == old(closed)
      ensures choice.None? ==> pairedWallet == old(pairedWallet) && closed
    {
      isOpenSelector := false;
      chooser := None;
      if choice.Some? {
        pairedWallet := choice;
      } else {
        closed := true;
      }
    }
  }
}
