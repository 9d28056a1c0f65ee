# Custom tokens, BitPay card pairing and BitPay ID settings

This project models three pages of a cryptocurrency wallet app.

- **Add custom token** (`CustomToken`, `TokenSearch`, `TokenCatalog`):
  - The page builds a catalog of ERC-20 tokens. It is ordered by name, and it drops the native coin and every token BitPay supports.
  - A search box ranks the catalog in three tiers: exact matches, popular matches, then general matches. It pages through the result ten tokens at a time and records where the sections begin.
  - The page pairs the new token with one of the key's ETH wallets.
  - It checks a typed contract address against that wallet's coin and network, and fills the token form from the contract's details.
  - It turns the token confirmed in the modal into a wallet-creation request.
- **BitPay card intro** (`BitPayCardIntro`):
  - On entry the page may pair a BitPay account from a secret. It then syncs the cards and moves to the first one.
  - It loads the paired accounts.
  - "Connect" either sends the user to the BitPay dashboard, or offers the accounts, "Add account" and "Cancel" in a sheet.
- **BitPay ID** (`BitPayId`):
  - The page shows the user's initials.
  - It loads the per-network settings, or the defaults.
  - It saves the settings on each change.
  - On leaving, it publishes `BitPayId/SettingsChanged` when the settings differ from what was loaded.

`Strings` holds the shared text helpers:
- JavaScript's optional values and truthiness;
- ASCII case mapping;
- `includes`;
- the `<` order on strings.

Stateful page objects are classes whose methods change their fields. Ranking, paging, labels and initials are functions, with lemmas about them.

Modelling choices:
- A catalog token is referred to by its catalog position, because the deduplication of the ranked list is by object identity.
- Calls into other services become parameters of the methods:
  - the wallets of a key;
  - the address decoder;
  - the contract lookup;
  - the pair, sync and account callbacks' answers;
  - the environment's network;
  - the persisted settings.
- What a page asks of the navigation stack, the browser and the popups is returned as a sequence of `Effect` values.

Behaviour of the code worth knowing:
- The empty query is not special-cased. The exact tier is still computed, and tokens with a popular symbol come before the rest rather than in name order. `TokenSearch.EmptyQueryPutsPopularFirst` states this for catalogs in which no token has an empty name, symbol or address.
- The search is throttled rather than debounced. There is no sequence number that drops stale answers, either for searches or for address checks.
- Zero eligible wallets do not abort the flow. The chooser opens with no wallets, and only dismissing it empty-handed closes the page (`CustomToken.NoKeyOpensEmptyChooser`).
- `isOpenSelector` stays true when the single eligible wallet is paired at once.
- Only the name, symbol and decimals are cleared at the start of an address check. Nothing is cleared when no address was typed.
- The section offsets are right only when two conditions hold: there is at most one exact match, and an exact match with a popular symbol is also a general match. `TokenSearch.SingleExactMatch` names both conditions. When either fails, the offsets can be wrong:
  - With two exact matches, neither with a popular symbol, the second one lands inside the popular section (`TokenSearch.SectionsMisplaceSecondExactMatch`).
  - For a single exact match with a popular symbol that is not a general match, the last popular token lands in the other section (`TokenSearch.SectionsMisplacePopularAddressMatch`). This happens when the query is that token's address.

## Model

| member | source | states |
|---|---|---|
| Strings.ContainsAt | src/pages/add/custom-token/custom-token.ts:272-273 | `includes` holds exactly when the query occurs at some position of the text |
| Strings.LowerIdempotent | src/pages/add/custom-token/custom-token.ts:237 | lower-casing a lower-cased symbol changes nothing |
| Strings.LowerOfEqualIgnoringCase | src/pages/add/custom-token/custom-token.ts:264-266 | strings equal up to letter case lower-case to the same string |
| Strings.LexLeTotal | src/pages/add/custom-token/custom-token.ts:82-85 | any two names are ordered one way or the other |
| Strings.LexLeTransitive | src/pages/add/custom-token/custom-token.ts:82-85 | the name order is transitive |
| TokenCatalog.ExcludedIff | src/pages/add/custom-token/custom-token.ts:79-89 | a token is excluded exactly when its lower-cased symbol is `eth` or the lower-cased symbol of a supported token |
| TokenCatalog.DropExcluded | src/pages/add/custom-token/custom-token.ts:85-89 | the filter never grows the list and keeps no excluded token |
| TokenCatalog.DropExcludedCount | src/pages/add/custom-token/custom-token.ts:85-89 | the filter keeps every non-excluded token as often as it occurs and no excluded one |
| TokenCatalog.DropExcludedMember | src/pages/add/custom-token/custom-token.ts:85-89 | a token survives the filter exactly when it was present and is not excluded |
| TokenCatalog.Insert | src/pages/add/custom-token/custom-token.ts:82-85 | inserting adds exactly that token to the multiset of tokens |
| TokenCatalog.SortByName | src/pages/add/custom-token/custom-token.ts:82-85 | ordering by name is a permutation of its input |
| TokenCatalog.InsertSorted | src/pages/add/custom-token/custom-token.ts:82-85 | inserting into a name-ordered list keeps it ordered |
| TokenCatalog.SortByNameSorted | src/pages/add/custom-token/custom-token.ts:82-85 | the result of ordering by name is ordered by name |
| TokenCatalog.DropInsert | src/pages/add/custom-token/custom-token.ts:82-89 | filtering commutes with inserting into an ordered list |
| TokenCatalog.DropSortCommute | src/pages/add/custom-token/custom-token.ts:82-89 | filtering after ordering equals ordering after filtering |
| TokenCatalog.BuildCatalog | src/pages/add/custom-token/custom-token.ts:79-89 | the catalog is ordered by name and is a permutation of the non-excluded available tokens |
| TokenCatalog.CatalogContents | src/pages/add/custom-token/custom-token.ts:79-89 | a token is in the catalog exactly when it is available and not excluded, as many times as it is available |
| TokenSearch.Matching | src/pages/add/custom-token/custom-token.ts:262-281 | a tier lists, in catalog order, exactly the catalog positions whose token satisfies the tier's test |
| TokenSearch.TierMember | src/pages/add/custom-token/custom-token.ts:262-281 | a position is in a tier exactly when it is a catalog position whose token passes the tier's test |
| TokenSearch.PopularWithinGeneral | src/pages/add/custom-token/custom-token.ts:269-281 | every popular match is also a general match |
| TokenSearch.DedupFrom | src/pages/add/custom-token/custom-token.ts:305-307 | deduplication keeps exactly the unseen elements, each once |
| TokenSearch.DedupThree | src/pages/add/custom-token/custom-token.ts:305-307 | deduplicating the three concatenated tiers gives the exact tier, then the popular tier minus exact matches, then the general tier minus both |
| TokenSearch.Rank | src/pages/add/custom-token/custom-token.ts:256-313 | every ranked entry is a catalog position |
| TokenSearch.RankMembers | src/pages/add/custom-token/custom-token.ts:262-307 | the ranked list holds each exact or general match once and nothing else |
| TokenSearch.RankTiers | src/pages/add/custom-token/custom-token.ts:262-307 | the ranked list is the three tiers with earlier tiers' members removed, each part in catalog order |
| TokenSearch.RankSegments | src/pages/add/custom-token/custom-token.ts:262-307 | the entry at each position belongs to the tier of the segment that position lies in |
| TokenSearch.RankOrdered | src/pages/add/custom-token/custom-token.ts:262-307 | the ranked list is ordered by tier, then by catalog position (and so by name) |
| TokenSearch.RankLength | src/pages/add/custom-token/custom-token.ts:262-307 | the ranked list is at least as long as its exact and popular segments |
| TokenSearch.Sections | src/pages/add/custom-token/custom-token.ts:283-303 | the offsets exist exactly when some token is a popular match. The popular section is as long as the popular tier, and it starts at 1 exactly when the first exact match does not have a popular symbol, else at 0 |
| TokenSearch.SectionsMatchRank | src/pages/add/custom-token/custom-token.ts:283-303 | with at most one exact match, and that one a general match when its symbol is popular, the offsets are absent exactly when no popular match exists. When present, they split the ranked list into an exact non-popular head, the popular-symbol tokens and the rest |
| TokenSearch.PopularAfterExact | src/pages/add/custom-token/custom-token.ts:283-307 | with at most one exact match, and that one a general match when its symbol is popular, the popular segment of the ranked list is one shorter than the popular tier exactly when that match has a popular symbol |
| TokenSearch.SectionBounds | src/pages/add/custom-token/custom-token.ts:283-303 | with at most one exact match, and that one a general match when its symbol is popular, the other-tokens offset is where the popular segment ends, and both offsets lie within the list |
| TokenSearch.SectionAt | src/pages/add/custom-token/custom-token.ts:283-303 | with at most one exact match, and that one a general match when its symbol is popular, each ranked position has the kind of token its section promises |
| TokenSearch.SectionsMisplaceSecondExactMatch | src/pages/add/custom-token/custom-token.ts:283-307 | with two exact matches neither of which has a popular symbol, the popular section starts at 1, yet position 1 holds a non-popular exact match |
| TokenSearch.SectionsMisplacePopularAddressMatch | src/pages/add/custom-token/custom-token.ts:283-307 | when the only exact match has a popular symbol but is not a general match, the offsets are (0, popular-tier length), yet the token at the other-tokens offset is a popular match |
| TokenSearch.PopularAfterLoneExact | src/pages/add/custom-token/custom-token.ts:305-307 | when the only exact match is not a popular match, the whole popular tier follows it, so the last popular match sits at the popular tier's length |
| TokenSearch.RankEmptyQuery | src/pages/add/custom-token/custom-token.ts:262-307 | the empty query ranks the whole catalog, each token once |
| TokenSearch.EmptyQueryTier | src/pages/add/custom-token/custom-token.ts:262-281 | for the empty query a token with non-empty fields is a general match and not an exact one, so only whether its symbol is popular decides its tier |
| TokenSearch.EmptyQueryPutsPopularFirst | src/pages/add/custom-token/custom-token.ts:262-307 | for the empty query, and no catalog token with an empty name, symbol or address, every token with a popular symbol comes before every other token |
| TokenSearch.Window | src/pages/add/custom-token/custom-token.ts:327-336 | the window for page p is the prefix of length min((p+1)·10, length) |
| TokenSearch.WindowNextPage | src/pages/add/custom-token/custom-token.ts:319-336 | the next page's window extends the current one by at most ten, and grows exactly when "show more" was set |
| TokenSearch.WindowCoversAll | src/pages/add/custom-token/custom-token.ts:327-336 | once the pages cover the list, the window is the whole list and "show more" is off |
| CustomToken.EligibleWallets | src/pages/add/custom-token/custom-token.ts:97-104 | without a key no wallet is eligible; with one, the key's wallets are |
| CustomToken.DecidePairing | src/pages/add/custom-token/custom-token.ts:106-126 | exactly one eligible wallet is paired at once; otherwise the chooser gets all of them |
| CustomToken.NoKeyOpensEmptyChooser | src/pages/add/custom-token/custom-token.ts:97-126 | without a key the chooser opens with no wallets |
| CustomToken.ConfirmedToken | src/pages/add/custom-token/custom-token.ts:228-239 | a request exists exactly when the modal returned a token, and it carries the key, the token's fields and its lower-cased symbol |
| CustomToken.ConfirmedSymbolCanonical | src/pages/add/custom-token/custom-token.ts:237 | the requested symbol is lower-case, and symbols that differ only in case give the same request symbol |
| CustomToken.CustomTokenPage.constructor | src/pages/add/custom-token/custom-token.ts:68-93 | the page holds the built catalog, the empty query's ranking on page 0, an open selector and the pairing decision for the key's wallets |
| CustomToken.CustomTokenPage.Filter | src/pages/add/custom-token/custom-token.ts:256-313 | the ranked list and the offsets are those of the query, and "show more" is set exactly when more than one page matched |
| CustomToken.CustomTokenPage.ThrottleSearch | src/pages/add/custom-token/custom-token.ts:249-254 | after a search the screen shows the first page of the new ranking |
| CustomToken.CustomTokenPage.UpdateSearchInput | src/pages/add/custom-token/custom-token.ts:244-247 | a new query returns to page 0 with the screen consistent with the ranking, and leaves the pairing alone |
| CustomToken.CustomTokenPage.ShowTokens | src/pages/add/custom-token/custom-token.ts:327-336 | the screen shows the current page's window and "show more" says whether anything lies beyond it |
| CustomToken.CustomTokenPage.MoreSearchResults | src/pages/add/custom-token/custom-token.ts:319-325 | the page number grows by one; the screen keeps what it showed, adds at most ten, and adds something exactly when "show more" was set |
| CustomToken.CustomTokenPage.CleanSearch | src/pages/add/custom-token/custom-token.ts:338-341 | the box is emptied and the empty query's first page is shown |
| CustomToken.CustomTokenPage.CheckCoinAndNetwork | src/pages/add/custom-token/custom-token.ts:201-212 | the check passes exactly when the decoder reports the paired wallet's coin and network, and is recorded in `isValid` |
| CustomToken.CustomTokenPage.SetTokenInfo | src/pages/add/custom-token/custom-token.ts:148-199 | nothing happens without an address. Otherwise the three detail fields are cleared; no paired wallet throws; a mismatch sets `isValid` false; a failed lookup resets `isValid`; a found contract fills the fields and keeps the address |
| CustomToken.CustomTokenPage.ShowPairedWalletSelector | src/pages/add/custom-token/custom-token.ts:95-116 | the selector is marked open, and the single eligible wallet is paired or the chooser is given all of them |
| CustomToken.CustomTokenPage.OnWalletSelectorDismiss | src/pages/add/custom-token/custom-token.ts:117-125 | the selector closes; a picked wallet is paired, and no pick closes the page |
| BitPayCardIntro.AccountLabel | src/pages/integrations/bitpay-card/bitpay-card-intro/bitpay-card-intro.ts:137-141 | the label is the given name, or the family name when the given name is empty, followed by the e-mail in parentheses |
| BitPayCardIntro.AccountButtons | src/pages/integrations/bitpay-card/bitpay-card-intro/bitpay-card-intro.ts:135-146 | one button per account, in account order, each selecting its account |
| BitPayCardIntro.SelectorOptions | src/pages/integrations/bitpay-card/bitpay-card-intro/bitpay-card-intro.ts:132-160 | the account buttons, then "Add account", then a "Cancel" with the cancel role |
| BitPayCardIntro.AccountSelectEffects | src/pages/integrations/bitpay-card/bitpay-card-intro/bitpay-card-intro.ts:169-181 | no account starts pairing. An account is synced with its own context. The page goes back exactly when the sync succeeded; otherwise an "Error" alert shows the error text |
| BitPayCardIntro.Press | src/pages/integrations/bitpay-card/bitpay-card-intro/bitpay-card-intro.ts:142-160 | an account button runs the account selection for its account, "Add account" starts pairing, and "Cancel" does nothing |
| BitPayCardIntro.PressSelectorOption | src/pages/integrations/bitpay-card/bitpay-card-intro/bitpay-card-intro.ts:142-181 | the i-th account button syncs the i-th account, "Add account" starts pairing, and "Cancel" does nothing |
| BitPayCardIntro.EnterPairingEffects | src/pages/integrations/bitpay-card/bitpay-card-intro/bitpay-card-intro.ts:42-91 | without a secret nothing happens; with one, pairing is requested first, with the secret, e-mail and one-time code |
| BitPayCardIntro.EnterPairingFlow | src/pages/integrations/bitpay-card/bitpay-card-intro/bitpay-card-intro.ts:42-91 | pairing runs only with a secret. The sync runs only after an error-free pairing that paired, with its context. A card is opened only after an error-free sync returning cards, and it is the first card. A pairing error shows the pairing alert with its text; a sync error after a successful pairing shows the card-update alert with its text |
| BitPayCardIntro.AccountsEffects | src/pages/integrations/bitpay-card/bitpay-card-intro/bitpay-card-intro.ts:93-98 | an accounts error shows an "Error" alert with its text; otherwise nothing is shown |
| BitPayCardIntro.BitPayCardIntroPage.constructor | src/pages/integrations/bitpay-card/bitpay-card-intro/bitpay-card-intro.ts:23 | the accounts start out unloaded |
| BitPayCardIntro.BitPayCardIntroPage.IonViewWillEnter | src/pages/integrations/bitpay-card/bitpay-card-intro/bitpay-card-intro.ts:38-100 | the entry pairing's effects come first, then the account answer's. An error keeps the old accounts and alerts; otherwise the answer replaces them |
| BitPayCardIntro.BitPayCardIntroPage.ConnectBitPayCard | src/pages/integrations/bitpay-card/bitpay-card-intro/bitpay-card-intro.ts:118-130 | unloaded accounts throw; no accounts start pairing at the dashboard; otherwise the sheet with the selector options opens |
| BitPayCardIntro.BitPayCardIntroPage.ShowAccountSelector | src/pages/integrations/bitpay-card/bitpay-card-intro/bitpay-card-intro.ts:132-167 | the options built are the selector options of the loaded accounts, or only "Add account" and "Cancel" before loading |
| BitPayId.Initial | src/pages/settings/bitpay-id/bitpay-id.ts:108 | an empty or absent name contributes nothing; any other name contributes its upper-cased first letter |
| BitPayId.Initials | src/pages/settings/bitpay-id/bitpay-id.ts:104-110 | no user gives "". Otherwise there is one letter per non-empty name, given name first, none of them lower-case |
| BitPayId.Loaded | src/pages/settings/bitpay-id/bitpay-id.ts:45-47 | the settings stored for the network, or the defaults when none are stored |
| BitPayId.LoadAfterSave | src/pages/settings/bitpay-id/bitpay-id.ts:66-71 | after saving for a network, exactly those settings load for it, and other networks load as before |
| BitPayId.LeaveEvents | src/pages/settings/bitpay-id/bitpay-id.ts:52-58 | the change event is published exactly when the settings differ from the loaded snapshot |
| BitPayId.ToggleDetected | src/pages/settings/bitpay-id/bitpay-id.ts:48-58 | leaving unchanged publishes nothing; one flip of the flag publishes; flipping it back publishes nothing |
| BitPayId.BitPayIdPage.constructor | src/pages/settings/bitpay-id/bitpay-id.ts:19-23 | the page starts with the default settings, no user, no network and no snapshot |
| BitPayId.BitPayIdPage.IonViewDidLoad | src/pages/settings/bitpay-id/bitpay-id.ts:38-50 | the user is the navigation data, with its initials when present. The network is the environment's, the settings are those loaded for it, and the snapshot equals them |
| BitPayId.BitPayIdPage.IonViewWillLeave | src/pages/settings/bitpay-id/bitpay-id.ts:52-58 | the change event is published exactly when the settings differ from the snapshot, including before any load |
| BitPayId.BitPayIdPage.OnSettingsChange | src/pages/settings/bitpay-id/bitpay-id.ts:66-71 | the current settings are stored under the current network, load back for it, and nothing else in the store changes |

## Left out

- Unicode case mapping: `toLowerCase` and `toUpperCase` are modelled on ASCII letters only.
- Characters: a string is a sequence of Unicode characters, not of UTF-16 code units. The name order (`Strings.LexLe`) compares code points, where JavaScript's `<` and `orderBy` compare code units. The two orders differ only between a character above U+FFFF and one in U+E000 to U+FFFF. `BitPayId.Initial` takes a whole first character, where `charAt(0)` gives a lone surrogate for a character above U+FFFF.
- SectionsMatchRank: it holds only with at most one exact match, and only if that match is a general match when its symbol is popular. The two cases outside these conditions are exhibited by `SectionsMisplaceSecondExactMatch` and `SectionsMisplacePopularAddressMatch`. Other ways to break them (for example two exact matches, one of them popular) are not exhibited.
- BitPayCardIntro.AccountLabel: an absent value stands for both `undefined` and `null`, and it renders as `undefined`. A `null` family name or e-mail reads `null` in the source's label.
- Timing: the one-second throttle is modelled as an immediate search. Two timeouts are taken as already fired: the 200 ms delay before opening a card and the 100 ms delay before the next page. An interleaving of a trailing throttled search with paging is not modelled.
- Asynchrony: the contract lookup and the persisted-settings read complete before anything else happens. Interleaved edits of the form and overlapping callbacks are not modelled.
- `CustomToken.CustomTokenPage.constructor`: the source runs the empty search before pairing. The model pairs first. The two touch disjoint fields, so the final state is the same. The constructor does not state the initial form fields, the search box or the closed flag.
- `CustomToken.CustomTokenPage.OnWalletSelectorDismiss`: the picked wallet is not checked to be one of the offered wallets, because that check is on the sheet's side.
- `TokenCatalog.SortByName`: stability (equal names keep their input order) holds by construction but is not stated as a lemma.
- `createAndBindTokenWallet`: wallet creation, remote preferences and the navigation after it are calls into other providers. `ConfirmedToken` models only the request they are given.
- `showInvoiceWarning`, `close` and the invoice warning's dismissal are pop-up and navigation calls. Only the page's closed flag is kept.
- `ionViewWillLeave` (card intro), `bitPayCardInfo` and `orderBitPayCard` only style the status bar or open fixed URLs.
- `disconnectBitPayID` is a confirmation dialog followed by a provider call and navigation.
- The template bindings are not modelled: the address field, the search box and the settings toggle write page fields directly.
- Translation: translated texts are their English keys.
- `JSON.stringify` snapshots are compared as values. This is the same for the one-field settings object, as long as the stored object has no other keys.
- The persisted store is a map keyed by the network value given to the persistence provider. How it is keyed on disk is not part of this model.
- Logging and change detection have no observable effect in the model.
