/** The BitPay card intro page: on entry it may pair a BitPay account and
    jump to the first card, it loads the known accounts, and "connect"
    either starts pairing in the browser or offers the accounts in a sheet.

    The account and card providers answer through callbacks; each answer is
    a parameter, and what the page does in response is a sequence of
    effects. Translated texts are their English keys. */
module BitPayCardIntro {
  import opened Strings

  /** The API context a paired account carries; opaque to the page. */
  datatype ApiContext = ApiContext(token: string)

  datatype Account = Account(givenName: Option<string>, familyName: Option<string>, email: Option<string>, apiContext: ApiContext)

  datatype Card = Card(id: string)

  /** What pressing a sheet button does. */
  datatype Handler = SelectAccount(account: Account) | AddAccount | NoHandler

  datatype Button = Button(text: string, role: Option<string>, handler: Handler)

  /** What the page asks of the navigation stack, the browser, the alert
      popup and the account and card providers. */
  datatype Effect =
    | PopToRoot
    | OpenUrl(url: string)
    | PresentSheet(title: string, buttons: seq<Button>)
    | Alert(title: string, message: string)
    | RequestPair(secret: string, email: Option<string>, otp: Option<string>)
    | RequestSync(apiContext: ApiContext)
    | PushCard(id: string)
    | RemovePreviousView
    | Pop

  /** The navigation parameters the page was opened with. */
  datatype NavData = NavData(secret: Option<string>, email: Option<string>, otp: Option<string>)

  /** The `pair` callback's arguments. */
  datatype PairAnswer = PairAnswer(err: Option<string>, paired: bool, apiContext: ApiContext)

  /** The `sync` callback's arguments. */
  datatype SyncAnswer = SyncAnswer(err: Option<string>, cards: seq<Card>)

  /** The `getAccounts` callback's arguments. */
  datatype AccountsAnswer = AccountsAnswer(err: Option<string>, accounts: seq<Account>)

  /** `connectBitPayCard` either produces effects or throws a TypeError when
      the accounts were never loaded. */
  datatype ConnectOutcome = Effects(effects: seq<Effect>) | TypeError

  const DashboardUrl := "https://bitpay.com/visa/dashboard/add-to-bitpay-wallet-confirm"
  const SelectorTitle := "From BitPay account"
  const AddAccountText := "Add account"
  const CancelText := "Cancel"

  /** `startPairBitPayAccount`: back to the root page, then the dashboard. */
  const StartPairing: seq<Effect> := [PopToRoot, OpenUrl(DashboardUrl)]

  /** A JavaScript value in string concatenation; an absent value renders as
      `undefined`. */
  function JsText(o: Option<string>): string {
    if o.Some? then o.value else "undefined"
  }

  /** `(givenName || familyName) + ' (' + email + ')'`. */
  function AccountLabel(a: Account): (r: string)
    ensures Truthy(a.givenName) ==> r == a.givenName.value + " (" + JsText(a.email) + ")"
    ensures !Truthy(a.givenName) ==> r == JsText(a.familyName) + " (" + JsText(a.email) + ")"
  {
    JsText(if Truthy(a.givenName) then a.givenName else a.familyName) + " (" + JsText(a.email) + ")"
  }

  function AccountButton(a: Account): Button {
    Button(AccountLabel(a), None, SelectAccount(a))
  }

  const AddButton := Button(AddAccountText, None, AddAccount)
  const CancelButton := Button(CancelText, Some("cancel"), NoHandler)

  /** One button per account, in account order. */
  function AccountButtons(accounts: seq<Account>): (r: seq<Button>)
    ensures |r| == |accounts|
    ensures forall i :: 0 <= i < |accounts| ==> r[i] == AccountButton(accounts[i])
  {
    if accounts == [] then []
    else AccountButtons(accounts[..|accounts| - 1]) + [AccountButton(accounts[|accounts| - 1])]
  }

  /** Building the buttons one account at a time. */
  lemma AccountButtonsSnoc(accounts: seq<Account>, i: int)
    requires 0 <= i < |accounts|
    ensures AccountButtons(accounts[..i + 1]) == AccountButtons(accounts[..i]) + [AccountButton(accounts[i])]
  {
    assert accounts[..i + 1][..i] == accounts[..i];
  }

  /** The selector's buttons: the accounts, then "Add account", then a
      "Cancel" with the cancel role. */
  function SelectorOptions(accounts: seq<Account>): (r: seq<Button>)
    ensures |r| == |accounts| + 2
    ensures forall i :: 0 <= i < |accounts| ==> r[i] == AccountButton(accounts[i])
    ensures r[|accounts|] == AddButton && r[|accounts| + 1] == CancelButton
  {
    AccountButtons(accounts) + [AddButton, CancelButton]
  }

  /** `onAccountSelect`: without an account, start pairing; with one, sync
      it and go back once the sync succeeds. */
  function AccountSelectEffects(account: Option<Account>, sync: SyncAnswer): (r: seq<Effect>)
    ensures account.None? ==> r == StartPairing
    ensures account.Some? ==> |r| == 2 && r[0] == RequestSync(account.value.apiContext)
    ensures account.Some? ==> (r[1] == Pop <==> !Truthy(sync.err))
    ensures account.Some? && Truthy(sync.err) ==> r[1] == Alert("Error", sync.err.value)
  {
    match account
    case None => StartPairing
    case Some(a) =>
      [RequestSync(a.apiContext)] + (if Truthy(sync.err) then [Alert("Error", sync.err.value)] else [Pop])
  }

  /** Pressing a button of the sheet. */
  function Press(b: Button, sync: SyncAnswer): (r: seq<Effect>)
    ensures b.handler.SelectAccount? ==> r == AccountSelectEffects(Some(b.handler.account), sync)
    ensures b.handler.AddAccount? ==> r == StartPairing
    ensures b.handler.NoHandler? ==> r == []
  {
    match b.handler
    case SelectAccount(a) => AccountSelectEffects(Some(a), sync)
    case AddAccount => AccountSelectEffects(None, sync)
    case NoHandler => []
  }

  /** The i-th account button syncs the i-th account, "Add account" starts
      pairing, and "Cancel" does nothing. */
  lemma PressSelectorOption(accounts: seq<Account>, i: int, sync: SyncAnswer)
    requires 0 <= i < |accounts| + 2
    ensures var effects := Press(SelectorOptions(accounts)[i], sync);
      (i < |accounts| ==> effects[0] == RequestSync(accounts[i].apiContext)
                          && (Pop in effects <==> !Truthy(sync.err)))
      && (i == |accounts| ==> effects == StartPairing)
      && (i == |accounts| + 1 ==> effects == [])
  {
    var effects := Press(SelectorOptions(accounts)[i], sync);
    if i < |accounts| {
      assert SelectorOptions(accounts)[i] == AccountButton(accounts[i]);
      assert Pop in effects <==> effects[1] == Pop;
    }
  }

  /** The pairing that runs on entry when a secret was passed: pair, and if
      that succeeded and paired, sync the cards and show the first one. */
  function EnterPairingEffects(nav: NavData, pair: PairAnswer, sync: SyncAnswer): (r: seq<Effect>)
    ensures !Truthy(nav.secret) ==> r == []
    ensures Truthy(nav.secret) ==> r != [] && r[0] == RequestPair(nav.secret.value, nav.email, nav.otp)
  {
    if !Truthy(nav.secret) then []
    else
      [RequestPair(nav.secret.value, nav.email, nav.otp)]
      + (if Truthy(pair.err) then [Alert("Error pairing BitPay Account", pair.err.value)]
         else if !pair.paired then []
         else
           [RequestSync(pair.apiContext)]
           + (if Truthy(sync.err) then [Alert("Error updating Debit Cards", sync.err.value)]
              else if sync.cards != [] then [PushCard(sync.cards[0].id), RemovePreviousView]
              else []))
  }

  /** Pairing is asked for only with a secret; the sync only after a clean,
      positive pairing, with the context it returned; and the page moves to
      a card only after a clean sync that returned cards, then to the first.
      A pairing error and a sync error each show their own alert with the
      error text. */
  lemma EnterPairingFlow(nav: NavData, pair: PairAnswer, sync: SyncAnswer)
    ensures var effects := EnterPairingEffects(nav, pair, sync);
      (effects != [] <==> Truthy(nav.secret))
      && (forall ctx :: RequestSync(ctx) in effects
            <==> Truthy(nav.secret) && !Truthy(pair.err) && pair.paired && ctx == pair.apiContext)
      && (forall id :: PushCard(id) in effects
            <==> Truthy(nav.secret) && !Truthy(pair.err) && pair.paired && !Truthy(sync.err)
                 && sync.cards != [] && id == sync.cards[0].id)
      && (forall m :: Alert("Error pairing BitPay Account", m) in effects
            <==> Truthy(nav.secret) && Truthy(pair.err) && m == pair.err.value)
      && (forall m :: Alert("Error updating Debit Cards", m) in effects
            <==> Truthy(nav.secret) && !Truthy(pair.err) && pair.paired && Truthy(sync.err)
                 && m == sync.err.value)
  {
  }

  /** What the `getAccounts` callback shows: an alert on error, else nothing. */
  function AccountsEffects(answer: AccountsAnswer): (r: seq<Effect>)
    ensures Truthy(answer.err) ==> r == [Alert("Error", answer.err.value)]
    ensures !Truthy(answer.err) ==> r == []
  {
    if Truthy(answer.err) then [Alert("Error", answer.err.value)] else []
  }

  class BitPayCardIntroPage {
    /** `accounts`: `undefined` until `getAccounts` answers without error. */
    var accounts: Option<seq<Account>>

    constructor()
      ensures accounts == None
    {
      accounts := None;
    }

    /** `ionViewWillEnter`: the entry pairing, then the account loading. An
        error leaves the accounts as they were; otherwise they are replaced. */
    method IonViewWillEnter(nav: NavData, pair: PairAnswer, sync: SyncAnswer, answer: AccountsAnswer)
      returns (effects: seq<Effect>)
      modifies this`accounts
      ensures effects == EnterPairingEffects(nav, pair, sync) + AccountsEffects(answer)
      ensures Truthy(answer.err) ==> accounts == old(accounts)
      ensures !Truthy(answer.err) ==> accounts == Some(answer.accounts)
    {
      effects := EnterPairingEffects(nav, pair, sync);
      if Truthy(answer.err) {
        effects := effects + [Alert("Error", answer.err.value)];
        return;
      }
      accounts := Some(answer.accounts);
    }

    /** `connectBitPayCard`: no accounts starts pairing; any accounts open
        the selector; accounts never loaded make `accounts.length` throw. */
    method ConnectBitPayCard() returns (outcome: ConnectOutcome)
      ensures accounts.None? <==> outcome.TypeError?
      ensures accounts == Some([]) ==> outcome == Effects(StartPairing)
      ensures accounts.Some? && accounts.value != []
          ==> outcome == Effects([PresentSheet(SelectorTitle, SelectorOptions(accounts.value))])
    {
      if accounts.None? {
        return TypeError;
      }
      if |accounts.value| == 0 {
        return Effects(StartPairing);
      }
      var options := ShowAccountSelector();
      return Effects([PresentSheet(SelectorTitle, options)]);
    }

    /** `showAccountSelector`: pushes one option per account, then
        "Add account" and "Cancel". `_.forEach` over `undefined` pushes none. */
    method ShowAccountSelector() returns (options: seq<Button>)
      ensures options == SelectorOptions(if accounts.Some? then accounts.value else [])
    {
      var list := if accounts.Some? then accounts.value else [];
      options := [];
      var i := 0;
      while i < |list|
        invariant 0 <= i <= |list|
        invariant options == AccountButtons(list[..i])
      {
        AccountButtonsSnoc(list, i);
        options := options + [AccountButton(list[i])];
        i := i + 1;
      }
      assert list[..i] == list;
      options := options + [AddButton];
      options := options + [CancelButton];
    }
  }
}
