/** The BitPay ID settings page: the user's initials, and the per-network
    settings loaded on entry, saved on every change and announced on leaving
    when they differ from what was loaded. */
module BitPayId {
  import opened Strings

  datatype User = User(givenName: Option<string>, familyName: Option<string>)

  datatype Settings = Settings(syncGiftCardPurchases: bool)

  /** `getDefaultBitPayIdSettings`. */
  const DefaultSettings := Settings(false)

  const SettingsChangedEvent := "BitPayId/SettingsChanged"

  /** `name && name.charAt(0).toUpperCase()`, as `join` renders it: an
      absent or empty name contributes nothing. The first character is a
      whole Unicode character, where `charAt(0)` takes one UTF-16 code unit. */
  function Initial(name: Option<string>): (r: string)
    ensures |r| == if Truthy(name) then 1 else 0
    ensures Truthy(name) ==> r[0] == UpperChar(name.value[0])
    ensures NoLowerAscii(r)
  {
    if Truthy(name) then [UpperChar(name.value[0])] else ""
  }

  predicate NoLowerAscii(s: string) {
    forall i :: 0 <= i < |s| ==> !('a' <= s[i] <= 'z')
  }

  /** `getBitPayIdInitials`: the upper-cased first letter of the given name,
      then that of the family name, each only when that name is non-empty. */
  function Initials(user: Option<User>): (r: string)
    ensures user.None? ==> r == ""
    ensures user.Some? ==> |r| == (if Truthy(user.value.givenName) then 1 else 0)
                                 + (if Truthy(user.value.familyName) then 1 else 0)
    ensures |r| <= 2 && NoLowerAscii(r)
    ensures user.Some? && Truthy(user.value.givenName)
        ==> r[0] == UpperChar(user.value.givenName.value[0])
    ensures user.Some? && Truthy(user.value.familyName)
        ==> r[|r| - 1] == UpperChar(user.value.familyName.value[0])
  {
    if user.None? then "" else Initial(user.value.givenName) + Initial(user.value.familyName)
  }

  /** `getBitPayIdSettings(network) || default`: settings stored for the
      network, else the defaults. The network is `undefined` before load. */
  function Loaded(store: map<Option<string>, Settings>, network: Option<string>): (r: Settings)
    ensures network in store ==> r == store[network]
    ensures network !in store ==> r == DefaultSettings
  {
    if network in store then store[network] else DefaultSettings
  }

  /** Saving settings for a network makes exactly them load for it, and
      leaves what loads for every other network as it was. */
  lemma LoadAfterSave(store: map<Option<string>, Settings>, network: Option<string>, s: Settings, other: Option<string>)
    ensures Loaded(store[network := s], network) == s
    ensures other != network ==> Loaded(store[network := s], other) == Loaded(store, other)
  {
  }

  /** `originalBitpayIdSettings !== JSON.stringify(bitpayIdSettings)`; the
      snapshot is `undefined` until the page has loaded. */
  predicate SettingsChanged(original: Option<Settings>, current: Settings) {
    original != Some(current)
  }

  function LeaveEvents(original: Option<Settings>, current: Settings): (r: seq<string>)
    ensures r == [SettingsChangedEvent] <==> SettingsChanged(original, current)
    ensures r == [] <==> !SettingsChanged(original, current)
  {
    if SettingsChanged(original, current) then [SettingsChangedEvent] else []
  }

  /** Leaving right after loading announces nothing; flipping the flag once
      announces a change, flipping it back announces none. */
  lemma ToggleDetected(s: Settings)
    ensures LeaveEvents(Some(s), s) == []
    ensures var t := s.(syncGiftCardPurchases := !s.syncGiftCardPurchases);
      LeaveEvents(Some(s), t) == [SettingsChangedEvent]
      && LeaveEvents(Some(s), t.(syncGiftCardPurchases := !t.syncGiftCardPurchases)) == []
  {
  }

  class BitPayIdPage {
    var userBasicInfo: Option<User>
    var accountInitials: Option<string>
    var network: Option<string>
    var settings: Settings
    /** `originalBitpayIdSettings`, compared by value. */
    var original: Option<Settings>
    /** What the persistence provider holds, per network. */
    var store: map<Option<string>, Settings>

    constructor(store: map<Option<string>, Settings>)
      ensures settings == DefaultSettings && this.store == store
      ensures userBasicInfo == None && accountInitials == None
      ensures network == None && original == None
    {
      userBasicInfo := None;
      accountInitials := None;
      network := None;
      settings := DefaultSettings;
      original := None;
      this.store := store;
    }

    /** `ionViewDidLoad`: the user from the navigation data and, when there
        is one, its initials; the environment's network; the settings loaded
        for it; and the snapshot of what was loaded. */
    method IonViewDidLoad(navData: Option<User>, envNetwork: string)
      modifies this`userBasicInfo, this`accountInitials, this`network, this`settings, this`original
      ensures userBasicInfo == navData
      ensures accountInitials == if navData.Some? then Some(Initials(navData)) else old(accountInitials)
      ensures network == Some(envNetwork)
      ensures settings == Loaded(store, Some(envNetwork))
      ensures original == Some(settings)
    {
      userBasicInfo := navData;
      if userBasicInfo.Some? {
        accountInitials := Some(Initials(userBasicInfo));
      }
      network := Some(envNetwork);
      settings := Loaded(store, network);
      original := Some(settings);
    }

    /** `ionViewWillLeave`: the events published. */
    method IonViewWillLeave() returns (published: seq<string>)
      ensures published == [SettingsChangedEvent] <==> original != Some(settings)
      ensures published == [] <==> original == Some(settings)
    {
      published := [];
      if original != Some(settings) {
        published := published + [SettingsChangedEvent];
      }
    }

    /** `onSettingsChange`: saves the current settings under the current
        network, and no other entry of the store. */
    method OnSettingsChange()
      modifies this`store
      ensures store == old(store)[network := settings]
      ensures Loaded(store, network) == settings
      ensures forall n :: n != network ==> Loaded(store, n) == Loaded(old(store), n)
    {
      store := store[network := settings];
    }
  }
}
