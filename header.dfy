/** The account switcher of the page header (src/components/Header.tsx): the
    exchange accounts loaded once per sign-in, the current one chosen from
    the stored preference, and the switch that persists a choice. */
module Header {
  import opened Wrappers
  import opened Text
  import opened JsValues
  import opened BinanceAccounts

  /** The choice `loadBinanceAccounts` makes, None when it sets nothing: the
      account with the stored id when there is one, else the first account. */
  function SelectCurrent(prefId: Option<string>, accounts: seq<Account>): (r: Option<Account>)
    ensures r.Some? <==> |accounts| > 0
    ensures r.Some? ==> r.value in accounts
    ensures |accounts| > 0 && TruthyText(prefId) && Listed(accounts, prefId.value) ==>
      r == FindById(accounts, prefId.value) && r.value.id == prefId.value
    ensures |accounts| > 0 && !(TruthyText(prefId) && Listed(accounts, prefId.value)) ==> r == Some(accounts[0])
  {
    if |accounts| == 0 then None
    else if TruthyText(prefId) then
      var found := FindById(accounts, prefId.value);
      if found.Some? then found else Some(accounts[0])
    else Some(accounts[0])
  }

  /** The first account with the stored id is the one chosen. */
  lemma SelectsFirstWithId(prefId: string, accounts: seq<Account>, k: nat)
    requires prefId != [] && k < |accounts| && accounts[k].id == prefId
    requires forall j :: 0 <= j < k ==> accounts[j].id != prefId
    ensures SelectCurrent(Some(prefId), accounts) == Some(accounts[k])
  {
    FindByIdFirst(accounts, prefId, k);
  }

  /** The avatar fallback text: the nickname's initials, or "B" without a
      current account or nickname. */
  function AvatarFallback(current: Option<Account>): (r: string)
    ensures |r| <= 2
    ensures forall i :: 0 <= i < |r| ==> !IsAsciiLower(r[i])
    ensures current.None? || current.value.nickname == [] ==> r == "B"
    ensures current.Some? && current.value.nickname != [] ==> r == Initials(current.value.nickname)
  {
    if current.Some? && current.value.nickname != [] then Initials(current.value.nickname) else "B"
  }

  class HeaderState {
    var accounts: seq<Account>
    var current: Option<Account>
    /** `loadedRef.current`. */
    var loaded: bool
    /** The account ids written to the user's preferences, oldest first. */
    var persisted: seq<string>
    /** How many times the page reloaded itself. */
    var reloads: nat

    /** The current account is always a listed one, and nothing is chosen
        before the accounts are loaded. */
    predicate Valid()
      reads this
    {
      (current.Some? ==> current.value in accounts)
      && (!loaded ==> current.None? && accounts == [])
    }

    constructor ()
      ensures Valid() && !loaded && persisted == [] && reloads == 0
    {
      accounts := [];
      current := None;
      loaded := false;
      persisted := [];
      reloads := 0;
    }

    /** `loadBinanceAccounts`; `user` is the signed-in user's id (the user
        object is present). A failed call stops the load where it threw. */
    method LoadBinanceAccounts(user: string, accountsFetch: Fetch<seq<Account>>, prefFetch: Fetch<Option<string>>)
      requires Valid() && !loaded
      modifies this`accounts, this`current, this`persisted
      ensures accountsFetch.FetchFailed? ==> accounts == old(accounts)
      ensures accountsFetch.Fetched? ==> accounts == accountsFetch.value
      ensures accountsFetch.Fetched? && prefFetch.Fetched? ==> current == SelectCurrent(prefFetch.value, accounts)
      ensures accountsFetch.FetchFailed? || prefFetch.FetchFailed? ==> current == old(current)
      ensures accountsFetch.Fetched? && prefFetch.Fetched? && !TruthyText(prefFetch.value) && |accounts| > 0 && user != [] ==>
        persisted == old(persisted) + [accounts[0].id]
      ensures !(accountsFetch.Fetched? && prefFetch.Fetched? && !TruthyText(prefFetch.value) && |accounts| > 0 && user != []) ==>
        persisted == old(persisted)
      ensures current.Some? ==> current.value in accounts
    {
      if accountsFetch.FetchFailed? {
        return;
      }
      var loadedAccounts := accountsFetch.value;
      accounts := loadedAccounts;
      if prefFetch.FetchFailed? {
        return;
      }
      var preference := prefFetch.value;
      if TruthyText(preference) && |loadedAccounts| > 0 {
        var found := FindById(loadedAccounts, preference.value);
        if found.Some? {
          current := found;
        } else {
          current := Some(loadedAccounts[0]);
        }
      } else if |loadedAccounts| > 0 {
        current := Some(loadedAccounts[0]);
        if user != [] {
          persisted := persisted + [loadedAccounts[0].id];
        }
      }
    }

    /** The effect on `[isAuthenticated, user]`: the accounts load once, the
        first time a user is signed in (`user` is None without a user). */
    method OnAuthChange(isAuthenticated: bool, user: Option<string>,
                        accountsFetch: Fetch<seq<Account>>, prefFetch: Fetch<Option<string>>)
      requires Valid()
      modifies this`accounts, this`current, this`persisted, this`loaded
      ensures Valid()
      ensures loaded == (old(loaded) || (isAuthenticated && user.Some?))
      ensures old(loaded) || !isAuthenticated || user.None? ==>
        accounts == old(accounts) && current == old(current) && persisted == old(persisted)
    {
      if isAuthenticated && user.Some? && !loaded {
        LoadBinanceAccounts(user.value, accountsFetch, prefFetch);
        loaded := true;
      }
    }

    /** `handleSwitchBinanceUser`: a listed id becomes current, is persisted
        when the user has an id, and the page reloads; an id that is not
        listed changes nothing. */
    method SwitchBinanceUser(id: string, user: string)
      requires Valid()
      modifies this`current, this`persisted, this`reloads
      ensures Valid()
      ensures !Listed(accounts, id) ==>
        current == old(current) && persisted == old(persisted) && reloads == old(reloads)
      ensures Listed(accounts, id) ==> current == FindById(accounts, id) && current.value.id == id
      ensures Listed(accounts, id) ==> reloads == old(reloads) + 1
      ensures Listed(accounts, id) ==> persisted == (if user != [] then old(persisted) + [id] else old(persisted))
    {
      var selected := FindById(accounts, id);
      if selected.Some? {
        current := selected;
        if user != [] {
          persisted := persisted + [id];
        }
        reloads := reloads + 1;
      }
    }
  }
}
