/** The profile page's account management (src/components/user-profile.tsx):
    the list of exchange accounts, the id of the current one, and the add,
    edit and delete dialogs. The service calls are inputs: a `Fetch` says
    what the call returned or that it threw. */
module UserProfile {
  import opened Wrappers
  import opened JsValues
  import opened Seqs
  import opened BinanceAccounts

  /** An avatar file picked in the form, by identity. */
  type FileId = nat

  /** `binanceAccounts.filter(account => account.id !== id)`. */
  function Deleted(accounts: seq<Account>, id: string): (r: seq<Account>)
    ensures IsSubsequence(r, accounts)
    ensures forall i :: 0 <= i < |r| ==> r[i].id != id
    ensures forall i :: 0 <= i < |accounts| && accounts[i].id != id ==> accounts[i] in r
  {
    FilterMembers(accounts, (a: Account) => a.id != id);
    FilterIsSubsequence(accounts, (a: Account) => a.id != id);
    Filter(accounts, (a: Account) => a.id != id)
  }

  /** Deleting an id nobody has leaves the list as it was. */
  lemma DeleteUnlisted(accounts: seq<Account>, id: string)
    requires !Listed(accounts, id)
    ensures Deleted(accounts, id) == accounts
  {
    FilterAll(accounts, (a: Account) => a.id != id);
  }

  /** The current id after deleting `id` leaves `remaining`: the first
      remaining account when the current one went and others are left, none
      when nothing is left, and otherwise unchanged. */
  function Successor(current: Option<string>, id: string, remaining: seq<Account>): (r: Option<string>)
    ensures r.None? <==> current.None? || |remaining| == 0
    ensures current == Some(id) && |remaining| > 0 ==> r == Some(remaining[0].id)
    ensures current != Some(id) && |remaining| > 0 ==> r == current
  {
    if current == Some(id) && |remaining| > 0 then Some(remaining[0].id)
    else if |remaining| == 0 then None
    else current
  }

  /** The current id is none or names a listed account. */
  predicate ListedOrNone(accounts: seq<Account>, current: Option<string>) {
    current.None? || Listed(accounts, current.value)
  }

  /** Deleting keeps a listed current id listed: it either survives or is
      succeeded by a remaining account. */
  lemma DeleteKeepsListed(accounts: seq<Account>, current: Option<string>, id: string)
    requires ListedOrNone(accounts, current)
    ensures ListedOrNone(Deleted(accounts, id), Successor(current, id, Deleted(accounts, id)))
  {
    var r := Deleted(accounts, id);
    if current.Some? && current != Some(id) && |r| > 0 {
      var i :| 0 <= i < |accounts| && accounts[i].id == current.value;
      assert accounts[i] in r;
      var j :| 0 <= j < |r| && r[j] == accounts[i];
    }
  }

  /** The current id after adding `created` to `accounts`: the new account
      when the list was empty, else unchanged. */
  function CurrentAfterAdd(accounts: seq<Account>, current: Option<string>, created: Account): (r: Option<string>)
    ensures |accounts| == 0 ==> r == Some(created.id)
    ensures |accounts| > 0 ==> r == current
  {
    if |accounts| == 0 then Some(created.id) else current
  }

  lemma AddKeepsListed(accounts: seq<Account>, current: Option<string>, created: Account)
    requires ListedOrNone(accounts, current)
    ensures ListedOrNone(accounts + [created], CurrentAfterAdd(accounts, current, created))
  {
    var r := accounts + [created];
    assert r[|accounts|] == created;
    if |accounts| > 0 && current.Some? {
      var i :| 0 <= i < |accounts| && accounts[i].id == current.value;
      assert r[i] == accounts[i];
    }
  }

  /** `binanceAccounts.map(acc => acc.id === updated.id ? updated : acc)`:
      the entries with the updated id are replaced, the others kept, in
      place; an id nobody has changes nothing. */
  function Replaced(accounts: seq<Account>, updated: Account): (r: seq<Account>)
    ensures |r| == |accounts|
    ensures !Listed(accounts, updated.id) ==> r == accounts
    ensures forall i :: 0 <= i < |r| ==> if accounts[i].id == updated.id then r[i] == updated else r[i] == accounts[i]
  {
    Map(accounts, (acc: Account) => if acc.id == updated.id then updated else acc)
  }

  /** Editing changes no id, so it keeps every listed id listed. */
  lemma ReplaceKeepsIds(accounts: seq<Account>, updated: Account, id: string)
    ensures Listed(Replaced(accounts, updated), id) <==> Listed(accounts, id)
  {
    var r := Replaced(accounts, updated);
    if Listed(accounts, id) {
      var i :| 0 <= i < |accounts| && accounts[i].id == id;
      assert r[i].id == id;
    }
    if Listed(r, id) {
      var i :| 0 <= i < |r| && r[i].id == id;
      assert accounts[i].id == id;
    }
  }

  class UserProfile {
    var accounts: seq<Account>
    var currentId: Option<string>
    var loading: bool
    var isDeleting: bool
    var addDialogOpen: bool
    var editDialogOpen: bool
    var editingUser: Option<Account>
    var nickname: string
    var apiKey: string
    var secretKey: string
    var avatar: Option<FileId>
    var avatarPreview: Option<string>
    /** The ids written to the user's preferences, oldest first. */
    var persisted: seq<string>
    /** How many times the page reloaded itself. */
    var reloads: nat

    /** The initial `useState` values. */
    constructor ()
      ensures accounts == [] && currentId.None? && loading && !isDeleting
      ensures !addDialogOpen && !editDialogOpen && FormCleared()
      ensures persisted == [] && reloads == 0
    {
      accounts := [];
      currentId := None;
      loading := true;
      isDeleting := false;
      addDialogOpen := false;
      editDialogOpen := false;
      editingUser := None;
      nickname := "";
      apiKey := "";
      secretKey := "";
      avatar := None;
      avatarPreview := None;
      persisted := [];
      reloads := 0;
    }

    predicate FormCleared()
      reads this
    {
      nickname == "" && apiKey == "" && secretKey == "" && avatar.None? && avatarPreview.None? && editingUser.None?
    }

    predicate CurrentListed()
      reads this
    {
      ListedOrNone(accounts, currentId)
    }

    /** `loadUserData` with the two service answers: the account list, and
        the stored current id (None for no preference or no id in it). A
        stored id is taken as it is; without one the first account becomes
        current and is persisted; a failed call leaves the rest as it was. */
    method LoadUserData(accountsFetch: Fetch<seq<Account>>, prefFetch: Fetch<Option<string>>)
      modifies this`loading, this`accounts, this`currentId, this`persisted
      ensures !loading && reloads == old(reloads)
      ensures accountsFetch.FetchFailed? ==>
        accounts == old(accounts) && currentId == old(currentId) && persisted == old(persisted)
      ensures accountsFetch.Fetched? ==> accounts == accountsFetch.value
      ensures accountsFetch.Fetched? && prefFetch.Fetched? && TruthyText(prefFetch.value) ==>
        currentId == prefFetch.value && persisted == old(persisted)
      ensures accountsFetch.Fetched? && prefFetch.Fetched? && !TruthyText(prefFetch.value) && |accountsFetch.value| > 0 ==>
        currentId == Some(accountsFetch.value[0].id) && persisted == old(persisted) + [accountsFetch.value[0].id]
      ensures accountsFetch.Fetched? && !(prefFetch.Fetched? && TruthyText(prefFetch.value)) && !(prefFetch.Fetched? && |accountsFetch.value| > 0) ==>
        currentId == old(currentId) && persisted == old(persisted)
    {
      loading := true;
      if accountsFetch.Fetched? {
        var loaded := accountsFetch.value;
        accounts := loaded;
        if prefFetch.Fetched? {
          if TruthyText(prefFetch.value) {
            currentId := prefFetch.value;
          } else if |loaded| > 0 {
            currentId := Some(loaded[0].id);
            persisted := persisted + [loaded[0].id];
          }
        }
      }
      loading := false;
    }

    /** `handleSwitchUser`: the id becomes current, is persisted, and the
        page reloads. */
    method SwitchUser(id: string)
      modifies this`currentId, this`persisted, this`reloads
      ensures currentId == Some(id) && persisted == old(persisted) + [id] && reloads == old(reloads) + 1
    {
      currentId := Some(id);
      persisted := persisted + [id];
      reloads := reloads + 1;
    }

    /** `handleDeleteUser`; `deleteOk` is whether the service delete
        succeeded. A listed current id stays listed. */
    method DeleteUser(id: string, deleteOk: bool)
      modifies this`isDeleting, this`accounts, this`currentId, this`persisted, this`reloads
      ensures !isDeleting
      ensures !deleteOk ==> accounts == old(accounts) && currentId == old(currentId)
      ensures !deleteOk ==> persisted == old(persisted) && reloads == old(reloads)
      ensures deleteOk ==> accounts == Deleted(old(accounts), id)
      ensures deleteOk ==> currentId == Successor(old(currentId), id, accounts)
      ensures deleteOk && old(currentId) == Some(id) && |accounts| > 0 ==>
        persisted == old(persisted) + [accounts[0].id] && reloads == old(reloads) + 1
      ensures deleteOk && |accounts| == 0 ==> persisted == old(persisted) && reloads == old(reloads) + 1
      ensures deleteOk && old(currentId) != Some(id) && |accounts| > 0 ==>
        persisted == old(persisted) && reloads == old(reloads)
      ensures old(CurrentListed()) ==> CurrentListed()
    {
      isDeleting := true;
      if deleteOk {
        if CurrentListed() {
          DeleteKeepsListed(accounts, currentId, id);
        }
        var updated := Deleted(accounts, id);
        accounts := updated;
        if Some(id) == currentId && |updated| > 0 {
          SwitchUser(updated[0].id);
        } else if |updated| == 0 {
          currentId := None;
          reloads := reloads + 1;
        }
      }
      isDeleting := false;
    }

    /** `resetForm`. */
    method ResetForm()
      modifies this`nickname, this`apiKey, this`secretKey, this`avatar, this`avatarPreview, this`editingUser
      ensures FormCleared()
    {
      nickname := "";
      apiKey := "";
      secretKey := "";
      avatar := None;
      avatarPreview := None;
      editingUser := None;
    }

    /** `handleAddUser` with what the create call returned: the account is
        appended and becomes current (and persisted) only when it is the
        first. A failed call changes nothing: the filled form stays for a
        retry. */
    method AddUser(created: Fetch<Account>)
      modifies this
      ensures created.FetchFailed? ==>
        accounts == old(accounts) && currentId == old(currentId) && persisted == old(persisted)
        && addDialogOpen == old(addDialogOpen) && nickname == old(nickname) && editingUser == old(editingUser)
        && apiKey == old(apiKey) && secretKey == old(secretKey) && avatar == old(avatar) && avatarPreview == old(avatarPreview)
      ensures created.Fetched? ==> accounts == old(accounts) + [created.value]
      ensures created.Fetched? ==> currentId == CurrentAfterAdd(old(accounts), old(currentId), created.value)
      ensures created.Fetched? ==>
        persisted == (if |old(accounts)| == 0 then old(persisted) + [created.value.id] else old(persisted))
      ensures created.Fetched? ==> FormCleared() && !addDialogOpen
      ensures reloads == old(reloads) && isDeleting == old(isDeleting) && loading == old(loading)
      ensures editDialogOpen == old(editDialogOpen)
      ensures old(CurrentListed()) ==> CurrentListed()
    {
      if created.FetchFailed? {
        return;
      }
      var newUser := created.value;
      if CurrentListed() {
        AddKeepsListed(accounts, currentId, newUser);
      }
      var before := accounts;
      accounts := accounts + [newUser];
      if |before| == 0 {
        currentId := Some(newUser.id);
        persisted := persisted + [newUser.id];
      }
      ResetForm();
      addDialogOpen := false;
    }

    /** `handleEditUser` with what the update call returned: nothing happens
        without an account being edited or when the call fails (the form stays
        filled); otherwise the
        entries with the updated id are replaced and the form closes. */
    method EditUser(updated: Fetch<Account>)
      modifies this
      ensures old(editingUser).None? || updated.FetchFailed? ==>
        accounts == old(accounts) && editingUser == old(editingUser) && editDialogOpen == old(editDialogOpen)
        && nickname == old(nickname)
        && apiKey == old(apiKey) && secretKey == old(secretKey) && avatar == old(avatar) && avatarPreview == old(avatarPreview)
      ensures old(editingUser).Some? && updated.Fetched? ==>
        accounts == Replaced(old(accounts), updated.value) && FormCleared() && !editDialogOpen
      ensures currentId == old(currentId) && persisted == old(persisted) && reloads == old(reloads)
      ensures addDialogOpen == old(addDialogOpen) && isDeleting == old(isDeleting) && loading == old(loading)
      ensures old(CurrentListed()) ==> CurrentListed()
    {
      if editingUser.None? || updated.FetchFailed? {
        return;
      }
      if currentId.Some? {
        ReplaceKeepsIds(accounts, updated.value, currentId.value);
      }
      accounts := Replaced(accounts, updated.value);
      ResetForm();
      editDialogOpen := false;
    }

    /** `openEditDialog`: the form is filled from the account; an empty
        avatar URL shows no preview. */
    method OpenEditDialog(account: Account)
      modifies this`editingUser, this`nickname, this`apiKey, this`secretKey, this`avatarPreview, this`editDialogOpen
      ensures editingUser == Some(account) && nickname == account.nickname
      ensures apiKey == account.apiKey && secretKey == account.secretKey
      ensures avatarPreview == (if TruthyText(account.avatarUrl) then account.avatarUrl else None)
      ensures editDialogOpen
    {
      editingUser := Some(account);
      nickname := account.nickname;
      apiKey := account.apiKey;
      secretKey := account.secretKey;
      avatarPreview := if TruthyText(account.avatarUrl) then account.avatarUrl else None;
      editDialogOpen := true;
    }
  }
}
