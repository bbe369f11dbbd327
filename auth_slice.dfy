/** The `auth` slice of the Redux store (src/store/features/authSlice.ts): the
    signed-in user and the selected account, and the storage clean-up that
    `logout` performs. */
module AuthSlice {
  import opened Text
  import opened JsValues

  /** The project's own Supabase token key, removed by name first. */
  const SupabaseTokenKey: string := "sb-" + "vlravymgetvazapkevbp" + "-auth-token"

  /** The generic Supabase token pattern of the `forEach` loops. */
  predicate IsAuthTokenKey(k: string) {
    StartsWith(k, "sb-") && EndsWith(k, "-auth-token")
  }

  /** Whether `logout` removes key k from a storage: the fixed token key,
      the token pattern, or `user`. The fixed key itself fits the pattern, so
      the pattern and `user` are the whole rule. */
  function RemovedByLogout(k: string): (r: bool)
    ensures r <==> IsAuthTokenKey(k) || k == "user"
  {
    assert IsAuthTokenKey(SupabaseTokenKey) by {
      var head, mid, tail := "sb-", "vlravymgetvazapkevbp", "-auth-token";
      assert (head + mid + tail)[..|head|] == head;
      assert (head + (mid + tail))[|head + mid|..] == tail;
    }
    k == SupabaseTokenKey || IsAuthTokenKey(k) || k == "user"
  }

  /** A storage's items after `logout`: exactly the removed keys are gone and
      every other item keeps its value. */
  function AfterLogout(items: map<string, string>): (r: map<string, string>)
    ensures forall k :: k in r <==> k in items && !RemovedByLogout(k)
    ensures forall k :: k in r ==> r[k] == items[k]
  {
    map k | k in items && !RemovedByLogout(k) :: items[k]
  }

  /** `localStorage` or `sessionStorage`, as its items. */
  class Storage {
    var items: map<string, string>

    constructor (items: map<string, string>)
      ensures this.items == items
    {
      this.items := items;
    }

    /** `removeItem(k)`. */
    method RemoveItem(k: string)
      modifies this
      ensures items == old(items) - {k}
    {
      items := items - {k};
    }

    /** `Object.keys(storage).forEach(...)` removing the token-pattern keys;
        `keys` is the key list the loop walks, and it lists every item. */
    method RemoveAuthTokens(keys: seq<string>)
      requires forall k :: k in items ==> k in keys
      modifies this
      ensures items == map k | k in old(items) && !IsAuthTokenKey(k) :: old(items)[k]
    {
      var i := 0;
      while i < |keys|
        invariant 0 <= i <= |keys|
        invariant items == map k | k in old(items) && !(IsAuthTokenKey(k) && k in keys[..i]) :: old(items)[k]
      {
        assert keys[..i + 1] == keys[..i] + [keys[i]];
        if IsAuthTokenKey(keys[i]) {
          RemoveItem(keys[i]);
        }
        i := i + 1;
      }
      assert keys[..i] == keys;
    }

    /** What `logout` does to one storage: the fixed token key, then the
        token-pattern keys of `keys`, then `user`. */
    method RemoveAuthData(keys: seq<string>)
      requires forall k :: k in items ==> k in keys
      modifies this
      ensures items == AfterLogout(old(items))
    {
      ghost var m0 := items;
      RemoveItem(SupabaseTokenKey);
      ghost var m1 := items;
      RemoveAuthTokens(keys);
      ghost var m2 := items;
      RemoveItem("user");
      forall k ensures k in items <==> k in AfterLogout(m0) {
        assert k in items <==> k in m2 && k != "user";
        assert k in m2 <==> k in m1 && !IsAuthTokenKey(k);
        assert RemovedByLogout(k) <==> IsAuthTokenKey(k) || k == "user";
      }
      assert items == AfterLogout(m0);
    }
  }

  class AuthState {
    var user: JsValue
    var isAuthenticated: bool
    var loading: bool
    var currentUser: JsValue
    var currentUserRestrictions: JsValue

    predicate IsInitial()
      reads this
    {
      user == Null && !isAuthenticated && !loading && currentUser == Null && currentUserRestrictions == Null
    }

    /** `initialState`. */
    constructor ()
      ensures IsInitial()
    {
      user := Null;
      isAuthenticated := false;
      loading := false;
      currentUser := Null;
      currentUserRestrictions := Null;
    }

    /** `setUser`: authenticated exactly when the payload is truthy. */
    method SetUser(p: JsValue)
      modifies this`user, this`isAuthenticated, this`loading
      ensures user == p && isAuthenticated == Truthy(p) && !loading
    {
      user := p;
      isAuthenticated := Truthy(p);
      loading := false;
    }

    /** `setCurrentUser`: only its own field. */
    method SetCurrentUser(p: JsValue)
      modifies this`currentUser
      ensures currentUser == p
    {
      currentUser := p;
    }

    /** `setCurrentUserRestrictions`: only its own field. */
    method SetCurrentUserRestrictions(p: JsValue)
      modifies this`currentUserRestrictions
      ensures currentUserRestrictions == p
    {
      currentUserRestrictions := p;
    }

    /** `setLoading`: only its own field. */
    method SetLoading(b: bool)
      modifies this`loading
      ensures loading == b
    {
      loading := b;
    }

    /** `logout`: both storages lose exactly the removed keys, the user is
        signed out, and the selected account and its restrictions stay.
        `localKeys` and `sessionKeys` are what `Object.keys` lists. */
    method Logout(local: Storage, session: Storage, localKeys: seq<string>, sessionKeys: seq<string>)
      requires local != session
      requires forall k :: k in local.items ==> k in localKeys
      requires forall k :: k in session.items ==> k in sessionKeys
      modifies this`user, this`isAuthenticated, this`loading, local, session
      ensures local.items == AfterLogout(old(local.items))
      ensures session.items == AfterLogout(old(session.items))
      ensures user == Null && !isAuthenticated && !loading
    {
      local.RemoveAuthData(localKeys);
      session.RemoveAuthData(sessionKeys);
      user := Null;
      isAuthenticated := false;
      loading := false;
    }
  }
}
