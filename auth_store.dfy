/** The session store (`src/store/authStore.jsx`): the signed-in user, the
    token and the role, kept in memory and mirrored in the browser's
    `localStorage` so that a reload restores them. */
module AuthStore {
  import opened JsValues

  /** The browser's `localStorage`: string keys to string values. */
  class LocalStorage {
    var entries: map<string, string>

    constructor(initial: map<string, string>)
      ensures entries == initial
    {
      entries := initial;
    }

    /** `getItem(key)`: `None` stands for `null`. */
    function GetItem(key: string): (r: Option<string>)
      reads this
      ensures r.Some? <==> key in entries
      ensures r.Some? ==> r.value == entries[key]
    {
      if key in entries then Some(entries[key]) else None
    }

    /** `setItem(key, value)`. */
    method SetItem(key: string, value: string)
      modifies this
      ensures entries == old(entries)[key := value]
    {
      entries := entries[key := value];
    }

    /** `removeItem(key)`. */
    method RemoveItem(key: string)
      modifies this
      ensures entries == old(entries) - {key}
    {
      entries := entries - {key};
    }
  }

  /** `JSON.stringify` and `JSON.parse` for user records; `decode` gives `None`
      for text that does not parse to an object (including `"null"`). */
  datatype Codec = Codec(encode: Record -> string, decode: string -> Option<Record>)

  /** A record without its `undefined` properties, which `JSON.stringify` drops. */
  function Defined(u: Record): (d: Record)
    ensures forall k :: Get(d, k) == Get(u, k)
    ensures forall k :: k in d ==> d[k] != Undefined
  {
    map k | k in u && u[k] != Undefined :: u[k]
  }

  /** A faithful JSON codec: parsing what was written gives back the record,
      property for property. */
  ghost predicate RoundTrips(codec: Codec)
  {
    forall u :: codec.decode(codec.encode(u)) == Some(Defined(u))
  }

  /** What the store holds: `user`, `token` and `role` (`None`/`Null` is `null`). */
  datatype Session = Session(user: Option<Record>, token: Option<string>, role: Value)

  const SignedOut: Session := Session(None, None, Null)

  /** `!!token`: a token is present and not the empty string. */
  predicate HasToken(t: Option<string>)
  {
    t.Some? && t.value != ""
  }

  /** A token read back from storage is usable whenever it is there. */
  lemma HydratedTokenUsable(entries: map<string, string>, codec: Codec)
    ensures HasToken(Hydrate(entries, codec).token) <==> "token" in entries && entries["token"] != ""
  {
  }

  /** The store's initial state, read from storage: `JSON.parse(getItem('user'))
      || null`, `getItem('token') || null`, `getItem('role') || null`. An empty
      string reads as `null`. */
  function Hydrate(entries: map<string, string>, codec: Codec): (s: Session)
    ensures s.token.Some? ==> s.token.value != ""
    ensures s.role == Null || (s.role.Str? && s.role.s != "")
    ensures "user" !in entries ==> s.user.None?
    ensures "token" !in entries ==> s.token.None?
    ensures "role" !in entries ==> s.role == Null
  {
    Session(
      if "user" in entries then codec.decode(entries["user"]) else None,
      if "token" in entries && entries["token"] != "" then Some(entries["token"]) else None,
      if "role" in entries && entries["role"] != "" then Str(entries["role"]) else Null)
  }

  /** The storage writes of `setAuthData(user, token)`. */
  function PersistAuth(entries: map<string, string>, codec: Codec, u: Record, t: string): (e: map<string, string>)
    ensures e.Keys == entries.Keys + {"user", "token", "role"}
    ensures e["user"] == codec.encode(u) && e["token"] == t && e["role"] == ToJsString(Get(u, "role"))
    ensures forall k :: k in entries && k !in {"user", "token", "role"} ==> e[k] == entries[k]
  {
    entries["user" := codec.encode(u)]["token" := t]["role" := ToJsString(Get(u, "role"))]
  }

  /** The storage writes of `clearAuthData()`. */
  function Forget(entries: map<string, string>): (e: map<string, string>)
    ensures e.Keys == entries.Keys - {"user", "token", "role"}
    ensures forall k :: k in e ==> e[k] == entries[k]
  {
    entries - {"user", "token", "role"}
  }

  class AuthStore {
    var user: Option<Record>
    var token: Option<string>
    var role: Value
    /** `savingBalance` and `loanBalance`: never initialised, so `undefined`
        until `setBalances` runs, and never persisted. */
    var savingBalance: Value
    var loanBalance: Value
    const storage: LocalStorage
    const codec: Codec

    function Snapshot(): Session
      reads this
    {
      Session(user, token, role)
    }

    /** Creating the store reads the session back from storage. */
    constructor(storage: LocalStorage, codec: Codec)
      ensures this.storage == storage && this.codec == codec
      ensures Snapshot() == Hydrate(storage.entries, codec)
      ensures savingBalance == Undefined && loanBalance == Undefined
    {
      this.storage := storage;
      this.codec := codec;
      user := if "user" in storage.entries then codec.decode(storage.entries["user"]) else None;
      token := if "token" in storage.entries && storage.entries["token"] != "" then Some(storage.entries["token"]) else None;
      role := if "role" in storage.entries && storage.entries["role"] != "" then Str(storage.entries["role"]) else Null;
      savingBalance := Undefined;
      loanBalance := Undefined;
    }

    /** `setAuthData(user, token)`: writes the three keys, then sets the state. */
    method SetAuthData(u: Record, t: string)
      modifies this, storage
      ensures storage.entries == PersistAuth(old(storage.entries), codec, u, t)
      ensures Snapshot() == Session(Some(u), Some(t), Get(u, "role"))
      ensures savingBalance == old(savingBalance) && loanBalance == old(loanBalance)
    {
      storage.SetItem("user", codec.encode(u));
      storage.SetItem("token", t);
      storage.SetItem("role", ToJsString(Get(u, "role")));
      user, token, role := Some(u), Some(t), Get(u, "role");
    }

    /** `setUserProfilePicture(p)`: `{ ...state.user, profile_picture: p }`,
        written back to storage. Spreading `null` gives `{}`. */
    method SetUserProfilePicture(p: Value)
      modifies this, storage
      ensures user.Some?
      ensures Get(user.value, "profile_picture") == p
      ensures forall k :: k != "profile_picture" ==>
                Get(user.value, k) == (if old(user).Some? then Get(old(user).value, k) else Undefined)
      ensures storage.entries == old(storage.entries)["user" := codec.encode(user.value)]
      ensures token == old(token) && role == old(role)
      ensures savingBalance == old(savingBalance) && loanBalance == old(loanBalance)
    {
      var base := if user.Some? then user.value else map[];
      var updated := Merge(base, map["profile_picture" := p]);
      storage.SetItem("user", codec.encode(updated));
      user := Some(updated);
    }

    /** `setBalances(saving, loan)`: memory only. */
    method SetBalances(saving: Value, loan: Value)
      modifies this
      ensures savingBalance == saving && loanBalance == loan
      ensures Snapshot() == old(Snapshot())
    {
      savingBalance, loanBalance := saving, loan;
    }

    /** `clearAuthData()`: removes the three keys and signs out. The balances stay. */
    method ClearAuthData()
      modifies this, storage
      ensures storage.entries == Forget(old(storage.entries))
      ensures Snapshot() == SignedOut
      ensures savingBalance == old(savingBalance) && loanBalance == old(loanBalance)
    {
      storage.RemoveItem("user");
      storage.RemoveItem("token");
      storage.RemoveItem("role");
      user, token, role := None, None, Null;
    }
  }

  /** After `setAuthData(u, t)` a reload finds the user (less its `undefined`
      properties), the token unless it is empty, and `String(u.role)` unless
      that is empty. */
  lemma {:induction false} ReloadAfterSignIn(entries: map<string, string>, codec: Codec, u: Record, t: string)
    requires RoundTrips(codec)
    ensures Hydrate(PersistAuth(entries, codec, u, t), codec) ==
            Session(Some(Defined(u)), if t == "" then None else Some(t),
                    if ToJsString(Get(u, "role")) == "" then Null else Str(ToJsString(Get(u, "role"))))
  {
    var e := PersistAuth(entries, codec, u, t);
    assert codec.decode(e["user"]) == Some(Defined(u));
  }

  /** A signed-in session with a non-empty token, a non-empty string role and no
      `undefined` properties survives a reload unchanged. */
  lemma {:induction false} ReloadRestoresSession(entries: map<string, string>, codec: Codec, u: Record, t: string)
    requires RoundTrips(codec)
    requires t != "" && Get(u, "role").Str? && Get(u, "role").s != ""
    requires forall k :: k in u ==> u[k] != Undefined
    ensures Hydrate(PersistAuth(entries, codec, u, t), codec) == Session(Some(u), Some(t), Get(u, "role"))
  {
    ReloadAfterSignIn(entries, codec, u, t);
    assert Defined(u) == u;
  }

  /** A user without a `role` is stored with the role text `"undefined"`, so
      after a reload the role is that string rather than `null`. */
  lemma {:induction false} MissingRoleReloadsAsText(entries: map<string, string>, codec: Codec, u: Record, t: string)
    requires RoundTrips(codec)
    requires "role" !in u
    ensures Hydrate(PersistAuth(entries, codec, u, t), codec).role == Str("undefined")
  {
    ReloadAfterSignIn(entries, codec, u, t);
  }

  /** After `clearAuthData()` a reload finds nobody signed in. */
  lemma ReloadAfterSignOut(entries: map<string, string>, codec: Codec)
    ensures Hydrate(Forget(entries), codec) == SignedOut
  {
  }

  /** Signing out twice is the same as signing out once. */
  lemma ForgetIdempotent(entries: map<string, string>)
    ensures Forget(Forget(entries)) == Forget(entries)
  {
  }
}
