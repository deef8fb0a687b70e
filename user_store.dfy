/**
 * The local store of user_db_handler.py: three tables (users, user_credentials,
 * user_states) held as maps by a class whose methods update them in place.
 * Timestamps (`created_at`, `updated_at`) are not modelled.
 */
module UserStore {
  import opened Wrappers

  // ---------------------------------------------------------------------------
  // users

  /** A row of `users`. */
  datatype Profile = Profile(
    language: string,
    currency: string,
    plan: string,
    isAdmin: int,
    isBanned: int,
    lastUiChatId: Option<int>,
    lastUiMessageId: Option<int>)

  /** The column defaults of `users`. */
  const DefaultProfile := Profile("ru", "USD", "free", 0, 0, None, None)

  /** The stored profile, or the defaults for a user without a row. */
  function ProfileIn(users: map<int, Profile>, u: int): Profile {
    if u in users then users[u] else DefaultProfile
  }

  /** `m1` and `m2` agree on every key except `u`. */
  ghost predicate SameExcept<V>(m1: map<int, V>, m2: map<int, V>, u: int) {
    forall v :: v != u ==> (v in m1 <==> v in m2) && (v in m1 ==> m1[v] == m2[v])
  }

  /** The users table after `ensure_user(u)`. */
  function Ensured(users: map<int, Profile>, u: int): (r: map<int, Profile>)
    ensures u in r && r[u] == ProfileIn(users, u)
    ensures u in users ==> r == users
    ensures u !in users ==> r == users[u := DefaultProfile]
  {
    if u in users then users else users[u := DefaultProfile]
  }

  lemma EnsureIdempotent(users: map<int, Profile>, u: int)
    ensures Ensured(Ensured(users, u), u) == Ensured(users, u)
    ensures SameExcept(users, Ensured(users, u), u)
  {
  }

  /** Writing `u`'s row after `ensure_user(u)` is the same as writing it directly. */
  lemma EnsuredThenSet(users: map<int, Profile>, u: int, p: Profile)
    ensures Ensured(users, u)[u := p] == users[u := p]
  {
  }

  /** A second write of the same key replaces the first. */
  lemma SetTwice<K, V>(m: map<K, V>, k: K, a: V, b: V)
    ensures m[k := a][k := b] == m[k := b]
  {
  }

  /** A keyword that names none of the seven columns `update_user_profile` may set. */
  type OtherName = s: string | s !in AllowedColumns witness "created_at"

  /** One keyword argument of `update_user_profile`; `Unlisted` is any other name. */
  datatype ProfileField =
    | Language(language: string)
    | Currency(currency: string)
    | Plan(plan: string)
    | IsAdmin(isAdmin: int)
    | IsBanned(isBanned: int)
    | LastUiChatId(chatId: Option<int>)
    | LastUiMessageId(messageId: Option<int>)
    | Unlisted(name: OtherName)

  const AllowedColumns: set<string> := {
    "language", "currency", "plan", "is_admin", "is_banned", "last_ui_chat_id", "last_ui_message_id"
  }

  function FieldName(f: ProfileField): string {
    match f
    case Language(_) => "language"
    case Currency(_) => "currency"
    case Plan(_) => "plan"
    case IsAdmin(_) => "is_admin"
    case IsBanned(_) => "is_banned"
    case LastUiChatId(_) => "last_ui_chat_id"
    case LastUiMessageId(_) => "last_ui_message_id"
    case Unlisted(name) => name
  }

  /** The allow-list filter: the arguments whose names are columns that may be set. */
  function SafeFields(fs: seq<ProfileField>): (r: seq<ProfileField>)
    ensures forall f :: f in r <==> f in fs && FieldName(f) in AllowedColumns
  {
    if fs == [] then []
    else (if FieldName(fs[0]) in AllowedColumns then [fs[0]] else []) + SafeFields(fs[1..])
  }

  function ApplyField(p: Profile, f: ProfileField): Profile {
    match f
    case Language(x) => p.(language := x)
    case Currency(x) => p.(currency := x)
    case Plan(x) => p.(plan := x)
    case IsAdmin(x) => p.(isAdmin := x)
    case IsBanned(x) => p.(isBanned := x)
    case LastUiChatId(x) => p.(lastUiChatId := x)
    case LastUiMessageId(x) => p.(lastUiMessageId := x)
    case Unlisted(_) => p
  }

  /** `UPDATE users SET a = ?, b = ?, ...`: left to right, so a later assignment to a column wins. */
  function ApplyFields(p: Profile, fs: seq<ProfileField>): Profile
    decreases |fs|
  {
    if fs == [] then p else ApplyFields(ApplyField(p, fs[0]), fs[1..])
  }

  /** Arguments outside the allow-list have no effect at all. */
  lemma {:induction false} UnlistedFieldsDropped(p: Profile, fs: seq<ProfileField>)
    ensures ApplyFields(p, fs) == ApplyFields(p, SafeFields(fs))
    decreases |fs|
  {
    if fs != [] {
      var rest := SafeFields(fs[1..]);
      if FieldName(fs[0]) in AllowedColumns {
        assert SafeFields(fs) == [fs[0]] + rest;
        assert ([fs[0]] + rest)[1..] == rest;
        UnlistedFieldsDropped(ApplyField(p, fs[0]), fs[1..]);
      } else {
        assert SafeFields(fs) == [] + rest == rest;
        assert ApplyField(p, fs[0]) == p;
        UnlistedFieldsDropped(p, fs[1..]);
      }
    }
  }

  /** With no allowed argument the profile is left as it was. */
  lemma NoAllowedFieldsNoChange(p: Profile, fs: seq<ProfileField>)
    requires SafeFields(fs) == []
    ensures ApplyFields(p, fs) == p
  {
    UnlistedFieldsDropped(p, fs);
  }

  // ---------------------------------------------------------------------------
  // user_states

  /** The JSON values the bot stores, one variant per kind of state (nav stack, screen, payment, admin flow). */
  datatype Value =
    | Null
    | Str(s: string)
    | ScreenList(screens: seq<string>)
    | PendingPayment(paymentId: string, plan: string, amount: int, currency: string)
    | AdminFlow(action: string)

  /** A `value_json` cell: what `json.dumps` wrote, or text that `json.loads` rejects. */
  datatype Stored = Json(value: Value) | Undecodable

  type StateKey = (int, string)

  /** `get_user_state`: the decoded value, or the caller's default when absent or undecodable. */
  function StateIn(states: map<StateKey, Stored>, u: int, key: string, default: Value): (r: Value)
    ensures (u, key) !in states ==> r == default
    ensures r == default || states[(u, key)] == Json(r)
  {
    if (u, key) in states && states[(u, key)].Json? then states[(u, key)].value else default
  }

  /** `m1` and `m2` agree on every key that is not one of `keys` of user `u`. */
  ghost predicate StatesSameExcept(m1: map<StateKey, Stored>, m2: map<StateKey, Stored>, u: int, keys: set<string>) {
    forall k: StateKey :: (k.0 != u || k.1 !in keys) ==> (k in m1 <==> k in m2) && (k in m1 ==> m1[k] == m2[k])
  }

  /** The upsert of `set_user_state` reads back as the value stored, `Null` included. */
  lemma SetThenGet(states: map<StateKey, Stored>, u: int, key: string, v: Value, default: Value)
    ensures StateIn(states[(u, key) := Json(v)], u, key, default) == v
  {
  }

  /** The upsert leaves every other (user, key) pair as it was. */
  lemma SetLeavesOthers(states: map<StateKey, Stored>, u: int, key: string, v: Value,
                        u': int, key': string, default: Value)
    requires (u', key') != (u, key)
    ensures StateIn(states[(u, key) := Json(v)], u', key', default) == StateIn(states, u', key', default)
  {
  }

  /** After `delete_user_state` the key reads as the default; nothing else moves. */
  lemma DeleteThenGet(states: map<StateKey, Stored>, u: int, key: string, default: Value)
    ensures StateIn(states - {(u, key)}, u, key, default) == default
    ensures StatesSameExcept(states, states - {(u, key)}, u, {key})
  {
  }

  /** The states left once every entry of `u` is deleted. */
  function DropUser(states: map<StateKey, Stored>, u: int): (r: map<StateKey, Stored>)
    ensures forall k: StateKey :: k in r <==> k in states && k.0 != u
    ensures forall k: StateKey :: k in r ==> r[k] == states[k]
  {
    map k | k in states && k.0 != u :: states[k]
  }

  // ---------------------------------------------------------------------------
  // user_credentials

  /** A row of `user_credentials`: three independently nullable ciphertexts. */
  datatype CredRow = CredRow(loginEnc: Option<string>, passwordEnc: Option<string>, ssidEnc: Option<string>)

  /** Python truthiness of a nullable text cell. */
  predicate Present(s: Option<string>) { s.Some? && s.value != "" }

  /** The upsert of `save_encrypted_credentials`: sets login and password, keeps the ssid. */
  function WithLoginPassword(row: Option<CredRow>, loginEnc: string, passwordEnc: string): (r: CredRow)
    ensures r.loginEnc == Some(loginEnc) && r.passwordEnc == Some(passwordEnc)
    ensures r.ssidEnc == if row.Some? then row.value.ssidEnc else None
  {
    match row
    case None => CredRow(Some(loginEnc), Some(passwordEnc), None)
    case Some(r) => r.(loginEnc := Some(loginEnc), passwordEnc := Some(passwordEnc))
  }

  /** The upsert of `save_encrypted_ssid`: sets the ssid, keeps login and password. */
  function WithSsid(row: Option<CredRow>, ssidEnc: string): (r: CredRow)
    ensures r.ssidEnc == Some(ssidEnc)
    ensures r.loginEnc == (if row.Some? then row.value.loginEnc else None)
    ensures r.passwordEnc == (if row.Some? then row.value.passwordEnc else None)
  {
    match row
    case None => CredRow(None, None, Some(ssidEnc))
    case Some(r) => r.(ssidEnc := Some(ssidEnc))
  }

  /** `get_encrypted_data_from_local_db`: the stored pair only when both halves are non-empty. */
  function LoginPassword(row: Option<CredRow>): (r: Option<(string, string)>)
    ensures r.Some? <==> row.Some? && Present(row.value.loginEnc) && Present(row.value.passwordEnc)
    ensures r.Some? ==> r.value.0 == row.value.loginEnc.value && r.value.1 == row.value.passwordEnc.value
  {
    if row.Some? && Present(row.value.loginEnc) && Present(row.value.passwordEnc)
    then Some((row.value.loginEnc.value, row.value.passwordEnc.value))
    else None
  }

  /** `get_encrypted_ssid`: the stored ssid when it is non-empty. */
  function SsidOf(row: Option<CredRow>): (r: Option<string>)
    ensures r.Some? <==> row.Some? && Present(row.value.ssidEnc)
    ensures r.Some? ==> r.value == row.value.ssidEnc.value
  {
    if row.Some? && Present(row.value.ssidEnc) then row.value.ssidEnc else None
  }

  /** Saving a non-empty pair and reading it back gives exactly that pair. */
  lemma SaveThenRead(row: Option<CredRow>, loginEnc: string, passwordEnc: string)
    requires loginEnc != "" && passwordEnc != ""
    ensures LoginPassword(Some(WithLoginPassword(row, loginEnc, passwordEnc))) == Some((loginEnc, passwordEnc))
  {
  }

  /** An empty half makes the pair unreadable. */
  lemma EmptyHalfNotReturned(row: Option<CredRow>, loginEnc: string, passwordEnc: string)
    requires loginEnc == "" || passwordEnc == ""
    ensures LoginPassword(Some(WithLoginPassword(row, loginEnc, passwordEnc))) == None
  {
  }

  /** Saving the pair keeps the ssid; saving the ssid keeps the pair. */
  lemma SavesMergeByField(row: Option<CredRow>, loginEnc: string, passwordEnc: string, ssidEnc: string)
    ensures SsidOf(Some(WithLoginPassword(row, loginEnc, passwordEnc))) == SsidOf(row)
    ensures LoginPassword(Some(WithSsid(row, ssidEnc))) == LoginPassword(row)
  {
  }

  /** A row created by an ssid save alone yields no login/password pair. */
  lemma SsidOnlyRowHasNoPair(ssidEnc: string)
    ensures LoginPassword(Some(WithSsid(None, ssidEnc))) == None
    ensures ssidEnc != "" ==> SsidOf(Some(WithSsid(None, ssidEnc))) == Some(ssidEnc)
  {
  }

  // ---------------------------------------------------------------------------
  // reset_user_data

  /** After a reset the user reads as new, and every other user is untouched. */
  lemma ResetLooksFresh(users: map<int, Profile>, creds: map<int, CredRow>, states: map<StateKey, Stored>,
                        u: int, key: string, default: Value)
    ensures ProfileIn(users - {u}, u) == DefaultProfile
    ensures LoginPassword(Get(creds - {u}, u)) == None && SsidOf(Get(creds - {u}, u)) == None
    ensures StateIn(DropUser(states, u), u, key, default) == default
    ensures SameExcept(users, users - {u}, u) && SameExcept(creds, creds - {u}, u)
    ensures forall u': int, key': string :: u' != u ==>
              StateIn(DropUser(states, u), u', key', default) == StateIn(states, u', key', default)
  {
  }

  // ---------------------------------------------------------------------------
  // the foreign keys

  /** `user_credentials.user_id` and `user_states.user_id` reference `users.user_id`. */
  ghost predicate ForeignKeys(users: map<int, Profile>, creds: map<int, CredRow>, states: map<StateKey, Stored>) {
    creds.Keys <= users.Keys && (set k: StateKey | k in states :: k.0) <= users.Keys
  }

  /** Under the foreign keys, a user without a profile row has no credentials and no states. */
  lemma NoProfileNoRows(users: map<int, Profile>, creds: map<int, CredRow>, states: map<StateKey, Stored>,
                        u: int, key: string, default: Value)
    requires ForeignKeys(users, creds, states) && u !in users
    ensures Get(creds, u) == None
    ensures (u, key) !in states && StateIn(states, u, key, default) == default
  {
    forall k: StateKey | k in states
      ensures k.0 in users
    {
      assert k.0 in (set k': StateKey | k' in states :: k'.0);
    }
  }

  // ---------------------------------------------------------------------------
  // the store

  class LocalStore {
    var users: map<int, Profile>
    var creds: map<int, CredRow>
    var states: map<StateKey, Stored>

    /** The foreign keys: credentials and states belong to existing users. */
    ghost predicate Valid()
      reads this
    {
      ForeignKeys(users, creds, states)
    }

    constructor ()
      ensures Valid() && users == map[] && creds == map[] && states == map[]
    {
      users, creds, states := map[], map[], map[];
    }

    method EnsureUser(u: int)
      requires Valid()
      modifies this
      ensures Valid()
      ensures users == Ensured(old(users), u) && creds == old(creds) && states == old(states)
    {
      if u !in users {
        users := users[u := DefaultProfile];
      }
    }

    method GetUserProfile(u: int) returns (p: Profile)
      requires Valid()
      modifies this
      ensures Valid()
      ensures p == ProfileIn(old(users), u)
      ensures users == Ensured(old(users), u) && creds == old(creds) && states == old(states)
    {
      EnsureUser(u);
      p := users[u];
    }

    method UpdateUserProfile(u: int, fields: seq<ProfileField>)
      requires Valid()
      modifies this
      ensures Valid()
      ensures creds == old(creds) && states == old(states)
      ensures fields == [] ==> users == old(users)
      ensures fields != [] ==> users == Ensured(old(users), u)[u := ApplyFields(ProfileIn(old(users), u), fields)]
    {
      if fields == [] {
        return;
      }
      EnsureUser(u);
      var safe := SafeFields(fields);
      UnlistedFieldsDropped(users[u], fields);
      if safe == [] {
        return;
      }
      users := users[u := ApplyFields(users[u], safe)];
    }

    method SetUserState(u: int, key: string, value: Value)
      requires Valid()
      modifies this
      ensures Valid()
      ensures users == Ensured(old(users), u) && creds == old(creds)
      ensures states == old(states)[(u, key) := Json(value)]
    {
      EnsureUser(u);
      states := states[(u, key) := Json(value)];
    }

    method GetUserState(u: int, key: string, default: Value) returns (v: Value)
      requires Valid()
      modifies this
      ensures Valid()
      ensures v == StateIn(old(states), u, key, default)
      ensures users == Ensured(old(users), u) && creds == old(creds) && states == old(states)
    {
      EnsureUser(u);
      if (u, key) in states && states[(u, key)].Json? {
        v := states[(u, key)].value;
      } else {
        v := default;
      }
    }

    method DeleteUserState(u: int, key: string)
      requires Valid()
      modifies this
      ensures Valid()
      ensures users == Ensured(old(users), u) && creds == old(creds)
      ensures states == old(states) - {(u, key)}
    {
      EnsureUser(u);
      states := states - {(u, key)};
    }

    method SaveEncryptedCredentials(u: int, loginEnc: string, passwordEnc: string)
      requires Valid()
      modifies this
      ensures Valid()
      ensures users == Ensured(old(users), u) && states == old(states)
      ensures creds == old(creds)[u := WithLoginPassword(Get(old(creds), u), loginEnc, passwordEnc)]
    {
      EnsureUser(u);
      creds := creds[u := WithLoginPassword(Get(creds, u), loginEnc, passwordEnc)];
    }

    method SaveEncryptedSsid(u: int, ssidEnc: string)
      requires Valid()
      modifies this
      ensures Valid()
      ensures users == Ensured(old(users), u) && states == old(states)
      ensures creds == old(creds)[u := WithSsid(Get(old(creds), u), ssidEnc)]
    {
      EnsureUser(u);
      creds := creds[u := WithSsid(Get(creds, u), ssidEnc)];
    }

    /** `get_encrypted_data_from_local_db` */
    method GetEncryptedCredentials(u: int) returns (r: Option<(string, string)>)
      requires Valid()
      modifies this
      ensures Valid()
      ensures r == LoginPassword(Get(old(creds), u))
      ensures users == Ensured(old(users), u) && creds == old(creds) && states == old(states)
    {
      EnsureUser(u);
      r := LoginPassword(Get(creds, u));
    }

    method GetEncryptedSsid(u: int) returns (r: Option<string>)
      requires Valid()
      modifies this
      ensures Valid()
      ensures r == SsidOf(Get(old(creds), u))
      ensures users == Ensured(old(users), u) && creds == old(creds) && states == old(states)
    {
      EnsureUser(u);
      r := SsidOf(Get(creds, u));
    }

    /** Deletes the user's states, then credentials, then profile; no `ensure_user` first. */
    method ResetUserData(u: int)
      requires Valid()
      modifies this
      ensures Valid()
      ensures states == DropUser(old(states), u)
      ensures creds == old(creds) - {u}
      ensures users == old(users) - {u}
      ensures u !in users
    {
      states := DropUser(states, u);
      creds := creds - {u};
      users := users - {u};
    }
  }
}
