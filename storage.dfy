/**
 * The per-user store of bot/storage.py: one dictionary from user id to a
 * record (language and two favourites lists), with a "banned" list kept in the
 * same dictionary, rewritten in full to a JSON file after each change.
 *
 * The dictionary is modelled by three fields: `users` for the integer keys,
 * `banned` for the optional "banned" key, and `keys` for the order in which
 * the dictionary holds its keys (Python dictionaries iterate in insertion
 * order). The JSON file is `disk`, and `saves` counts the full rewrites, so
 * that contracts can say when one happens.
 */
module Storage {
  import opened Wrappers
  import opened Text

  /** A favourite song, as the handlers store it: `{id, title, primary_artist: {name, id}}`. */
  datatype Song = Song(id: int, title: string, artistName: string, artistId: int)

  /** A favourite artist; only its `id` is looked at. */
  datatype Artist = Artist(id: int, name: string)

  datatype UserRecord = UserRecord(language: string, favoriteSongs: seq<Song>, favoriteArtists: seq<Artist>)

  /** What `get_favorites` returns: `{"songs": ..., "artists": ...}`. */
  datatype Favorites = Favorites(songs: seq<Song>, artists: seq<Artist>)

  const DefaultLanguage: string := "ru"

  /** The record `get_user` creates on first access. */
  const DefaultUser: UserRecord := UserRecord(DefaultLanguage, [], [])

  /** The record `get_user(uid)` returns: the stored one, or a fresh default. */
  function UserOrDefault(users: map<int, UserRecord>, uid: int): UserRecord {
    if uid in users then users[uid] else DefaultUser
  }

  // ---------------------------------------------------------------------------
  // Lists deduplicated by id

  function SongId(s: Song): int { s.id }
  function ArtistId(a: Artist): int { a.id }
  /** The banned list holds the ids themselves. */
  function Itself(n: int): int { n }

  /** Some element of `xs` has id `id`. */
  predicate HasId<T>(xs: seq<T>, key: T -> int, id: int) {
    exists i :: 0 <= i < |xs| && key(xs[i]) == id
  }

  /** No two elements of `xs` share an id. */
  predicate DistinctIds<T>(xs: seq<T>, key: T -> int) {
    forall i, j :: 0 <= i < j < |xs| ==> key(xs[i]) != key(xs[j])
  }

  /** `xs` with `x` appended unless an element with the same id is already there. */
  function AppendNew<T>(xs: seq<T>, key: T -> int, x: T): seq<T> {
    if HasId(xs, key, key(x)) then xs else xs + [x]
  }

  /** `[y for y in xs if key(y) != id]`. */
  function Without<T>(xs: seq<T>, key: T -> int, id: int): seq<T>
    decreases |xs|
  {
    if xs == [] then []
    else (if key(xs[0]) == id then [] else [xs[0]]) + Without(xs[1..], key, id)
  }

  /** After `AppendNew` the id is present, the old list is a prefix, and at most `x` was added. */
  lemma AppendNewAdds<T>(xs: seq<T>, key: T -> int, x: T)
    ensures HasId(AppendNew(xs, key, x), key, key(x))
    ensures xs <= AppendNew(xs, key, x)
    ensures |AppendNew(xs, key, x)| == |xs| + (if HasId(xs, key, key(x)) then 0 else 1)
  {
    if !HasId(xs, key, key(x)) {
      var r := xs + [x];
      assert key(r[|xs|]) == key(x);
    }
  }

  /** Appending keeps a duplicate-free list duplicate-free. */
  lemma AppendNewKeepsDistinct<T>(xs: seq<T>, key: T -> int, x: T)
    requires DistinctIds(xs, key)
    ensures DistinctIds(AppendNew(xs, key, x), key)
  {
    if !HasId(xs, key, key(x)) {
      var r := xs + [x];
      forall i, j | 0 <= i < j < |r|
        ensures key(r[i]) != key(r[j])
      {
        if j == |xs| {
          assert r[i] == xs[i];
        }
      }
    }
  }

  /** A second add with the same id changes nothing, whatever the rest of the element says. */
  lemma AppendNewIdempotent<T>(xs: seq<T>, key: T -> int, x: T, y: T)
    requires key(y) == key(x)
    ensures AppendNew(AppendNew(xs, key, x), key, y) == AppendNew(xs, key, x)
  {
    AppendNewAdds(xs, key, x);
  }

  /** The filter keeps exactly the elements whose id differs. */
  lemma {:induction false} WithoutMember<T>(xs: seq<T>, key: T -> int, id: int, y: T)
    ensures y in Without(xs, key, id) <==> y in xs && key(y) != id
    decreases |xs|
  {
    if xs != [] {
      WithoutMember(xs[1..], key, id, y);
      assert xs == [xs[0]] + xs[1..];
    }
  }

  /** No element with the removed id survives the filter. */
  lemma WithoutRemoves<T>(xs: seq<T>, key: T -> int, id: int)
    ensures !HasId(Without(xs, key, id), key, id)
  {
    var r := Without(xs, key, id);
    forall i | 0 <= i < |r|
      ensures key(r[i]) != id
    {
      assert r[i] in r;
      WithoutMember(xs, key, id, r[i]);
    }
  }

  /** The filter works element by element, so it keeps the original order. */
  lemma {:induction false} WithoutConcat<T>(a: seq<T>, b: seq<T>, key: T -> int, id: int)
    ensures Without(a + b, key, id) == Without(a, key, id) + Without(b, key, id)
    decreases |a|
  {
    if a != [] {
      assert (a + b)[1..] == a[1..] + b;
      WithoutConcat(a[1..], b, key, id);
    } else {
      assert a + b == b;
    }
  }

  /** Removing an id that is not there leaves the list as it was. */
  lemma {:induction false} WithoutAbsent<T>(xs: seq<T>, key: T -> int, id: int)
    requires !HasId(xs, key, id)
    ensures Without(xs, key, id) == xs
    decreases |xs|
  {
    if xs != [] {
      assert !HasId(xs[1..], key, id) by {
        forall i | 0 <= i < |xs| - 1
          ensures key(xs[1..][i]) != id
        {
          assert xs[1..][i] == xs[i + 1];
        }
      }
      WithoutAbsent(xs[1..], key, id);
      assert xs == [xs[0]] + xs[1..];
    }
  }

  /** Dropping the head of a duplicate-free list leaves it duplicate-free. */
  lemma DistinctIdsTail<T>(xs: seq<T>, key: T -> int)
    requires xs != [] && DistinctIds(xs, key)
    ensures DistinctIds(xs[1..], key)
    ensures !HasId(xs[1..], key, key(xs[0]))
  {
    var tail := xs[1..];
    forall i, j | 0 <= i < j < |tail|
      ensures key(tail[i]) != key(tail[j])
    {
      assert tail[i] == xs[i + 1] && tail[j] == xs[j + 1];
    }
    forall i | 0 <= i < |tail|
      ensures key(tail[i]) != key(xs[0])
    {
      assert tail[i] == xs[i + 1];
    }
  }

  /** In a duplicate-free list that holds the id, removal deletes exactly one element. */
  lemma {:induction false} WithoutDistinctCount<T>(xs: seq<T>, key: T -> int, id: int)
    requires DistinctIds(xs, key) && HasId(xs, key, id)
    ensures |Without(xs, key, id)| == |xs| - 1
    decreases |xs|
  {
    var tail := xs[1..];
    DistinctIdsTail(xs, key);
    if key(xs[0]) == id {
      WithoutAbsent(tail, key, id);
    } else {
      var k :| 0 <= k < |xs| && key(xs[k]) == id;
      assert key(tail[k - 1]) == id;
      WithoutDistinctCount(tail, key, id);
    }
  }

  /** A subsequence chosen by a filter of a duplicate-free list is duplicate-free. */
  lemma {:induction false} WithoutKeepsDistinct<T>(xs: seq<T>, key: T -> int, id: int)
    requires DistinctIds(xs, key)
    ensures DistinctIds(Without(xs, key, id), key)
    decreases |xs|
  {
    if xs != [] {
      var tail := xs[1..];
      DistinctIdsTail(xs, key);
      WithoutKeepsDistinct(tail, key, id);
      var rest := Without(tail, key, id);
      if key(xs[0]) != id {
        var r := [xs[0]] + rest;
        forall i, j | 0 <= i < j < |r|
          ensures key(r[i]) != key(r[j])
        {
          assert r[j] == rest[j - 1];
          if i == 0 {
            assert rest[j - 1] in rest;
            WithoutMember(tail, key, id, rest[j - 1]);
            var k :| 0 <= k < |tail| && tail[k] == rest[j - 1];
          } else {
            assert r[i] == rest[i - 1];
          }
        }
      }
    }
  }

  // ---------------------------------------------------------------------------
  // Duplicate-free sequences

  predicate Unique<T(==)>(xs: seq<T>) {
    forall i, j :: 0 <= i < j < |xs| ==> xs[i] != xs[j]
  }

  lemma UniqueCons<T>(x: T, xs: seq<T>)
    requires x !in xs && Unique(xs)
    ensures Unique([x] + xs)
  {
    var r := [x] + xs;
    forall i, j | 0 <= i < j < |r|
      ensures r[i] != r[j]
    {
      assert r[j] == xs[j - 1];
      if i > 0 {
        assert r[i] == xs[i - 1];
      }
    }
  }

  lemma UniqueSnoc<T>(xs: seq<T>, x: T)
    requires x !in xs && Unique(xs)
    ensures Unique(xs + [x])
  {
    var r := xs + [x];
    forall i, j | 0 <= i < j < |r|
      ensures r[i] != r[j]
    {
      assert r[i] == xs[i];
      if j < |xs| {
        assert r[j] == xs[j];
      }
    }
  }

  lemma UniqueTail<T>(xs: seq<T>)
    requires xs != [] && Unique(xs)
    ensures Unique(xs[1..]) && xs[0] !in xs[1..]
  {
    var tail := xs[1..];
    forall i, j | 0 <= i < j < |tail|
      ensures tail[i] != tail[j]
    {
      assert tail[i] == xs[i + 1] && tail[j] == xs[j + 1];
    }
    forall i | 0 <= i < |tail|
      ensures tail[i] != xs[0]
    {
      assert tail[i] == xs[i + 1];
    }
  }

  /** A duplicate-free sequence has as many elements as the set of its elements. */
  lemma {:induction false} UniqueCard<T>(xs: seq<T>)
    requires Unique(xs)
    ensures |set x | x in xs| == |xs|
    decreases |xs|
  {
    if xs != [] {
      UniqueTail(xs);
      UniqueCard(xs[1..]);
      var tail := set x | x in xs[1..];
      assert xs[0] !in tail;
      assert (set x | x in xs) == tail + {xs[0]} by {
        assert xs == [xs[0]] + xs[1..];
      }
    }
  }

  // ---------------------------------------------------------------------------
  // The keys of the dictionary

  /** A key of the Python dictionary: a user id or the "banned" entry. */
  datatype DataKey = UserKey(id: int) | BannedKey

  /** The key is present in the dictionary the two value fields describe. */
  predicate InData(k: DataKey, users: map<int, UserRecord>, banned: Option<seq<int>>) {
    match k
    case UserKey(u) => u in users
    case BannedKey => banned.Some?
  }

  /** `keys` lists each key of the dictionary exactly once. */
  ghost predicate KeysMatch(keys: seq<DataKey>, users: map<int, UserRecord>, banned: Option<seq<int>>) {
    Unique(keys) && forall k :: k in keys <==> InData(k, users, banned)
  }

  /** The user ids among the keys, in dictionary order: the keys other than "banned". */
  function UserIds(keys: seq<DataKey>): seq<int>
    decreases |keys|
  {
    if keys == [] then []
    else (match keys[0] case UserKey(u) => [u] case BannedKey => []) + UserIds(keys[1..])
  }

  /** A user id is listed exactly when its key is in the key order. */
  lemma {:induction false} UserIdsMember(keys: seq<DataKey>, u: int)
    ensures u in UserIds(keys) <==> UserKey(u) in keys
    decreases |keys|
  {
    if keys != [] {
      UserIdsMember(keys[1..], u);
      assert keys == [keys[0]] + keys[1..];
    }
  }

  /** The user ids of a duplicate-free key order are duplicate-free. */
  lemma {:induction false} UserIdsUnique(keys: seq<DataKey>)
    requires Unique(keys)
    ensures Unique(UserIds(keys))
    decreases |keys|
  {
    if keys != [] {
      UniqueTail(keys);
      UserIdsUnique(keys[1..]);
      match keys[0]
      case UserKey(u) =>
        UserIdsMember(keys[1..], u);
        UniqueCons(u, UserIds(keys[1..]));
      case BannedKey =>
    }
  }

  /** Every key but "banned" is a user id. */
  lemma {:induction false} UserIdsCount(keys: seq<DataKey>)
    requires Unique(keys)
    ensures |keys| == |UserIds(keys)| + (if BannedKey in keys then 1 else 0)
    decreases |keys|
  {
    if keys != [] {
      UniqueTail(keys);
      UserIdsCount(keys[1..]);
      assert keys == [keys[0]] + keys[1..];
    }
  }

  /** The number of keys is the number of users, plus one for a "banned" entry. */
  lemma KeysCount(keys: seq<DataKey>, users: map<int, UserRecord>, banned: Option<seq<int>>)
    requires KeysMatch(keys, users, banned)
    ensures |keys| == |users| + (if banned.Some? then 1 else 0)
    ensures |UserIds(keys)| == |users|
  {
    UserIdsCount(keys);
    UserIdsUnique(keys);
    UniqueCard(UserIds(keys));
    forall u
      ensures u in UserIds(keys) <==> u in users
    {
      UserIdsMember(keys, u);
    }
    assert (set u | u in UserIds(keys)) == users.Keys;
    assert InData(BannedKey, users, banned) == banned.Some?;
  }

  // ---------------------------------------------------------------------------
  // Bans

  /** The list `ban_user` leaves: created empty if absent, `uid` appended if missing. */
  function BannedWith(banned: Option<seq<int>>, uid: int): seq<int> {
    AppendNew(banned.GetOr([]), Itself, uid)
  }

  /** Banning twice is banning once, the id is then present, and no duplicate appears. */
  lemma BanIdempotent(banned: Option<seq<int>>, uid: int)
    ensures BannedWith(Some(BannedWith(banned, uid)), uid) == BannedWith(banned, uid)
    ensures uid in BannedWith(banned, uid)
    ensures DistinctIds(banned.GetOr([]), Itself) ==> DistinctIds(BannedWith(banned, uid), Itself)
  {
    var xs := banned.GetOr([]);
    AppendNewAdds(xs, Itself, uid);
    AppendNewIdempotent(xs, Itself, uid, uid);
    var i :| 0 <= i < |BannedWith(banned, uid)| && BannedWith(banned, uid)[i] == uid;
    if DistinctIds(xs, Itself) {
      AppendNewKeepsDistinct(xs, Itself, uid);
    }
  }

  /** `unban_user` removes every occurrence of the id and keeps the others. */
  lemma UnbanRemovesAll(xs: seq<int>, uid: int, v: int)
    ensures uid !in Without(xs, Itself, uid)
    ensures v != uid ==> (v in Without(xs, Itself, uid) <==> v in xs)
  {
    WithoutMember(xs, Itself, uid, uid);
    WithoutMember(xs, Itself, uid, v);
  }

  // ---------------------------------------------------------------------------
  // The JSON file

  const BannedName: string := "banned"

  /**
   * The JSON document on disk: its member names in file order, the user
   * records under their names, and the optional "banned" list.
   */
  datatype Snapshot = Snapshot(keys: seq<string>, records: map<string, UserRecord>, banned: Option<seq<int>>)

  /** What `json.load` can return for the store: every name once, "banned" holding the list. */
  ghost predicate WellFormed(snap: Snapshot) {
    && Unique(snap.keys)
    && BannedName !in snap.records
    && forall s :: s in snap.keys <==> s in snap.records || (s == BannedName && snap.banned.Some?)
  }

  type Document = snap: Snapshot | WellFormed(snap) witness Snapshot([], map[], None)

  /** The backing file: missing, not parseable as JSON, or a document. */
  datatype Disk = Absent | Unparseable | Written(doc: Document)

  /** No user id prints as "banned". */
  lemma NotBannedName(n: int)
    ensures IntToString(n) != BannedName
  {
    IntToStringAvoids(n, 'b');
    assert BannedName[0] == 'b';
  }

  /** The name `json.dump` writes for a key: `str(id)` for a user, "banned" for the list. */
  function KeyName(k: DataKey): string {
    match k
    case UserKey(u) => IntToString(u)
    case BannedKey => BannedName
  }

  /** Different keys are written under different names. */
  lemma KeyNameDistinct(a: DataKey, b: DataKey)
    requires a != b
    ensures KeyName(a) != KeyName(b)
  {
    if a.UserKey? {
      NotBannedName(a.id);
      ParseIntOfIntToString(a.id);
    }
    if b.UserKey? {
      NotBannedName(b.id);
      ParseIntOfIntToString(b.id);
    }
  }

  /** The user id a JSON name stands for: a string that `str()` of some integer produces. */
  function KeyToId(s: string): (r: Option<int>)
    ensures r.Some? ==> IntToString(r.value) == s
  {
    match ParseInt(s)
    case Some(n) => if IntToString(n) == s then Some(n) else None
    case None => None
  }

  /** The name written for a user id reads back as that id. */
  lemma KeyToIdOfIntToString(n: int)
    ensures KeyToId(IntToString(n)) == Some(n)
  {
    ParseIntOfIntToString(n);
  }

  /** The name "banned" reads back as no user id. */
  lemma KeyToIdOfBannedName()
    ensures KeyToId(BannedName) == None
  {
    match KeyToId(BannedName)
    case None =>
    case Some(n) => NotBannedName(n);
  }

  /** The member names in file order. */
  function Names(keys: seq<DataKey>): (names: seq<string>)
    ensures |names| == |keys|
    ensures forall i :: 0 <= i < |keys| ==> names[i] == KeyName(keys[i])
  {
    seq(|keys|, i requires 0 <= i < |keys| => KeyName(keys[i]))
  }

  /** A name is written exactly when the key it stands for is in the dictionary. */
  lemma NamesMember(keys: seq<DataKey>, s: string)
    ensures s in Names(keys) <==>
      (s == BannedName && BannedKey in keys) || (KeyToId(s).Some? && UserKey(KeyToId(s).value) in keys)
  {
    var names := Names(keys);
    KeyToIdOfBannedName();
    if s in names {
      var i :| 0 <= i < |names| && names[i] == s;
      match keys[i]
      case UserKey(u) => KeyToIdOfIntToString(u);
      case BannedKey =>
    }
    if s == BannedName && BannedKey in keys {
      var i :| 0 <= i < |keys| && keys[i] == BannedKey;
      assert names[i] == s;
    }
    if KeyToId(s).Some? && UserKey(KeyToId(s).value) in keys {
      var i :| 0 <= i < |keys| && keys[i] == UserKey(KeyToId(s).value);
      assert names[i] == s;
    }
  }

  /** A duplicate-free key order writes each name once. */
  lemma NamesUnique(keys: seq<DataKey>)
    requires Unique(keys)
    ensures Unique(Names(keys))
  {
    var names := Names(keys);
    forall i, j | 0 <= i < j < |names|
      ensures names[i] != names[j]
    {
      KeyNameDistinct(keys[i], keys[j]);
    }
  }

  lemma IntToStringInjectiveAll()
    ensures forall a, b :: IntToString(a) == IntToString(b) ==> a == b
  {
    forall a, b | IntToString(a) == IntToString(b)
      ensures a == b
    {
      IntToStringInjective(a, b);
    }
  }

  /** JSON object names are strings, so each user id is written as `str(id)`. */
  function Records(users: map<int, UserRecord>): map<string, UserRecord> {
    IntToStringInjectiveAll();
    map u | u in users :: IntToString(u) := users[u]
  }

  /** A record is written under `s` exactly when `s` is the name of a stored user id. */
  lemma RecordsMember(users: map<int, UserRecord>, s: string)
    ensures s in Records(users) <==> KeyToId(s).Some? && KeyToId(s).value in users
  {
    if s in Records(users) {
      var u :| u in users && IntToString(u) == s;
      KeyToIdOfIntToString(u);
    }
  }

  /** Each user's record is written under `str(u)`. */
  lemma RecordsLookup(users: map<int, UserRecord>, u: int)
    requires u in users
    ensures IntToString(u) in Records(users) && Records(users)[IntToString(u)] == users[u]
  {
    IntToStringInjectiveAll();
  }

  /** What a save writes is a well-formed document. */
  lemma PersistWellFormed(users: map<int, UserRecord>, banned: Option<seq<int>>, keys: seq<DataKey>)
    requires KeysMatch(keys, users, banned)
    ensures WellFormed(Snapshot(Names(keys), Records(users), banned))
  {
    NamesUnique(keys);
    KeyToIdOfBannedName();
    RecordsMember(users, BannedName);
    forall s
      ensures s in Names(keys) <==> s in Records(users) || (s == BannedName && banned.Some?)
    {
      NamesMember(keys, s);
      RecordsMember(users, s);
      assert InData(BannedKey, users, banned) == banned.Some?;
      if KeyToId(s).Some? {
        assert InData(UserKey(KeyToId(s).value), users, banned) == (KeyToId(s).value in users);
      }
    }
  }

  /** `json.dump(self.data)`: the whole dictionary, in its order. */
  function Persist(users: map<int, UserRecord>, banned: Option<seq<int>>, keys: seq<DataKey>): Document
    requires KeysMatch(keys, users, banned)
  {
    PersistWellFormed(users, banned, keys);
    Snapshot(Names(keys), Records(users), banned)
  }

  /** The Python dictionary's keys after `json.load`: an `int` or a `str`. */
  datatype PyKey = IntKey(n: int) | StrKey(s: string)

  /** `json.load` as the source uses it: every name comes back as a string key. */
  function AsWrittenReload(snap: Snapshot): map<PyKey, UserRecord> {
    map s | s in snap.records :: StrKey(s) := snap.records[s]
  }

  /** `get_user(uid)` on a reloaded dictionary: it looks for the integer key only. */
  function AsWrittenGetUser(data: map<PyKey, UserRecord>, uid: int): UserRecord {
    if IntKey(uid) in data then data[IntKey(uid)] else DefaultUser
  }

  /** After a save and a reload as written, no user is found again: everyone gets the default record. */
  lemma ReloadForgetsUsers(users: map<int, UserRecord>, banned: Option<seq<int>>, keys: seq<DataKey>, uid: int)
    requires KeysMatch(keys, users, banned)
    ensures AsWrittenGetUser(AsWrittenReload(Persist(users, banned, keys)), uid) == DefaultUser
  {
  }

  /** A concrete case: user 42 chose English; after the reload as written, `get_user(42)` says Russian. */
  lemma ReloadForgetsLanguage()
    ensures var users := map[42 := UserRecord("en", [], [])];
      && KeysMatch([UserKey(42)], users, None)
      && UserOrDefault(users, 42).language == "en"
      && AsWrittenGetUser(AsWrittenReload(Persist(users, None, [UserKey(42)])), 42).language == "ru"
  {
    var users := map[42 := UserRecord("en", [], [])];
    assert KeysMatch([UserKey(42)], users, None);
    ReloadForgetsUsers(users, None, [UserKey(42)], 42);
  }

  /** The key a member name stands for; names that are neither "banned" nor `str()` of an id stand for none. */
  function KeyOf(s: string): (r: Option<DataKey>)
    ensures r.Some? ==> KeyName(r.value) == s
  {
    if s == BannedName then Some(BannedKey)
    else match KeyToId(s)
      case Some(n) => Some(UserKey(n))
      case None => None
  }

  /** Reading a written name back gives the key it was written for. */
  lemma KeyOfKeyName(k: DataKey)
    ensures KeyOf(KeyName(k)) == Some(k)
  {
    match k
    case UserKey(u) =>
      NotBannedName(u);
      KeyToIdOfIntToString(u);
    case BannedKey =>
  }

  /** A name is read back as key `k` exactly when it is the name of `k`. */
  lemma KeyOfIff(s: string, k: DataKey)
    ensures KeyOf(s) == Some(k) <==> s == KeyName(k)
  {
    KeyOfKeyName(k);
  }

  /** The elements of `xs` that `decode` accepts, decoded, in order. */
  function DecodeAll<S, K>(xs: seq<S>, decode: S -> Option<K>): seq<K>
    decreases |xs|
  {
    if xs == [] then []
    else (match decode(xs[0]) case Some(k) => [k] case None => []) + DecodeAll(xs[1..], decode)
  }

  /** When `name` is the only element decoded as `k`, `k` is decoded exactly when `name` occurs. */
  lemma {:induction false} DecodeAllMember<S, K>(xs: seq<S>, decode: S -> Option<K>, k: K, name: S)
    requires forall s :: decode(s) == Some(k) <==> s == name
    ensures k in DecodeAll(xs, decode) <==> name in xs
    decreases |xs|
  {
    if xs != [] {
      DecodeAllMember(xs[1..], decode, k, name);
      assert xs == [xs[0]] + xs[1..];
    }
  }

  /** The dictionary's key order after loading with names turned back into keys. */
  function RestoreKeys(names: seq<string>): seq<DataKey> {
    DecodeAll(names, KeyOf)
  }

  /** A key is restored exactly when its name was written. */
  lemma RestoreKeysMember(names: seq<string>, k: DataKey)
    ensures k in RestoreKeys(names) <==> KeyName(k) in names
  {
    forall s
      ensures KeyOf(s) == Some(k) <==> s == KeyName(k)
    {
      KeyOfIff(s, k);
    }
    DecodeAllMember(names, KeyOf, k, KeyName(k));
  }

  /** Distinct names restore distinct keys. */
  lemma {:induction false} RestoreKeysUnique(names: seq<string>)
    requires Unique(names)
    ensures Unique(RestoreKeys(names))
    decreases |names|
  {
    if names != [] {
      UniqueTail(names);
      RestoreKeysUnique(names[1..]);
      match KeyOf(names[0])
      case Some(k) =>
        RestoreKeysMember(names[1..], k);
        UniqueCons(k, RestoreKeys(names[1..]));
      case None =>
    }
  }

  /** Reading the names back gives the key order that was written. */
  lemma RestoreKeysNames(keys: seq<DataKey>)
    ensures RestoreKeys(Names(keys)) == keys
  {
    var names := Names(keys);
    forall i | 0 <= i < |keys|
      ensures KeyOf(names[i]) == Some(keys[i])
    {
      KeyOfKeyName(keys[i]);
    }
    DecodeAllEncoded(keys, names, KeyOf);
  }

  /** Decoding elements that each decode to the key at their position gives those keys back, in order. */
  lemma {:induction false} DecodeAllEncoded<S, K>(ks: seq<K>, xs: seq<S>, decode: S -> Option<K>)
    requires |xs| == |ks| && forall i :: 0 <= i < |ks| ==> decode(xs[i]) == Some(ks[i])
    ensures DecodeAll(xs, decode) == ks
    decreases |ks|
  {
    if ks != [] {
      assert forall i :: 0 <= i < |ks| - 1 ==> xs[1..][i] == xs[i + 1];
      DecodeAllEncoded(ks[1..], xs[1..], decode);
      assert ks == [ks[0]] + ks[1..];
    }
  }

  /** Loading with the names turned back into user ids; a name that is not `str()` of an id is dropped. */
  function Restore(snap: Snapshot): map<int, UserRecord> {
    map s | s in snap.records && KeyToId(s).Some? :: KeyToId(s).value := snap.records[s]
  }

  /** A loaded record is found under `n` exactly when it was written under `str(n)`. */
  lemma RestoreMember(snap: Snapshot, n: int)
    ensures n in Restore(snap) <==> IntToString(n) in snap.records
    ensures n in Restore(snap) ==> Restore(snap)[n] == snap.records[IntToString(n)]
  {
    KeyToIdOfIntToString(n);
    if n in Restore(snap) {
      var s :| s in snap.records && KeyToId(s).Some? && KeyToId(s).value == n;
    }
    if IntToString(n) in snap.records {
      assert KeyToId(IntToString(n)).Some?;
    }
  }

  /** A loaded document describes a dictionary whose key order lists each key once. */
  lemma RestoreMatches(doc: Document)
    ensures KeysMatch(RestoreKeys(doc.keys), Restore(doc), doc.banned)
  {
    RestoreKeysUnique(doc.keys);
    forall k
      ensures k in RestoreKeys(doc.keys) <==> InData(k, Restore(doc), doc.banned)
    {
      RestoreKeysMember(doc.keys, k);
      match k
      case UserKey(n) =>
        NotBannedName(n);
        RestoreMember(doc, n);
      case BannedKey =>
    }
  }

  /** Loading the records of a save finds user `n` exactly when it was saved, with its record. */
  lemma RestoreRecordsAt(users: map<int, UserRecord>, snap: Snapshot, n: int)
    requires snap.records == Records(users)
    ensures n in Restore(snap) <==> n in users
    ensures n in users ==> Restore(snap)[n] == users[n]
  {
    RestoreMember(snap, n);
    KeyToIdOfIntToString(n);
    RecordsMember(users, IntToString(n));
    if n in users {
      RecordsLookup(users, n);
    }
  }

  /** Loading a save gives back the saved user ids. */
  lemma RestoreRecordsKeys(users: map<int, UserRecord>, snap: Snapshot)
    requires snap.records == Records(users)
    ensures Restore(snap).Keys == users.Keys
  {
    forall n
      ensures n in Restore(snap) <==> n in users
    {
      RestoreRecordsAt(users, snap, n);
    }
  }

  /** Loading a save gives back each saved record. */
  lemma RestoreRecordsValues(users: map<int, UserRecord>, snap: Snapshot)
    requires snap.records == Records(users)
    ensures forall n :: n in users ==> n in Restore(snap) && Restore(snap)[n] == users[n]
  {
    forall n | n in users
      ensures n in Restore(snap) && Restore(snap)[n] == users[n]
    {
      RestoreRecordsAt(users, snap, n);
    }
  }

  /** Loading the records of a save gives back exactly the users that were saved. */
  lemma RestoreRecords(users: map<int, UserRecord>, snap: Snapshot)
    requires snap.records == Records(users)
    ensures Restore(snap) == users
  {
    RestoreRecordsKeys(users, snap);
    RestoreRecordsValues(users, snap);
  }

  /** Saving and then loading gives back exactly the dictionary that was saved, in the same order. */
  lemma RestorePersist(users: map<int, UserRecord>, banned: Option<seq<int>>, keys: seq<DataKey>)
    requires KeysMatch(keys, users, banned)
    ensures Restore(Persist(users, banned, keys)) == users
    ensures RestoreKeys(Persist(users, banned, keys).keys) == keys
    ensures Persist(users, banned, keys).banned == banned
  {
    RestoreKeysNames(keys);
    RestoreRecords(users, Persist(users, banned, keys));
  }

  /** The dictionary a store starts with: empty unless the file holds a document. */
  function LoadedUsers(disk: Disk): map<int, UserRecord> {
    match disk
    case Written(doc) => Restore(doc)
    case _ => map[]
  }

  function LoadedBanned(disk: Disk): Option<seq<int>> {
    match disk
    case Written(doc) => doc.banned
    case _ => None
  }

  function LoadedKeys(disk: Disk): seq<DataKey> {
    match disk
    case Written(doc) => RestoreKeys(doc.keys)
    case _ => []
  }

  // ---------------------------------------------------------------------------
  // Store-wide facts

  /** Every user's favourites lists are free of duplicate ids. */
  predicate FavoritesDistinct(users: map<int, UserRecord>) {
    forall u :: u in users ==>
      DistinctIds(users[u].favoriteSongs, SongId) && DistinctIds(users[u].favoriteArtists, ArtistId)
  }

  /** Replacing one record by a duplicate-free one keeps the whole store duplicate-free. */
  lemma UpdateKeepsDistinct(users: map<int, UserRecord>, uid: int, user: UserRecord)
    requires FavoritesDistinct(users)
    requires DistinctIds(user.favoriteSongs, SongId) && DistinctIds(user.favoriteArtists, ArtistId)
    ensures FavoritesDistinct(users[uid := user])
  {
  }

  /** The record `get_user` hands out is duplicate-free when the store is. */
  lemma LookupDistinct(users: map<int, UserRecord>, uid: int)
    requires FavoritesDistinct(users)
    ensures DistinctIds(UserOrDefault(users, uid).favoriteSongs, SongId)
    ensures DistinctIds(UserOrDefault(users, uid).favoriteArtists, ArtistId)
  {
  }

  /** `set_language` keeps every favourites list duplicate-free. */
  lemma SetLanguageKeepsDistinct(users: map<int, UserRecord>, uid: int, language: string)
    requires FavoritesDistinct(users)
    ensures FavoritesDistinct(users[uid := UserOrDefault(users, uid).(language := language)])
  {
    LookupDistinct(users, uid);
    UpdateKeepsDistinct(users, uid, UserOrDefault(users, uid).(language := language));
  }

  /** `add_favorite_song` keeps every favourites list duplicate-free. */
  lemma AddSongKeepsDistinct(users: map<int, UserRecord>, uid: int, song: Song)
    requires FavoritesDistinct(users)
    ensures var before := UserOrDefault(users, uid);
      FavoritesDistinct(users[uid := before.(favoriteSongs := AppendNew(before.favoriteSongs, SongId, song))])
  {
    var before := UserOrDefault(users, uid);
    LookupDistinct(users, uid);
    AppendNewKeepsDistinct(before.favoriteSongs, SongId, song);
    UpdateKeepsDistinct(users, uid, before.(favoriteSongs := AppendNew(before.favoriteSongs, SongId, song)));
  }

  /** `add_favorite_artist` keeps every favourites list duplicate-free. */
  lemma AddArtistKeepsDistinct(users: map<int, UserRecord>, uid: int, artist: Artist)
    requires FavoritesDistinct(users)
    ensures var before := UserOrDefault(users, uid);
      FavoritesDistinct(users[uid := before.(favoriteArtists := AppendNew(before.favoriteArtists, ArtistId, artist))])
  {
    var before := UserOrDefault(users, uid);
    LookupDistinct(users, uid);
    AppendNewKeepsDistinct(before.favoriteArtists, ArtistId, artist);
    UpdateKeepsDistinct(users, uid, before.(favoriteArtists := AppendNew(before.favoriteArtists, ArtistId, artist)));
  }

  /** `remove_favorite_song` keeps every favourites list duplicate-free. */
  lemma RemoveSongKeepsDistinct(users: map<int, UserRecord>, uid: int, songId: int)
    requires FavoritesDistinct(users)
    ensures var before := UserOrDefault(users, uid);
      FavoritesDistinct(users[uid := before.(favoriteSongs := Without(before.favoriteSongs, SongId, songId))])
  {
    var before := UserOrDefault(users, uid);
    LookupDistinct(users, uid);
    WithoutKeepsDistinct(before.favoriteSongs, SongId, songId);
    UpdateKeepsDistinct(users, uid, before.(favoriteSongs := Without(before.favoriteSongs, SongId, songId)));
  }

  /** `remove_favorite_artist` keeps every favourites list duplicate-free. */
  lemma RemoveArtistKeepsDistinct(users: map<int, UserRecord>, uid: int, artistId: int)
    requires FavoritesDistinct(users)
    ensures var before := UserOrDefault(users, uid);
      FavoritesDistinct(users[uid := before.(favoriteArtists := Without(before.favoriteArtists, ArtistId, artistId))])
  {
    var before := UserOrDefault(users, uid);
    LookupDistinct(users, uid);
    WithoutKeepsDistinct(before.favoriteArtists, ArtistId, artistId);
    UpdateKeepsDistinct(users, uid, before.(favoriteArtists := Without(before.favoriteArtists, ArtistId, artistId)));
  }

  /** Storing two records for the same id in turn leaves only the second. */
  lemma Overwrite(users: map<int, UserRecord>, uid: int, first: UserRecord, second: UserRecord)
    ensures users[uid := first][uid := second] == users[uid := second]
  {
  }

  /** Inserting a new user at the end of the key order keeps the order exact. */
  lemma InsertKeepsMatch(keys: seq<DataKey>, users: map<int, UserRecord>, banned: Option<seq<int>>, uid: int, user: UserRecord)
    requires KeysMatch(keys, users, banned) && uid !in users
    ensures KeysMatch(keys + [UserKey(uid)], users[uid := user], banned)
  {
    assert !InData(UserKey(uid), users, banned);
    UniqueSnoc(keys, UserKey(uid));
  }

  /** Replacing the record of a user already present leaves the keys alone. */
  lemma ReplaceKeepsMatch(keys: seq<DataKey>, users: map<int, UserRecord>, banned: Option<seq<int>>, uid: int, user: UserRecord)
    requires KeysMatch(keys, users, banned) && uid in users
    ensures KeysMatch(keys, users[uid := user], banned)
  {
    forall k
      ensures InData(k, users[uid := user], banned) == InData(k, users, banned)
    {
    }
  }

  // ---------------------------------------------------------------------------
  // The store object

  class Store {
    var users: map<int, UserRecord>
    var banned: Option<seq<int>>
    var keys: seq<DataKey>
    var disk: Disk
    var saves: nat

    /** The key order lists each key of the dictionary once. */
    ghost predicate Valid()
      reads this
    {
      KeysMatch(keys, users, banned)
    }

    /** `Storage(filename)`: `_load_data` reads the file once. */
    constructor (initial: Disk)
      ensures Valid()
      ensures users == LoadedUsers(initial) && banned == LoadedBanned(initial) && keys == LoadedKeys(initial)
      ensures disk == initial && saves == 0
    {
      users := LoadedUsers(initial);
      banned := LoadedBanned(initial);
      keys := LoadedKeys(initial);
      disk := initial;
      saves := 0;
      if initial.Written? {
        RestoreMatches(initial.doc);
      }
    }

    /** `_save_data`: the whole dictionary overwrites the file. */
    method SaveData()
      requires Valid()
      modifies this
      ensures Valid()
      ensures users == old(users) && banned == old(banned) && keys == old(keys)
      ensures disk == Written(Persist(users, banned, keys)) && saves == old(saves) + 1
    {
      disk := Written(Persist(users, banned, keys));
      saves := saves + 1;
    }

    /** `get_user`: an unknown id gets the default record, inserted last but not saved. */
    method GetUser(uid: int) returns (user: UserRecord)
      requires Valid()
      modifies this
      ensures Valid()
      ensures user == UserOrDefault(old(users), uid)
      ensures users == old(users)[uid := user]
      ensures keys == old(keys) + (if uid in old(users) then [] else [UserKey(uid)])
      ensures uid in old(users) ==> users == old(users)
      ensures banned == old(banned) && disk == old(disk) && saves == old(saves)
    {
      if uid !in users {
        InsertKeepsMatch(keys, users, banned, uid, DefaultUser);
        users := users[uid := DefaultUser];
        keys := keys + [UserKey(uid)];
      }
      user := users[uid];
    }

    /** Stores `user` as the record of `uid`, who is already in the dictionary. */
    method PutUser(uid: int, user: UserRecord)
      requires Valid() && uid in users
      modifies this
      ensures Valid()
      ensures users == old(users)[uid := user]
      ensures banned == old(banned) && keys == old(keys) && disk == old(disk) && saves == old(saves)
    {
      ReplaceKeepsMatch(keys, users, banned, uid, user);
      users := users[uid := user];
    }

    /** `set_language`: only that user's language changes, and the store is saved. */
    method SetLanguage(uid: int, language: string)
      requires Valid()
      modifies this
      ensures Valid()
      ensures users == old(users)[uid := UserOrDefault(old(users), uid).(language := language)]
      ensures banned == old(banned)
      ensures keys == old(keys) + (if uid in old(users) then [] else [UserKey(uid)])
      ensures disk == Written(Persist(users, banned, keys)) && saves == old(saves) + 1
      ensures FavoritesDistinct(old(users)) ==> FavoritesDistinct(users)
    {
      var user := GetUser(uid);
      var updated := user.(language := language);
      PutUser(uid, updated);
      Overwrite(old(users), uid, user, updated);
      SaveData();
      if FavoritesDistinct(old(users)) {
        SetLanguageKeepsDistinct(old(users), uid, language);
      }
    }

    /** Appends `song` to the record `user` of `uid` and saves, unless a song with its id is already there. */
    method StoreSong(uid: int, user: UserRecord, song: Song) returns (added: bool)
      requires Valid() && uid in users && users[uid] == user
      modifies this
      ensures Valid()
      ensures added == !HasId(user.favoriteSongs, SongId, song.id)
      ensures users == old(users)[uid := user.(favoriteSongs := AppendNew(user.favoriteSongs, SongId, song))]
      ensures banned == old(banned) && keys == old(keys)
      ensures added ==> disk == Written(Persist(users, banned, keys)) && saves == old(saves) + 1
      ensures !added ==> disk == old(disk) && saves == old(saves)
    {
      added := !HasId(user.favoriteSongs, SongId, song.id);
      if added {
        PutUser(uid, user.(favoriteSongs := user.favoriteSongs + [song]));
        SaveData();
      } else {
        assert users == old(users)[uid := user.(favoriteSongs := user.favoriteSongs)];
      }
    }

    /** Appends `artist` to the record `user` of `uid` and saves, unless an artist with its id is already there. */
    method StoreArtist(uid: int, user: UserRecord, artist: Artist)
      requires Valid() && uid in users && users[uid] == user
      modifies this
      ensures Valid()
      ensures users == old(users)[uid := user.(favoriteArtists := AppendNew(user.favoriteArtists, ArtistId, artist))]
      ensures banned == old(banned) && keys == old(keys)
      ensures !HasId(user.favoriteArtists, ArtistId, artist.id) ==> disk == Written(Persist(users, banned, keys)) && saves == old(saves) + 1
      ensures HasId(user.favoriteArtists, ArtistId, artist.id) ==> disk == old(disk) && saves == old(saves)
    {
      if !HasId(user.favoriteArtists, ArtistId, artist.id) {
        PutUser(uid, user.(favoriteArtists := user.favoriteArtists + [artist]));
        SaveData();
      } else {
        assert users == old(users)[uid := user.(favoriteArtists := user.favoriteArtists)];
      }
    }

    /** `add_favorite_song`: appends and saves only when no stored song has the same id. */
    method AddFavoriteSong(uid: int, song: Song) returns (added: bool)
      requires Valid()
      modifies this
      ensures Valid()
      ensures added == !HasId(UserOrDefault(old(users), uid).favoriteSongs, SongId, song.id)
      ensures users == old(users)[uid := UserOrDefault(old(users), uid).(favoriteSongs := AppendNew(UserOrDefault(old(users), uid).favoriteSongs, SongId, song))]
      ensures banned == old(banned)
      ensures keys == old(keys) + (if uid in old(users) then [] else [UserKey(uid)])
      ensures added ==> disk == Written(Persist(users, banned, keys)) && saves == old(saves) + 1
      ensures !added ==> disk == old(disk) && saves == old(saves)
      ensures FavoritesDistinct(old(users)) ==> FavoritesDistinct(users)
    {
      var user := GetUser(uid);
      added := StoreSong(uid, user, song);
      Overwrite(old(users), uid, user, user.(favoriteSongs := AppendNew(user.favoriteSongs, SongId, song)));
      if FavoritesDistinct(old(users)) {
        AddSongKeepsDistinct(old(users), uid, song);
      }
    }

    /** `add_favorite_artist`: the same rule for artists; nothing is returned. */
    method AddFavoriteArtist(uid: int, artist: Artist)
      requires Valid()
      modifies this
      ensures Valid()
      ensures users == old(users)[uid := UserOrDefault(old(users), uid).(favoriteArtists := AppendNew(UserOrDefault(old(users), uid).favoriteArtists, ArtistId, artist))]
      ensures banned == old(banned)
      ensures keys == old(keys) + (if uid in old(users) then [] else [UserKey(uid)])
      ensures var appended := !HasId(UserOrDefault(old(users), uid).favoriteArtists, ArtistId, artist.id);
        && (appended ==> disk == Written(Persist(users, banned, keys)) && saves == old(saves) + 1)
        && (!appended ==> disk == old(disk) && saves == old(saves))
      ensures FavoritesDistinct(old(users)) ==> FavoritesDistinct(users)
    {
      var user := GetUser(uid);
      StoreArtist(uid, user, artist);
      Overwrite(old(users), uid, user, user.(favoriteArtists := AppendNew(user.favoriteArtists, ArtistId, artist)));
      if FavoritesDistinct(old(users)) {
        AddArtistKeepsDistinct(old(users), uid, artist);
      }
    }

    /** `remove_favorite_song`: keeps the songs whose id differs, and saves even if none went. */
    method RemoveFavoriteSong(uid: int, songId: int)
      requires Valid()
      modifies this
      ensures Valid()
      ensures var before := UserOrDefault(old(users), uid);
        users == old(users)[uid := before.(favoriteSongs := Without(before.favoriteSongs, SongId, songId))]
      ensures banned == old(banned)
      ensures keys == old(keys) + (if uid in old(users) then [] else [UserKey(uid)])
      ensures disk == Written(Persist(users, banned, keys)) && saves == old(saves) + 1
      ensures FavoritesDistinct(old(users)) ==> FavoritesDistinct(users)
    {
      var user := GetUser(uid);
      var kept := user.(favoriteSongs := Without(user.favoriteSongs, SongId, songId));
      PutUser(uid, kept);
      Overwrite(old(users), uid, user, kept);
      SaveData();
      if FavoritesDistinct(old(users)) {
        RemoveSongKeepsDistinct(old(users), uid, songId);
      }
    }

    /** `remove_favorite_artist`: the same for artists. */
    method RemoveFavoriteArtist(uid: int, artistId: int)
      requires Valid()
      modifies this
      ensures Valid()
      ensures var before := UserOrDefault(old(users), uid);
        users == old(users)[uid := before.(favoriteArtists := Without(before.favoriteArtists, ArtistId, artistId))]
      ensures banned == old(banned)
      ensures keys == old(keys) + (if uid in old(users) then [] else [UserKey(uid)])
      ensures disk == Written(Persist(users, banned, keys)) && saves == old(saves) + 1
      ensures FavoritesDistinct(old(users)) ==> FavoritesDistinct(users)
    {
      var user := GetUser(uid);
      var kept := user.(favoriteArtists := Without(user.favoriteArtists, ArtistId, artistId));
      PutUser(uid, kept);
      Overwrite(old(users), uid, user, kept);
      SaveData();
      if FavoritesDistinct(old(users)) {
        RemoveArtistKeepsDistinct(old(users), uid, artistId);
      }
    }

    /** `get_favorites`: the user's two lists; an unknown user is inserted as for `get_user`. */
    method GetFavorites(uid: int) returns (f: Favorites)
      requires Valid()
      modifies this
      ensures Valid()
      ensures f == Favorites(UserOrDefault(old(users), uid).favoriteSongs, UserOrDefault(old(users), uid).favoriteArtists)
      ensures users == old(users)[uid := UserOrDefault(old(users), uid)]
      ensures keys == old(keys) + (if uid in old(users) then [] else [UserKey(uid)])
      ensures banned == old(banned) && disk == old(disk) && saves == old(saves)
    {
      var user := GetUser(uid);
      f := Favorites(user.favoriteSongs, user.favoriteArtists);
    }

    /** `ban_user`: the list is created if absent; the id is appended, and the store saved, only if missing. */
    method BanUser(uid: int)
      requires Valid()
      modifies this
      ensures Valid()
      ensures banned == Some(BannedWith(old(banned), uid))
      ensures users == old(users)
      ensures keys == old(keys) + (if old(banned).Some? then [] else [BannedKey])
      ensures uid !in old(banned).GetOr([]) ==> disk == Written(Persist(users, banned, keys)) && saves == old(saves) + 1
      ensures uid in old(banned).GetOr([]) ==> disk == old(disk) && saves == old(saves)
    {
      if banned.None? {
        assert !InData(BannedKey, users, banned);
        UniqueSnoc(keys, BannedKey);
        banned := Some([]);
        keys := keys + [BannedKey];
      }
      var list := banned.value;
      assert HasId(list, Itself, uid) <==> uid in list;
      if uid !in list {
        banned := Some(list + [uid]);
        assert forall k :: InData(k, users, banned) == InData(k, users, Some(list));
        SaveData();
      }
    }

    /** `unban_user`: with a "banned" entry, every occurrence goes and the store is saved; without one, nothing happens. */
    method UnbanUser(uid: int)
      requires Valid()
      modifies this
      ensures Valid()
      ensures old(banned).Some? ==>
        banned == Some(Without(old(banned).value, Itself, uid))
        && disk == Written(Persist(users, banned, keys)) && saves == old(saves) + 1
      ensures old(banned).None? ==> banned == None && disk == old(disk) && saves == old(saves)
      ensures users == old(users) && keys == old(keys)
    {
      if banned.Some? {
        var list := banned.value;
        banned := Some(Without(list, Itself, uid));
        assert forall k :: InData(k, users, banned) == InData(k, users, Some(list));
        SaveData();
      }
    }

    /** `len(storage.data)`: the users, plus one for the "banned" entry. */
    function DataLen(): (n: nat)
      requires Valid()
      reads this
      ensures n == |users| + (if banned.Some? then 1 else 0)
    {
      KeysCount(keys, users, banned);
      |keys|
    }
  }
}
