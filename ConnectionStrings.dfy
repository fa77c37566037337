/**
 * Connection strings in their parsed form: a finite map from keyword to value, and the
 * NewLife `ConnectionStringBuilder` that the core mutates in place.
 */
module ConnectionStrings {
  import opened Wrappers

  /** The key/value pairs of a connection string. */
  type ConnStr = map<string, string>

  /** The two keywords that name the target database, in the order they are looked for. */
  const DATABASE_KEYS: seq<string> := ["Database", "Initial Catalog"]

  /** The three keywords that name the login, in the order they are looked for. */
  const USER_KEYS: seq<string> := ["User ID", "User", "uid"]

  const POOLING_KEY := "Pooling"

  /** The index of the first keyword of `keys` that `cs` contains, if there is one. */
  function FirstKeyIndex(cs: ConnStr, keys: seq<string>): (r: Option<nat>)
    ensures r.Some? ==> r.value < |keys| && keys[r.value] in cs
    ensures r.Some? ==> forall j :: 0 <= j < r.value ==> keys[j] !in cs
    ensures r.None? <==> forall j :: 0 <= j < |keys| ==> keys[j] !in cs
    decreases |keys|
  {
    if |keys| == 0 then None
    else if keys[0] in cs then Some(0)
    else
      match FirstKeyIndex(cs, keys[1..])
      case None => None
      case Some(i) => Some(i + 1)
  }

  /** Two strings with the same keywords pick the same keyword from any priority list. */
  lemma {:induction false} FirstKeyIndexDependsOnKeysOnly(cs: ConnStr, cs': ConnStr, keys: seq<string>)
    requires cs.Keys == cs'.Keys
    ensures FirstKeyIndex(cs, keys) == FirstKeyIndex(cs', keys)
    decreases |keys|
  {
    if |keys| > 0 && keys[0] !in cs {
      assert keys[0] !in cs';
      FirstKeyIndexDependsOnKeysOnly(cs, cs', keys[1..]);
    }
  }

  /** The database keyword `OpenDatabase` rewrites: "Database", else "Initial Catalog", else none. */
  function DatabaseKey(cs: ConnStr): Option<string>
  {
    match FirstKeyIndex(cs, DATABASE_KEYS)
    case Some(i) => Some(DATABASE_KEYS[i])
    case None => None
  }

  /** The connection string `OpenDatabase` gives the connection so that it targets `dbName`. */
  function RetargetDatabase(cs: ConnStr, dbName: string): (r: ConnStr)
    ensures r.Keys == cs.Keys
    ensures "Database" in cs ==> r == cs["Database" := dbName]
    ensures "Database" !in cs && "Initial Catalog" in cs ==> r == cs["Initial Catalog" := dbName]
    ensures "Database" !in cs && "Initial Catalog" !in cs ==> r == cs
    ensures forall k :: k in cs && k != "Database" && k != "Initial Catalog" ==> r[k] == cs[k]
    ensures forall k1, k2 :: k1 in cs && k2 in cs && r[k1] != cs[k1] && r[k2] != cs[k2] ==> k1 == k2
  {
    match DatabaseKey(cs)
    case Some(k) => cs[k := dbName]
    case None => cs
  }

  /** Retargeting twice is retargeting once, to the second name: the keyword chosen does not move. */
  lemma RetargetDatabaseTwice(cs: ConnStr, first: string, second: string)
    ensures RetargetDatabase(RetargetDatabase(cs, first), second) == RetargetDatabase(cs, second)
  {
    FirstKeyIndexDependsOnKeysOnly(cs, RetargetDatabase(cs, first), DATABASE_KEYS);
  }

  /** The login a connection string names: "User ID", else "User", else "uid", else empty. */
  function UserOf(cs: ConnStr): (r: string)
    ensures "User ID" in cs ==> r == cs["User ID"]
    ensures "User ID" !in cs && "User" in cs ==> r == cs["User"]
    ensures "User ID" !in cs && "User" !in cs && "uid" in cs ==> r == cs["uid"]
    ensures "User ID" !in cs && "User" !in cs && "uid" !in cs ==> r == ""
  {
    match FirstKeyIndex(cs, USER_KEYS)
    case Some(i) => cs[USER_KEYS[i]]
    case None => ""
  }

  /** Setting a keyword that is not a login keyword does not change the login. */
  lemma UserOfIgnoresOtherKeys(cs: ConnStr, key: string, value: string)
    requires key !in USER_KEYS
    ensures UserOf(cs[key := value]) == UserOf(cs)
  {
    var cs' := cs[key := value];
    forall j | 0 <= j < |USER_KEYS|
      ensures USER_KEYS[j] in cs' <==> USER_KEYS[j] in cs
    {
      assert USER_KEYS[j] != key;
    }
  }

  /** NewLife's `TryAdd`: adds the pair only when the keyword is absent. */
  function AddIfAbsent(cs: ConnStr, key: string, value: string): (r: ConnStr)
    ensures r.Keys == cs.Keys + {key}
    ensures key !in cs ==> r[key] == value
    ensures forall k :: k in cs ==> r[k] == cs[k]
  {
    if key in cs then cs else cs[key := value]
  }

  /** `OnSetConnectionString`'s own step: `TryAdd("Pooling", "false")`. */
  function DisablePooling(cs: ConnStr): (r: ConnStr)
    ensures r.Keys == cs.Keys + {POOLING_KEY}
    ensures POOLING_KEY !in cs ==> r[POOLING_KEY] == "false"
    ensures forall k :: k in cs ==> r[k] == cs[k]
  {
    AddIfAbsent(cs, POOLING_KEY, "false")
  }

  /** Normalising an already normalised string changes nothing. */
  lemma DisablePoolingIdempotent(cs: ConnStr)
    ensures DisablePooling(DisablePooling(cs)) == DisablePooling(cs)
  {
  }

  /** A caller's explicit "Pooling=true" survives: `TryAdd` never overwrites. */
  lemma ExplicitPoolingSurvives(cs: ConnStr)
    requires POOLING_KEY in cs && cs[POOLING_KEY] == "true"
    ensures DisablePooling(cs)[POOLING_KEY] == "true"
  {
  }

  /** NewLife's `ConnectionStringBuilder`, a keyword map that is updated in place. */
  class ConnectionStringBuilder {
    var entries: ConnStr

    /** A builder over a connection string; a null or empty string gives an empty builder. */
    constructor (text: Option<ConnStr>)
      ensures entries == if text.Some? then text.value else map[]
    {
      entries := if text.Some? then text.value else map[];
    }

    /** The indexer's read: the value of `key`, or null when it is absent. */
    function Get(key: string): Option<string>
      reads this
    {
      if key in entries then Some(entries[key]) else None
    }

    predicate ContainsKey(key: string)
      reads this
    {
      key in entries
    }

    /** The indexer's write. */
    method Set(key: string, value: string)
      modifies this
      ensures entries == old(entries)[key := value]
    {
      entries := entries[key := value];
    }

    method TryAdd(key: string, value: string) returns (added: bool)
      modifies this
      ensures added == (key !in old(entries))
      ensures entries == AddIfAbsent(old(entries), key, value)
    {
      added := key !in entries;
      if added {
        entries := entries[key := value];
      }
    }
  }
}
