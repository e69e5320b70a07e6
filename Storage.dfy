/**
 * The profile store: a write-through cache over the platform's key/value
 * storage, and the record updates built on it (nested shallow merge, high
 * score, coins, unlocked items).
 */
module Storage {
  import opened Common

  /** A JSON value; `JSON.stringify` followed by `JSON.parse` is taken as the identity. */
  datatype Json =
    | Null
    | Bool(b: bool)
    | Num(n: real)
    | Str(s: string)
    | Arr(items: seq<Json>)
    | Obj(fields: map<string, Json>)

  /** Property read `v.k`; a missing property (`undefined`) reads as `Null`. */
  function Get(v: Json, k: string): (r: Json)
    ensures !v.Obj? ==> r == Null
    ensures v.Obj? && k in v.fields ==> r == v.fields[k]
  {
    if v.Obj? && k in v.fields then v.fields[k] else Null
  }

  /** The own properties `{...v}` copies: those of an object, none for `null` or a scalar. */
  function Spread(v: Json): (m: map<string, Json>)
    ensures v.Obj? ==> m == v.fields
    ensures !v.Obj? ==> m == map[]
  {
    if v.Obj? then v.fields else map[]
  }

  /** The number at `v.k`, if there is one. */
  predicate HasNum(v: Json, k: string) {
    Get(v, k).Num?
  }

  const GAME_DATA_KEY := "gameData"

  /** The groups `updateGameData` merges one level deep instead of replacing. */
  const NESTED: set<string> := {"characterAppearance", "inventory", "settings", "statistics"}

  /** The record `getUserGameData` falls back on. */
  const DEFAULT_GAME_DATA: Json := Obj(map[
    "score" := Num(0.0),
    "coins" := Num(0.0),
    "highScore" := Num(0.0),
    "unlockedItems" := Arr([]),
    "characterAppearance" := Obj(map[
      "face" := Obj(map[
        "earrings" := Str("default"), "eyebrows" := Str("default"), "nose" := Str("default"),
        "chin" := Str("default"), "ears" := Str("default"), "mouth" := Str("default")]),
      "outfit" := Obj(map[
        "hat" := Str("default"), "top" := Str("default"), "bottom" := Str("default"),
        "shoes" := Str("default")])]),
    "inventory" := Obj(map["vehicles" := Arr([]), "weapons" := Arr([])]),
    "settings" := Obj(map["musicVolume" := Num(0.7), "soundVolume" := Num(1.0), "vibration" := Bool(true)]),
    "statistics" := Obj(map[
      "gamesPlayed" := Num(0.0), "totalScore" := Num(0.0), "totalCoins" := Num(0.0),
      "totalDistance" := Num(0.0), "totalEnemiesDefeated" := Num(0.0), "totalAdsWatched" := Num(0.0)])])

  /**
   * The value `{...current, ...updates, <group>: {...current.<group>, ...updates.<group>}}`
   * holds at key `k`: a nested group merges the two groups, any other key
   * takes the value from `updates` when it is there and from `current` otherwise.
   */
  function MergedValue(current: Json, updates: map<string, Json>, k: string): Json
  {
    if k in NESTED then Obj(Spread(Get(current, k)) + Spread(Get(Obj(updates), k)))
    else if k in updates then updates[k]
    else Get(current, k)
  }

  /** The record `updateGameData` saves. */
  function Merged(current: Json, updates: map<string, Json>): (r: Json)
    ensures r.Obj?
  {
    Obj(map k | k in Spread(current).Keys + updates.Keys + NESTED :: MergedValue(current, updates, k))
  }

  /** The merged record has the keys of both records and every nested group. */
  lemma MergedKeys(current: Json, updates: map<string, Json>)
    ensures Merged(current, updates).fields.Keys == Spread(current).Keys + updates.Keys + NESTED
  {
  }

  /**
   * Outside the nested groups a key of `updates` wins and every other key
   * keeps its value; inside a group the same holds one level down.
   */
  lemma MergedOverrides(current: Json, updates: map<string, Json>, k: string, j: string)
    ensures k !in NESTED && k in updates ==> Get(Merged(current, updates), k) == updates[k]
    ensures k !in NESTED && k !in updates ==> Get(Merged(current, updates), k) == Get(current, k)
    ensures k in NESTED ==>
      var group := Get(Merged(current, updates), k);
      group.Obj? &&
      (j in Spread(Get(Obj(updates), k)) ==> Get(group, j) == Get(Get(Obj(updates), k), j)) &&
      (j !in Spread(Get(Obj(updates), k)) ==> Get(group, j) == Get(Get(current, k), j))
  {
    assert Get(Merged(current, updates), k) == MergedValue(current, updates, k);
  }

  /** What `recordGameScore` reads: a high score and the two score statistics. */
  predicate ScoreShape(d: Json) {
    HasNum(d, "highScore") && Get(d, "statistics").Obj? &&
    HasNum(Get(d, "statistics"), "gamesPlayed") && HasNum(Get(d, "statistics"), "totalScore")
  }

  /** What `addCoins` reads: the coins and the coin statistic. */
  predicate CoinShape(d: Json) {
    HasNum(d, "coins") && Get(d, "statistics").Obj? && HasNum(Get(d, "statistics"), "totalCoins")
  }

  /** What `unlockItem` reads: the list of unlocked items. */
  predicate ItemShape(d: Json) {
    Get(d, "unlockedItems").Arr?
  }

  /** Every field the record operations read holds a value of the kind they expect. */
  predicate GameShape(d: Json) {
    d.Obj? && ScoreShape(d) && CoinShape(d) && ItemShape(d)
  }

  lemma DefaultHasGameShape()
    ensures GameShape(DEFAULT_GAME_DATA)
  {
    assert Get(DEFAULT_GAME_DATA, "statistics").Obj?;
  }

  /** The updates `recordGameScore` passes to `updateGameData`. */
  function ScoreUpdates(d: Json, score: real): map<string, Json>
    requires ScoreShape(d)
  {
    var stats := Get(d, "statistics");
    map[
      "score" := Num(score),
      "highScore" := Num(MaxReal(score, Get(d, "highScore").n)),
      "statistics" := Obj(Spread(stats)[
        "gamesPlayed" := Num(Get(stats, "gamesPlayed").n + 1.0)][
        "totalScore" := Num(Get(stats, "totalScore").n + score)])]
  }

  /**
   * `recordGameScore`: the score is stored, the high score is the larger of
   * the two, one more game and the score are counted, and every other
   * statistic and every other field keeps its value.
   */
  lemma ScoreRecorded(d: Json, score: real)
    requires d.Obj? && ScoreShape(d)
    ensures var r := Merged(d, ScoreUpdates(d, score));
            var stats, stats' := Get(d, "statistics"), Get(r, "statistics");
            Get(r, "score") == Num(score) &&
            Get(r, "highScore").Num? &&
            Get(r, "highScore").n >= score && Get(r, "highScore").n >= Get(d, "highScore").n &&
            (Get(r, "highScore").n == score || Get(r, "highScore") == Get(d, "highScore")) &&
            Get(stats', "gamesPlayed") == Num(Get(stats, "gamesPlayed").n + 1.0) &&
            Get(stats', "totalScore") == Num(Get(stats, "totalScore").n + score) &&
            (forall j :: j != "gamesPlayed" && j != "totalScore" ==> Get(stats', j) == Get(stats, j)) &&
            (forall k :: k !in NESTED && k != "score" && k != "highScore" ==> Get(r, k) == Get(d, k)) &&
            (forall g, j :: g in NESTED && g != "statistics" ==> Get(Get(r, g), j) == Get(Get(d, g), j))
  {
    var u := ScoreUpdates(d, score);
    var stats' := Get(Merged(d, u), "statistics");
    assert Get(Obj(u), "statistics") == u["statistics"];
    forall j | j != "gamesPlayed" && j != "totalScore"
      ensures Get(stats', j) == Get(Get(d, "statistics"), j)
    {
      MergedOverrides(d, u, "statistics", j);
    }
    forall k | k !in NESTED && k != "score" && k != "highScore"
      ensures Get(Merged(d, u), k) == Get(d, k)
    {
      MergedOverrides(d, u, k, "");
    }
    forall g, j | g in NESTED && g != "statistics"
      ensures Get(Get(Merged(d, u), g), j) == Get(Get(d, g), j)
    {
      MergedOverrides(d, u, g, j);
    }
    MergedOverrides(d, u, "statistics", "gamesPlayed");
    MergedOverrides(d, u, "statistics", "totalScore");
    MergedOverrides(d, u, "score", "");
    MergedOverrides(d, u, "highScore", "");
  }

  /** The updates `addCoins` passes to `updateGameData`. */
  function CoinUpdates(d: Json, amount: real): map<string, Json>
    requires CoinShape(d)
  {
    var stats := Get(d, "statistics");
    map[
      "coins" := Num(Get(d, "coins").n + amount),
      "statistics" := Obj(Spread(stats)["totalCoins" := Num(Get(stats, "totalCoins").n + amount)])]
  }

  /** `addCoins`: the amount is added both to the coins and to the coin statistic, and nothing else changes. */
  lemma CoinsAdded(d: Json, amount: real)
    requires d.Obj? && CoinShape(d)
    ensures var r := Merged(d, CoinUpdates(d, amount));
            var stats, stats' := Get(d, "statistics"), Get(r, "statistics");
            Get(r, "coins") == Num(Get(d, "coins").n + amount) &&
            Get(stats', "totalCoins") == Num(Get(stats, "totalCoins").n + amount) &&
            (forall j :: j != "totalCoins" ==> Get(stats', j) == Get(stats, j)) &&
            (forall k :: k !in NESTED && k != "coins" ==> Get(r, k) == Get(d, k)) &&
            (forall g, j :: g in NESTED && g != "statistics" ==> Get(Get(r, g), j) == Get(Get(d, g), j))
  {
    var u := CoinUpdates(d, amount);
    assert Get(Obj(u), "statistics") == u["statistics"];
    forall j | j != "totalCoins"
      ensures Get(Get(Merged(d, u), "statistics"), j) == Get(Get(d, "statistics"), j)
    {
      MergedOverrides(d, u, "statistics", j);
    }
    forall k | k !in NESTED && k != "coins"
      ensures Get(Merged(d, u), k) == Get(d, k)
    {
      MergedOverrides(d, u, k, "");
    }
    forall g, j | g in NESTED && g != "statistics"
      ensures Get(Get(Merged(d, u), g), j) == Get(Get(d, g), j)
    {
      MergedOverrides(d, u, g, j);
    }
    MergedOverrides(d, u, "statistics", "totalCoins");
    MergedOverrides(d, u, "coins", "");
  }

  /** `[...items, id]` unless `items.includes(id)`. */
  function WithItem(items: seq<Json>, id: string): (r: seq<Json>)
    ensures Str(id) in r
    ensures Str(id) in items ==> r == items
    ensures Str(id) !in items ==> r == items + [Str(id)]
  {
    if Str(id) in items then items else items + [Str(id)]
  }

  predicate NoDuplicates(items: seq<Json>) {
    forall i, j :: 0 <= i < j < |items| ==> items[i] != items[j]
  }

  /** Unlocking never creates a duplicate and never loses an item. */
  lemma WithItemKeepsDistinct(items: seq<Json>, id: string)
    requires NoDuplicates(items)
    ensures NoDuplicates(WithItem(items, id))
    ensures forall x :: x in items ==> x in WithItem(items, id)
  {
    if Str(id) !in items {
      var r := items + [Str(id)];
      forall i, j | 0 <= i < j < |r|
        ensures r[i] != r[j]
      {
        if j == |items| {
          assert r[i] == items[i];
        }
      }
    }
  }

  /** The updates `unlockItem` passes to `updateGameData`, when the item is new. */
  function UnlockUpdates(d: Json, id: string): map<string, Json>
    requires ItemShape(d)
  {
    map["unlockedItems" := Arr(WithItem(Get(d, "unlockedItems").items, id))]
  }

  /** A number outside the nested groups survives the merge, from `updates` or from `current`. */
  lemma MergedKeepsNum(d: Json, u: map<string, Json>, k: string)
    requires k !in NESTED && (if k in u then u[k].Num? else HasNum(d, k))
    ensures HasNum(Merged(d, u), k)
  {
    MergedOverrides(d, u, k, "");
  }

  /** A number inside a nested group survives the merge, from `updates` or from `current`. */
  lemma MergedKeepsGroupNum(d: Json, u: map<string, Json>, g: string, j: string)
    requires g in NESTED
    requires if j in Spread(Get(Obj(u), g)) then HasNum(Get(Obj(u), g), j) else HasNum(Get(d, g), j)
    ensures Get(Merged(d, u), g).Obj? && HasNum(Get(Merged(d, u), g), j)
  {
    MergedOverrides(d, u, g, j);
  }

  /** A value in `updates` for a field the record operations read is of the kind they expect. */
  predicate KeepsShape(u: map<string, Json>) {
    var stats := Get(Obj(u), "statistics");
    ("highScore" in u ==> u["highScore"].Num?) &&
    ("coins" in u ==> u["coins"].Num?) &&
    ("unlockedItems" in u ==> u["unlockedItems"].Arr?) &&
    ("gamesPlayed" in Spread(stats) ==> HasNum(stats, "gamesPlayed")) &&
    ("totalScore" in Spread(stats) ==> HasNum(stats, "totalScore")) &&
    ("totalCoins" in Spread(stats) ==> HasNum(stats, "totalCoins"))
  }

  /** Merging such updates into a record of the expected shape keeps that shape. */
  lemma MergedKeepsGameShape(d: Json, u: map<string, Json>)
    requires GameShape(d) && KeepsShape(u)
    ensures GameShape(Merged(d, u))
  {
    var r := Merged(d, u);
    assert HasNum(r, "highScore") by { MergedKeepsNum(d, u, "highScore"); }
    assert HasNum(r, "coins") by { MergedKeepsNum(d, u, "coins"); }
    assert ItemShape(r) by { MergedOverrides(d, u, "unlockedItems", ""); }
    assert HasNum(Get(r, "statistics"), "gamesPlayed") by {
      MergedKeepsGroupNum(d, u, "statistics", "gamesPlayed");
    }
    assert HasNum(Get(r, "statistics"), "totalScore") by {
      MergedKeepsGroupNum(d, u, "statistics", "totalScore");
    }
    assert HasNum(Get(r, "statistics"), "totalCoins") by {
      MergedKeepsGroupNum(d, u, "statistics", "totalCoins");
    }
  }

  /**
   * The record operations keep the fields they read of the kind they expect,
   * so once the stored record has that shape every later operation finds it.
   */
  lemma UpdatesKeepShape(d: Json, score: real, amount: real, id: string)
    requires GameShape(d)
    ensures KeepsShape(ScoreUpdates(d, score))
    ensures KeepsShape(CoinUpdates(d, amount))
    ensures KeepsShape(UnlockUpdates(d, id))
  {
    var s, c := ScoreUpdates(d, score), CoinUpdates(d, amount);
    assert Get(Obj(s), "statistics") == s["statistics"];
    assert Get(Obj(c), "statistics") == c["statistics"];
  }

  /** How an asynchronous record operation settles. */
  datatype Outcome = Resolved(saved: bool) | Rejected

  class StorageManager {
    /** The `cache` Map. */
    var cache: map<string, Json>
    /** The platform key/value storage. */
    var store: map<string, Json>

    /** Every cached entry is the stored one. */
    ghost predicate Valid()
      reads this
    {
      forall k :: k in cache ==> k in store && cache[k] == store[k]
    }

    /** The stored record under `gameData`, if any, has the shape the record operations read. */
    ghost predicate GameDataShaped()
      reads this
    {
      GAME_DATA_KEY in store ==> GameShape(store[GAME_DATA_KEY])
    }

    /** What `load(key, fallback)` yields when a storage read succeeds exactly if `ok`. */
    function Fetched(key: string, fallback: Json, ok: bool): Json
      reads this
    {
      if key in cache then cache[key]
      else if ok && key in store then store[key]
      else fallback
    }

    /** `key` is in the cache once `load(key)` ran with a storage read that succeeds exactly if `ok`. */
    predicate CachedAfterLoad(key: string, ok: bool)
      reads this
    {
      key in cache || (ok && key in store)
    }

    constructor(stored: map<string, Json>)
      ensures cache == map[] && store == stored && Valid()
    {
      cache := map[];
      store := stored;
    }

    /** `save`: the cache is updated only after the storage write succeeded. */
    method Save(key: string, data: Json, ok: bool) returns (r: bool)
      requires Valid()
      modifies this
      ensures Valid() && r == ok
      ensures ok ==> store == old(store)[key := data] && cache == old(cache)[key := data]
      ensures !ok ==> store == old(store) && cache == old(cache)
    {
      if ok {
        store := store[key := data];
        cache := cache[key := data];
        return true;
      }
      return false;
    }

    /**
     * `load`: a cached key is answered from the cache; otherwise a successful
     * read is cached and returned, and a failed one yields the fallback.
     * Thanks to `Valid`, the cache is invisible: what is returned is the
     * stored value whenever one is reachable.
     */
    method Load(key: string, fallback: Json, ok: bool) returns (v: Json)
      requires Valid()
      modifies this`cache
      ensures Valid()
      ensures v == old(Fetched(key, fallback, ok))
      ensures v == if key in store && (key in old(cache) || ok) then store[key] else fallback
      ensures key in old(cache) || !ok || key !in store ==> cache == old(cache)
      ensures key !in old(cache) && ok && key in store ==> cache == old(cache)[key := store[key]]
      ensures Fetched(key, fallback, ok) == v
    {
      if key in cache {
        return cache[key];
      }
      if ok && key in store {
        v := store[key];
        cache := cache[key := v];
      } else {
        v := fallback;
      }
    }

    /** `remove`: the cached entry goes only after the storage entry did. */
    method Remove(key: string, ok: bool) returns (r: bool)
      requires Valid()
      modifies this
      ensures Valid() && r == ok
      ensures ok ==> store == old(store) - {key} && cache == old(cache) - {key}
      ensures !ok ==> store == old(store) && cache == old(cache)
    {
      if ok {
        store := store - {key};
        cache := cache - {key};
        return true;
      }
      return false;
    }

    /** `clear`: the cache is emptied only after the storage was. */
    method Clear(ok: bool) returns (r: bool)
      requires Valid()
      modifies this
      ensures Valid() && r == ok
      ensures ok ==> store == map[] && cache == map[]
      ensures !ok ==> store == old(store) && cache == old(cache)
    {
      if ok {
        store := map[];
        cache := map[];
        return true;
      }
      return false;
    }

    /** `getUserGameData`: the stored record, or the default one. */
    method GetUserGameData(ok: bool) returns (d: Json)
      requires Valid()
      modifies this`cache
      ensures Valid()
      ensures d == old(Fetched(GAME_DATA_KEY, DEFAULT_GAME_DATA, ok))
      ensures Fetched(GAME_DATA_KEY, DEFAULT_GAME_DATA, ok) == d
      ensures GameDataShaped() == old(GameDataShaped())
      ensures GameDataShaped() ==> GameShape(d)
      ensures old(CachedAfterLoad(GAME_DATA_KEY, ok)) && GAME_DATA_KEY !in old(cache) ==>
                cache == old(cache)[GAME_DATA_KEY := store[GAME_DATA_KEY]]
      ensures !old(CachedAfterLoad(GAME_DATA_KEY, ok)) || GAME_DATA_KEY in old(cache) ==> cache == old(cache)
    {
      DefaultHasGameShape();
      d := Load(GAME_DATA_KEY, DEFAULT_GAME_DATA, ok);
    }

    /**
     * `updateGameData`: merge `updates` into the current record and save it.
     * Reading a group of a `null` record throws, so the call rejects.
     */
    method UpdateGameData(updates: map<string, Json>, loadOk: bool, saveOk: bool) returns (r: Outcome)
      requires Valid()
      modifies this
      ensures Valid()
      ensures var current := old(Fetched(GAME_DATA_KEY, DEFAULT_GAME_DATA, loadOk));
              if current.Null? then r == Rejected && store == old(store)
              else r == Resolved(saveOk) &&
                   store == if saveOk then old(store)[GAME_DATA_KEY := Merged(current, updates)] else old(store)
      ensures cache - {GAME_DATA_KEY} == old(cache) - {GAME_DATA_KEY}
      ensures GAME_DATA_KEY in cache <==> old(CachedAfterLoad(GAME_DATA_KEY, loadOk)) || r == Resolved(true)
    {
      var current := GetUserGameData(loadOk);
      if current.Null? {
        return Rejected;
      }
      var saved := Save(GAME_DATA_KEY, Merged(current, updates), saveOk);
      r := Resolved(saved);
    }

    /** `recordGameScore`; the stored record keeps its shape. */
    method RecordGameScore(score: real, loadOk: bool, saveOk: bool) returns (r: Outcome)
      requires Valid() && GameDataShaped()
      modifies this
      ensures Valid() && GameDataShaped() && r == Resolved(saveOk)
      ensures var current := old(Fetched(GAME_DATA_KEY, DEFAULT_GAME_DATA, loadOk));
              store == if saveOk then old(store)[GAME_DATA_KEY := Merged(current, ScoreUpdates(current, score))]
                       else old(store)
      ensures cache - {GAME_DATA_KEY} == old(cache) - {GAME_DATA_KEY}
      ensures GAME_DATA_KEY in cache <==> old(CachedAfterLoad(GAME_DATA_KEY, loadOk)) || saveOk
    {
      var data := GetUserGameData(loadOk);
      UpdatesKeepShape(data, score, 0.0, "");
      MergedKeepsGameShape(data, ScoreUpdates(data, score));
      r := UpdateGameData(ScoreUpdates(data, score), loadOk, saveOk);
    }

    /** `addCoins`; the stored record keeps its shape. */
    method AddCoins(amount: real, loadOk: bool, saveOk: bool) returns (r: Outcome)
      requires Valid() && GameDataShaped()
      modifies this
      ensures Valid() && GameDataShaped() && r == Resolved(saveOk)
      ensures var current := old(Fetched(GAME_DATA_KEY, DEFAULT_GAME_DATA, loadOk));
              store == if saveOk then old(store)[GAME_DATA_KEY := Merged(current, CoinUpdates(current, amount))]
                       else old(store)
      ensures cache - {GAME_DATA_KEY} == old(cache) - {GAME_DATA_KEY}
      ensures GAME_DATA_KEY in cache <==> old(CachedAfterLoad(GAME_DATA_KEY, loadOk)) || saveOk
    {
      var data := GetUserGameData(loadOk);
      UpdatesKeepShape(data, 0.0, amount, "");
      MergedKeepsGameShape(data, CoinUpdates(data, amount));
      r := UpdateGameData(CoinUpdates(data, amount), loadOk, saveOk);
    }

    /** `unlockItem`: an item already unlocked is not written again. */
    method UnlockItem(id: string, loadOk: bool, saveOk: bool) returns (r: Outcome)
      requires Valid() && GameDataShaped()
      modifies this
      ensures Valid() && GameDataShaped()
      ensures var current := old(Fetched(GAME_DATA_KEY, DEFAULT_GAME_DATA, loadOk));
              var items := Get(current, "unlockedItems").items;
              if Str(id) in items then r == Resolved(true) && store == old(store)
              else r == Resolved(saveOk) &&
                   store == if saveOk then old(store)[GAME_DATA_KEY := Merged(current, UnlockUpdates(current, id))]
                            else old(store)
      ensures cache - {GAME_DATA_KEY} == old(cache) - {GAME_DATA_KEY}
      ensures GAME_DATA_KEY in cache <==>
                old(CachedAfterLoad(GAME_DATA_KEY, loadOk)) ||
                (saveOk && Str(id) !in Get(old(Fetched(GAME_DATA_KEY, DEFAULT_GAME_DATA, loadOk)), "unlockedItems").items)
    {
      var data := GetUserGameData(loadOk);
      if Str(id) in Get(data, "unlockedItems").items {
        return Resolved(true);
      }
      UpdatesKeepShape(data, 0.0, 0.0, id);
      MergedKeepsGameShape(data, UnlockUpdates(data, id));
      r := UpdateGameData(UnlockUpdates(data, id), loadOk, saveOk);
    }
  }
}
