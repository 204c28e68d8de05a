/** The player profile (`User`) and the key/value store it is kept in.

    The store is `localforage`: every call on it is asynchronous. The model
    runs each asynchronous chain as a sequence of steps and keeps the one
    ordering the code enforces: in `_init`, the options are patched once,
    after every read has completed. */
module UserModel {
  import opened Js

  /** `User.DEFAULT_OPTIONS`, in declaration order. */
  const DefaultKeys: seq<string> :=
    ["created", "latestStage", "latestLevel", "lives", "lastDeath", "lastRecharge"]

  const DefaultOptions: map<string, Value> :=
    map["created" := Str(""), "latestStage" := Num(1), "latestLevel" := Num(1),
        "lives" := Num(5), "lastDeath" := Str(""), "lastRecharge" := Str("")]

  /** The pair returned by `getLatestLevel`. */
  datatype LatestLevel = LatestLevel(stage: Value, level: Value)

  /** `getItem` on the store: a key never written reads as `null`. */
  function StoreGet(store: map<string, Value>, key: string): (v: Value)
    ensures key in store ==> v == store[key]
    ensures key !in store ==> v == Null
  {
    if key in store then store[key] else Null
  }

  /** Options of a freshly constructed `User`: defaults laid down, the
      argument patched in, then the defaults copied over everything again. */
  function ConstructedOptions(arg: map<string, Value>): (r: map<string, Value>)
    ensures r.Keys == DefaultOptions.Keys + arg.Keys
    ensures forall k :: k in DefaultOptions ==> r[k] == DefaultOptions[k]
    ensures forall k :: k in arg && k !in DefaultOptions ==> r[k] == arg[k]
  {
    Patch(Patch(DefaultOptions, arg), DefaultOptions)
  }

  /** The `options` dictionary that `_init` fills from one read per key. */
  function Fetched(store: map<string, Value>, keys: seq<string>): (r: map<string, Value>)
    ensures r.Keys == set k | k in keys
    ensures forall k :: k in r ==> r[k] == StoreGet(store, k)
  {
    map k | k in keys :: StoreGet(store, k)
  }

  /** The new-user branch of `_init`: `created` is stamped when it is falsy. */
  function Stamped(opts: map<string, Value>, now: int): (r: map<string, Value>)
    ensures r.Keys == opts.Keys + {"created"}
    ensures Truthy(Prop(opts, "created")) ==> r == opts
    ensures !Truthy(Prop(opts, "created")) ==> r["created"] == Num(now)
    ensures forall k :: k in opts && k != "created" ==> r[k] == opts[k]
  {
    if Truthy(Prop(opts, "created")) then opts else opts["created" := Num(now)]
  }

  predicate IsExisting(store: map<string, Value>)
  {
    Truthy(StoreGet(store, "created"))
  }

  /** In-memory options once `_init` has completed. */
  function InitOptions(opts: map<string, Value>, store: map<string, Value>, now: int): map<string, Value>
  {
    if IsExisting(store) then Patch(opts, Fetched(store, DefaultKeys)) else Stamped(opts, now)
  }

  /** Store contents once `_init` has completed. */
  function InitStore(opts: map<string, Value>, store: map<string, Value>, now: int): map<string, Value>
  {
    if IsExisting(store) then store else store + Stamped(opts, now)
  }

  /** Keys `_init` reads, in the order it issues the reads. */
  function InitReads(store: map<string, Value>): (r: seq<string>)
    ensures |r| >= 1 && r[0] == "created"
    ensures IsExisting(store) ==> r[1..] == DefaultKeys
    ensures !IsExisting(store) ==> r == ["created"]
  {
    if IsExisting(store) then ["created"] + DefaultKeys else ["created"]
  }

  /** The patch `setLatestLevel` applies and saves. */
  function LatestPatch(stage: Value, level: Value): (p: map<string, Value>)
    ensures p.Keys == {"latestStage", "latestLevel"}
    ensures p["latestStage"] == stage && p["latestLevel"] == level
  {
    map["latestStage" := stage, "latestLevel" := level]
  }

  /** What `getLatestLevel` reads from a set of options. */
  function LatestLevelOf(opts: map<string, Value>): LatestLevel
  {
    LatestLevel(Prop(opts, "latestStage"), Prop(opts, "latestLevel"))
  }

  /** The `localforage` store: its contents, the keys read (in order) and the
      writes issued. Writes are independent promises, so they are kept as a
      multiset: nothing orders one key's write after another's. */
  class Store {
    var data: map<string, Value>
    var readLog: seq<string>
    var writeLog: multiset<(string, Value)>

    constructor (initial: map<string, Value>)
      ensures data == initial && readLog == [] && writeLog == multiset{}
    {
      data := initial;
      readLog := [];
      writeLog := multiset{};
    }

    /** `getItem(key)` */
    method GetItem(key: string) returns (v: Value)
      modifies this
      ensures v == StoreGet(old(data), key)
      ensures data == old(data) && writeLog == old(writeLog)
      ensures readLog == old(readLog) + [key]
    {
      v := StoreGet(data, key);
      readLog := readLog + [key];
    }

    /** `setItem(key, v)` */
    method SetItem(key: string, v: Value)
      modifies this
      ensures data == old(data)[key := v]
      ensures readLog == old(readLog)
      ensures writeLog == old(writeLog) + multiset{(key, v)}
    {
      data := data[key := v];
      writeLog := writeLog + multiset{(key, v)};
    }
  }

  class User {
    var options: map<string, Value>
    /** The module-level `localforage` handle. */
    const db: Store

    /** Every default key always has an entry; nothing removes keys. */
    ghost predicate Valid()
      reads this
    {
      DefaultOptions.Keys <= options.Keys
    }

    /** The synchronous part of `new User(arg)`; the call to `_init` it ends
        with only schedules work and is the separate method `Init`. An absent
        argument is the empty map. */
    constructor (arg: map<string, Value>, db: Store)
      ensures Valid()
      ensures this.db == db
      ensures options == ConstructedOptions(arg)
    {
      this.db := db;
      options := DefaultOptions;
      new;
      SetOptions(arg);
      options := Patch(options, DefaultOptions);
    }

    /** `getOptions`: the live option set. */
    function GetOptions(): (r: map<string, Value>)
      reads this
      requires Valid()
      ensures DefaultOptions.Keys <= r.Keys
      ensures r.Keys == options.Keys
      ensures forall k :: k in options ==> k in r && r[k] == options[k]
    {
      options
    }

    /** `setOptions`: key-wise overwrite of the live options. */
    method SetOptions(p: map<string, Value>)
      modifies this
      ensures options == Patch(old(options), p)
      ensures old(Valid()) ==> Valid()
    {
      options := Patch(options, p);
    }

    /** `getLatestLevel`: a read-only projection of two options. */
    function GetLatestLevel(): (r: LatestLevel)
      reads this
      requires Valid()
      ensures r.stage == options["latestStage"] && r.level == options["latestLevel"]
    {
      LatestLevelOf(options)
    }

    /** `save(data)`: one independent write per key; options are untouched. */
    method Save(data: map<string, Value>)
      modifies db
      ensures db.data == old(db.data) + data
      ensures db.readLog == old(db.readLog)
      ensures db.writeLog == old(db.writeLog) + multiset(data.Items)
    {
      ghost var done: set<string> := {};
      var remaining := data.Keys;
      while remaining != {}
        invariant done <= data.Keys
        invariant forall j :: j in data ==> (j in remaining <==> j !in done)
        invariant remaining <= data.Keys
        invariant db.data == old(db.data) + Written(data, done)
        invariant db.readLog == old(db.readLog)
        invariant db.writeLog == old(db.writeLog) + multiset(Written(data, done).Items)
        decreases remaining
      {
        var k :| k in remaining;
        WrittenGrows(old(db.data), data, done, k);
        db.SetItem(k, data[k]);
        remaining := remaining - {k};
        done := done + {k};
      }
      assert done == data.Keys;
      WrittenAll(data);
    }

    /** `setLatestLevel(stage, level)`: patch memory, then save the same two keys. */
    method SetLatestLevel(stage: Value, level: Value)
      requires Valid()
      modifies this, db
      ensures Valid()
      ensures options == Patch(old(options), LatestPatch(stage, level))
      ensures GetLatestLevel() == LatestLevel(stage, level)
      ensures forall k :: k in old(options) && k !in {"latestStage", "latestLevel"} ==> options[k] == old(options)[k]
      ensures db.data == old(db.data) + LatestPatch(stage, level)
      ensures db.readLog == old(db.readLog)
      ensures db.writeLog == old(db.writeLog) + multiset{("latestStage", stage), ("latestLevel", level)}
    {
      var p := LatestPatch(stage, level);
      SetOptions(p);
      Save(p);
      LatestPatchItems(stage, level);
    }

    /** `_init`: read `created`; for an existing user read every default key
        and patch all of them at once after the last read; for a new user
        stamp `created` if it is falsy and save every option. `now` stands
        for `Date.now()`. */
    method Init(now: int)
      requires Valid()
      modifies this, db
      ensures Valid()
      ensures options == InitOptions(old(options), old(db.data), now)
      ensures db.data == InitStore(old(options), old(db.data), now)
      ensures db.readLog == old(db.readLog) + InitReads(old(db.data))
      ensures !IsExisting(old(db.data)) ==>
                db.writeLog == old(db.writeLog) + multiset(Stamped(old(options), now).Items)
      ensures IsExisting(old(db.data)) ==> db.writeLog == old(db.writeLog)
    {
      var created := db.GetItem("created");
      if Truthy(created) {
        LoadExisting();
      } else {
        CreateNew(now);
      }
    }

    /** The existing-user branch of `_init`: one read per default key; the
        options stay untouched until every read is done, then one patch. */
    method LoadExisting()
      requires Valid()
      modifies this, db
      ensures Valid()
      ensures options == Patch(old(options), Fetched(old(db.data), DefaultKeys))
      ensures db.data == old(db.data) && db.writeLog == old(db.writeLog)
      ensures db.readLog == old(db.readLog) + DefaultKeys
    {
      var fetched: map<string, Value> := map[];
      for i := 0 to |DefaultKeys|
        invariant options == old(options)
        invariant db.data == old(db.data) && db.writeLog == old(db.writeLog)
        invariant db.readLog == old(db.readLog) + DefaultKeys[..i]
        invariant fetched == Fetched(db.data, DefaultKeys[..i])
      {
        var v := db.GetItem(DefaultKeys[i]);
        FetchedGrows(db.data, DefaultKeys[..i], DefaultKeys[i]);
        assert DefaultKeys[..i + 1] == DefaultKeys[..i] + [DefaultKeys[i]];
        fetched := fetched[DefaultKeys[i] := v];
      }
      assert DefaultKeys[..|DefaultKeys|] == DefaultKeys;
      SetOptions(fetched);
    }

    /** The new-user branch of `_init`. */
    method CreateNew(now: int)
      requires Valid()
      modifies this, db
      ensures Valid()
      ensures options == Stamped(old(options), now)
      ensures db.data == old(db.data) + Stamped(old(options), now)
      ensures db.readLog == old(db.readLog)
      ensures db.writeLog == old(db.writeLog) + multiset(Stamped(old(options), now).Items)
    {
      if !Truthy(Prop(options, "created")) {
        options := options["created" := Num(now)];
      }
      Save(options);
    }
  }

  /** The part of `data` whose writes have been issued. */
  function Written(data: map<string, Value>, done: set<string>): (r: map<string, Value>)
    requires done <= data.Keys
    ensures r.Keys == done
    ensures forall k :: k in done ==> r[k] == data[k]
  {
    map k | k in done :: data[k]
  }

  /** Issuing the write of one more key adds exactly that key's pair. */
  lemma WrittenGrows(base: map<string, Value>, data: map<string, Value>, done: set<string>, k: string)
    requires done <= data.Keys && k in data && k !in done
    ensures base + Written(data, done + {k}) == (base + Written(data, done))[k := data[k]]
    ensures multiset(Written(data, done + {k}).Items)
         == multiset(Written(data, done).Items) + multiset{(k, data[k])}
  {
    var before, after := Written(data, done), Written(data, done + {k});
    assert after == before[k := data[k]];
    forall x | x in after.Items ensures x in before.Items + {(k, data[k])} {
      assert x.0 in after;
    }
    forall x | x in before.Items ensures x in after.Items {
      assert x.0 in before;
    }
    assert after.Items == before.Items + {(k, data[k])};
    assert (k, data[k]) !in before.Items;
  }

  lemma WrittenAll(data: map<string, Value>)
    ensures Written(data, data.Keys) == data
  {
  }

  /** One more read extends the fetched dictionary by that key. */
  lemma FetchedGrows(store: map<string, Value>, keys: seq<string>, k: string)
    ensures Fetched(store, keys + [k]) == Fetched(store, keys)[k := StoreGet(store, k)]
  {
    assert (set j | j in keys + [k]) == (set j | j in keys) + {k};
  }

  lemma LatestPatchItems(stage: Value, level: Value)
    ensures LatestPatch(stage, level).Items == {("latestStage", stage), ("latestLevel", level)}
  {
    var p := LatestPatch(stage, level);
    forall x | x in p.Items ensures x == ("latestStage", stage) || x == ("latestLevel", level) {
      assert x.0 in p.Keys;
    }
    assert ("latestStage", stage) in p.Items;
    assert ("latestLevel", level) in p.Items;
  }

  // ----- Properties of the profile -----

  /** A just-constructed profile reconciled against a store with no truthy
      `created`: `created` is the timestamp (the default `''` is falsy, so a
      fresh profile is always stamped), every other default key keeps its
      default, and every option is written to the store. */
  lemma FreshProfileIsStamped(arg: map<string, Value>, store: map<string, Value>, now: int)
    requires !IsExisting(store)
    ensures InitOptions(ConstructedOptions(arg), store, now)["created"] == Num(now)
    ensures forall k :: k in DefaultOptions && k != "created" ==>
              InitOptions(ConstructedOptions(arg), store, now)[k] == DefaultOptions[k]
    ensures forall k :: k in InitOptions(ConstructedOptions(arg), store, now) ==>
              InitStore(ConstructedOptions(arg), store, now)[k] == InitOptions(ConstructedOptions(arg), store, now)[k]
  {
    var opts := ConstructedOptions(arg);
    assert Prop(opts, "created") == Str("");
  }

  /** The keys `_init` reads are exactly the default keys. */
  lemma DefaultKeysAreDefaultOptions()
    ensures (set k | k in DefaultKeys) == DefaultOptions.Keys
  {
  }

  /** Reconciling against a store whose `created` is truthy: every default
      key takes whatever its read returned (`null` when the key is missing:
      nothing is filtered), other keys are untouched, the store is unchanged. */
  lemma ExistingProfileIsLoaded(opts: map<string, Value>, store: map<string, Value>, now: int)
    requires IsExisting(store)
    ensures InitStore(opts, store, now) == store
    ensures forall k :: k in DefaultOptions ==> InitOptions(opts, store, now)[k] == StoreGet(store, k)
    ensures forall k :: k in opts && k !in DefaultOptions ==> InitOptions(opts, store, now)[k] == opts[k]
    ensures InitOptions(opts, store, now).Keys == opts.Keys + DefaultOptions.Keys
  {
    DefaultKeysAreDefaultOptions();
  }

  /** A stored profile without `lives` loads with `lives` set to `null`,
      not to its default 5. */
  lemma MissingStoredKeyBecomesNull(opts: map<string, Value>, store: map<string, Value>, now: int)
    requires IsExisting(store) && "lives" !in store
    ensures InitOptions(opts, store, now)["lives"] == Null
    ensures InitOptions(opts, store, now)["lives"] != DefaultOptions["lives"]
  {
    ExistingProfileIsLoaded(opts, store, now);
  }

  /** Reconcile a profile, then start a new process on the resulting store:
      the reloaded profile agrees with the first on every default key.
      The first timestamp must be nonzero: a `created` of 0 is falsy, so the
      reload would take the new-user branch again; `Date.now()` is never 0. */
  lemma ReloadReproducesProfile(arg1: map<string, Value>, arg2: map<string, Value>,
                                store: map<string, Value>, now1: int, now2: int)
    requires now1 != 0
    ensures var first := InitOptions(ConstructedOptions(arg1), store, now1);
            var saved := InitStore(ConstructedOptions(arg1), store, now1);
            var second := InitOptions(ConstructedOptions(arg2), saved, now2);
            forall k :: k in DefaultOptions ==> second[k] == first[k]
  {
    var opts1 := ConstructedOptions(arg1);
    var first := InitOptions(opts1, store, now1);
    var saved := InitStore(opts1, store, now1);
    if IsExisting(store) {
      ExistingProfileIsLoaded(opts1, store, now1);
      ExistingProfileIsLoaded(ConstructedOptions(arg2), saved, now2);
    } else {
      FreshProfileIsStamped(arg1, store, now1);
      assert StoreGet(saved, "created") == Num(now1);
      ExistingProfileIsLoaded(ConstructedOptions(arg2), saved, now2);
      assert forall k :: k in DefaultOptions ==> k in first;
    }
  }

  /** `setLatestLevel` on an existing profile survives a restart: once its
      writes have landed, a freshly reconciled profile reads the same pair. */
  lemma ProgressSurvivesReload(store: map<string, Value>, stage: Value, level: Value,
                               arg: map<string, Value>, now: int)
    requires IsExisting(store)
    ensures LatestLevelOf(InitOptions(ConstructedOptions(arg), store + LatestPatch(stage, level), now))
            == LatestLevel(stage, level)
  {
    var saved := store + LatestPatch(stage, level);
    assert StoreGet(saved, "created") == StoreGet(store, "created");
    ExistingProfileIsLoaded(ConstructedOptions(arg), saved, now);
  }
}
