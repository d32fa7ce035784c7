/**
  The lease service as the program keeps it: a token map and a kind-key index per epoch, with
  per-epoch and global counters, all updated in place.  Each method moves the ledger exactly as the
  function of the same name in `Leases` says.
*/
module LeaseServices {
  import opened Prelude
  import L = Leases
  import opened Leases

  datatype Entry = Entry(key: Key, kind: Kind, tokenId: TokenId)

  datatype EpochState = EpochState(activeCount: int, livePtyCount: int, tokens: map<TokenId, Entry>,
                                   byKindKey: map<Key, Entry>, reconciledRid: Option<Rid>)

  const EMPTY := EpochState(0, 0, map[], map[], None)

  function KindIn(m: LeaseMap, ek: EpochKey, k: Kind): set<Key> {
    set key | key in m && EpochOf(key) == ek && key.kind == k
  }

  // The two indexes of an epoch are inverse to each other, and to the ledger's leases in that epoch.
  ghost predicate Indexed(m: LeaseMap, ek: EpochKey, es: EpochState) {
    && (forall t :: t in es.tokens ==>
          && es.tokens[t].tokenId == t
          && es.tokens[t].key in es.byKindKey
          && es.byKindKey[es.tokens[t].key] == es.tokens[t])
    && (forall key :: key in es.byKindKey ==>
          && es.byKindKey[key].key == key && es.byKindKey[key].kind == key.kind
          && EpochOf(key) == ek && key in m && m[key] == es.byKindKey[key].tokenId
          && es.byKindKey[key].tokenId in es.tokens
          && es.tokens[es.byKindKey[key].tokenId] == es.byKindKey[key])
    && (forall key :: key in m && EpochOf(key) == ek ==> key in es.byKindKey)
  }

  ghost predicate Counted(m: LeaseMap, ek: EpochKey, es: EpochState) {
    es.activeCount == |KindIn(m, ek, Active)| && es.livePtyCount == |KindIn(m, ek, Live)|
  }

  ghost predicate Row(m: LeaseMap, ek: EpochKey, es: EpochState) {
    Indexed(m, ek, es) && Counted(m, ek, es)
  }

  type EpochTable = map<EpochKey, EpochState>

  // The whole concrete state stands for the ledger `l`.
  ghost predicate Represents(epochs: EpochTable, globalActive: int, globalLive: int, l: Ledger) {
    && l.epochs == epochs.Keys
    && l.reconciled.Keys <= epochs.Keys
    && (forall ek :: ek in epochs ==> Row(l.leases, ek, epochs[ek]))
    && (forall ek :: ek in epochs ==> Lookup(l.reconciled, ek) == epochs[ek].reconciledRid)
    && globalActive == Count(l, Active)
    && globalLive == Count(l, Live)
  }

  function WithToken(es: EpochState, entry: Entry): EpochState {
    var es1 := es.(tokens := es.tokens[entry.tokenId := entry], byKindKey := es.byKindKey[entry.key := entry]);
    if entry.kind == Active then es1.(activeCount := es.activeCount + 1)
    else es1.(livePtyCount := es.livePtyCount + 1)
  }

  function WithoutToken(es: EpochState, entry: Entry): EpochState {
    var es1 := es.(tokens := es.tokens - {entry.tokenId}, byKindKey := es.byKindKey - {entry.key});
    if entry.kind == Active then es1.(activeCount := es.activeCount - 1)
    else es1.(livePtyCount := es.livePtyCount - 1)
  }

  lemma IndexedAdd(m: LeaseMap, e: EpochKey, es: EpochState, key: Key, t: TokenId)
    requires Indexed(m, e, es) && key !in m
    requires e == EpochOf(key) ==> t !in es.tokens
    ensures Indexed(m[key := t], e, if e == EpochOf(key) then WithToken(es, Entry(key, key.kind, t)) else es)
  {
  }

  lemma KindInAdd(m: LeaseMap, e: EpochKey, k: Kind, key: Key, t: TokenId)
    requires key !in m
    ensures |KindIn(m[key := t], e, k)| == |KindIn(m, e, k)| + (if e == EpochOf(key) && k == key.kind then 1 else 0)
  {
    var added := if e == EpochOf(key) && k == key.kind then {key} else {};
    assert KindIn(m[key := t], e, k) == KindIn(m, e, k) + added;
  }

  lemma KindInRemove(m: LeaseMap, e: EpochKey, k: Kind, key: Key)
    requires key in m
    ensures |KindIn(m - {key}, e, k)| == |KindIn(m, e, k)| - (if e == EpochOf(key) && k == key.kind then 1 else 0)
  {
    var removed := if e == EpochOf(key) && k == key.kind then {key} else {};
    assert removed <= KindIn(m, e, k);
    assert KindIn(m - {key}, e, k) == KindIn(m, e, k) - removed;
  }

  lemma CountedAdd(m: LeaseMap, e: EpochKey, es: EpochState, key: Key, t: TokenId)
    requires Counted(m, e, es) && key !in m
    ensures Counted(m[key := t], e, if e == EpochOf(key) then WithToken(es, Entry(key, key.kind, t)) else es)
  {
    hide KindIn, EpochOf;
    KindInAdd(m, e, Active, key, t);
    KindInAdd(m, e, Live, key, t);
  }

  lemma IndexedRemove(m: LeaseMap, e: EpochKey, es: EpochState, key: Key, t: TokenId)
    requires Indexed(m, e, es) && key in m
    requires e == EpochOf(key) ==> t in es.tokens && es.tokens[t].key == key
    ensures Indexed(m - {key}, e, if e == EpochOf(key) then WithoutToken(es, es.tokens[t]) else es)
  {
  }

  lemma CountedRemove(m: LeaseMap, e: EpochKey, es: EpochState, entry: Entry)
    requires Counted(m, e, es) && entry.key in m && entry.kind == entry.key.kind
    ensures Counted(m - {entry.key}, e, if e == EpochOf(entry.key) then WithoutToken(es, entry) else es)
  {
    hide KindIn, EpochOf;
    KindInRemove(m, e, Active, entry.key);
    KindInRemove(m, e, Live, entry.key);
  }

  lemma AddRow(m: LeaseMap, e: EpochKey, es: EpochState, key: Key, t: TokenId)
    requires Row(m, e, es) && key !in m
    requires e == EpochOf(key) ==> t !in es.tokens
    ensures Row(m[key := t], e, if e == EpochOf(key) then WithToken(es, Entry(key, key.kind, t)) else es)
  {
    hide Indexed, Counted;
    IndexedAdd(m, e, es, key, t);
    CountedAdd(m, e, es, key, t);
  }

  lemma RemoveRow(m: LeaseMap, e: EpochKey, es: EpochState, key: Key, t: TokenId, entry: Entry)
    requires Row(m, e, es) && key in m && entry.key == key && entry.kind == key.kind
    requires e == EpochOf(key) ==> t in es.tokens && es.tokens[t] == entry
    ensures Row(m - {key}, e, if e == EpochOf(key) then WithoutToken(es, entry) else es)
  {
    hide Indexed, Counted;
    IndexedRemove(m, e, es, key, t);
    CountedRemove(m, e, es, entry);
  }

  lemma AddRepresents(epochs: EpochTable, ga: int, gl: int, l: Ledger, key: Key, t: TokenId)
    requires Represents(epochs, ga, gl, l)
    requires EpochOf(key) in epochs && key !in l.leases && t !in epochs[EpochOf(key)].tokens
    ensures var ek := EpochOf(key);
      Represents(epochs[ek := WithToken(epochs[ek], Entry(key, key.kind, t))],
                 ga + (if key.kind == Active then 1 else 0), gl + (if key.kind == Live then 1 else 0),
                 l.(leases := l.leases[key := t]))
  {
    hide Row;
    AddOne(l.leases, key, t, Active);
    AddOne(l.leases, key, t, Live);
    forall e | e in epochs
      ensures Row(l.leases[key := t], e,
                  if e == EpochOf(key) then WithToken(epochs[e], Entry(key, key.kind, t)) else epochs[e])
    {
      assert Row(l.leases, e, epochs[e]);
      AddRow(l.leases, e, epochs[e], key, t);
    }
  }

  lemma RemoveRepresents(epochs: EpochTable, ga: int, gl: int, l: Ledger, ek: EpochKey, t: TokenId)
    requires Represents(epochs, ga, gl, l)
    requires ek in epochs && t in epochs[ek].tokens
    ensures var entry := epochs[ek].tokens[t];
      entry.key in l.leases && entry.kind == entry.key.kind && entry.tokenId == t
    ensures var entry := epochs[ek].tokens[t];
      Represents(epochs[ek := WithoutToken(epochs[ek], entry)],
                 ga - (if entry.kind == Active then 1 else 0), gl - (if entry.kind == Live then 1 else 0),
                 l.(leases := l.leases - {entry.key}))
  {
    var entry := epochs[ek].tokens[t];
    assert entry.key in l.leases && EpochOf(entry.key) == ek && entry.kind == entry.key.kind by {
      assert Row(l.leases, ek, epochs[ek]);
    }
    RemoveEntry(epochs, ga, gl, l, ek, t, entry);
  }

  lemma RemoveEntry(epochs: EpochTable, ga: int, gl: int, l: Ledger, ek: EpochKey, t: TokenId, entry: Entry)
    requires Represents(epochs, ga, gl, l)
    requires ek in epochs && t in epochs[ek].tokens && entry == epochs[ek].tokens[t]
    requires entry.key in l.leases && EpochOf(entry.key) == ek && entry.kind == entry.key.kind
    ensures Represents(epochs[ek := WithoutToken(epochs[ek], entry)],
                       ga - (if entry.kind == Active then 1 else 0), gl - (if entry.kind == Live then 1 else 0),
                       l.(leases := l.leases - {entry.key}))
  {
    hide Row;
    var key := entry.key;
    RemoveCount(l.leases, {key}, Active);
    RemoveCount(l.leases, {key}, Live);
    assert {key} <= OfKind(l.leases, key.kind);
    forall e | e in epochs
      ensures Row(l.leases - {key}, e, if e == ek then WithoutToken(epochs[e], entry) else epochs[e])
    {
      assert Row(l.leases, e, epochs[e]);
      RemoveRow(l.leases, e, epochs[e], key, t, entry);
    }
  }

  lemma GrantsAre(results: Grants, kinds: set<Kind>, m: LeaseMap, base: BaseKey, newTokens: NewTokens)
    requires Active in results <==> Active in kinds
    requires Live in results <==> Live in kinds
    requires Active in kinds ==> results[Active] == GrantOf(m, KeyFor(base, Active), newTokens.active)
    requires Live in kinds ==> results[Live] == GrantOf(m, KeyFor(base, Live), newTokens.live)
    ensures results == map k | k in kinds :: GrantOf(m, KeyFor(base, k), newTokens.Of(k))
  {
    forall k: Kind
      ensures k in results <==> k in kinds
      ensures k in kinds ==> results[k] == GrantOf(m, KeyFor(base, k), newTokens.Of(k))
    {
      match k
      case Active =>
      case Live =>
    }
  }

  lemma OneLess(m: LeaseMap, key: Key)
    requires key in m
    ensures (m - {key}) - InEpoch(m - {key}, EpochOf(key)) == m - InEpoch(m, EpochOf(key))
  {
  }

  lemma HeldByAdd(m: LeaseMap, key: Key, t: TokenId, u: TokenId)
    requires t != u && key !in m
    ensures HeldBy(m[key := t], EpochOf(key), u) == HeldBy(m, EpochOf(key), u)
  {
  }

  // ---- global counters are the sums of the epoch counters ----

  ghost function EpochSum(epochs: EpochTable, eks: set<EpochKey>, k: Kind): int
    requires eks <= epochs.Keys
  {
    if eks == {} then 0
    else
      var ek :| ek in eks;
      (if k == Active then epochs[ek].activeCount else epochs[ek].livePtyCount) + EpochSum(epochs, eks - {ek}, k)
  }

  function KindAmong(m: LeaseMap, eks: set<EpochKey>, k: Kind): set<Key> {
    set key | key in m && EpochOf(key) in eks && key.kind == k
  }

  lemma {:induction false} SumCounts(epochs: EpochTable, m: LeaseMap, eks: set<EpochKey>, k: Kind)
    requires eks <= epochs.Keys && forall ek :: ek in eks ==> Row(m, ek, epochs[ek])
    ensures EpochSum(epochs, eks, k) == |KindAmong(m, eks, k)|
  {
    hide Row, EpochOf;
    if eks == {} {
      assert KindAmong(m, eks, k) == {};
    } else {
      var ek :| ek in eks && EpochSum(epochs, eks, k)
        == (if k == Active then epochs[ek].activeCount else epochs[ek].livePtyCount) + EpochSum(epochs, eks - {ek}, k);
      SumCounts(epochs, m, eks - {ek}, k);
      assert KindAmong(m, eks, k) == KindAmong(m, eks - {ek}, k) + KindIn(m, ek, k);
      RowCounts(m, ek, epochs[ek]);
    }
  }

  // ---- snapshot registration ----

  ghost predicate SameIn(m: LeaseMap, n: LeaseMap, ek: EpochKey) {
    forall key :: EpochOf(key) == ek ==> Lookup(m, key) == Lookup(n, key)
  }

  lemma RowFrame(m: LeaseMap, n: LeaseMap, ek: EpochKey, es: EpochState)
    requires Row(m, ek, es) && SameIn(m, n, ek)
    ensures Row(n, ek, es)
  {
    forall key | EpochOf(key) == ek
      ensures key in m <==> key in n
      ensures key in m ==> m[key] == n[key]
    {
      assert Lookup(m, key) == Lookup(n, key);
    }
    assert KindIn(m, ek, Active) == KindIn(n, ek, Active);
    assert KindIn(m, ek, Live) == KindIn(n, ek, Live);
  }

  lemma CountOutside(m: LeaseMap, ek: EpochKey, k: Kind)
    ensures |OfKind(m - InEpoch(m, ek), k)| == |OfKind(m, k)| - |KindIn(m, ek, k)|
  {
    assert OfKind(m - InEpoch(m, ek), k) == OfKind(m, k) - KindIn(m, ek, k);
    assert KindIn(m, ek, k) <= OfKind(m, k);
  }

  lemma SameIndexes(m: LeaseMap, ek: EpochKey, a: EpochState, b: EpochState)
    requires Indexed(m, ek, a) && a.tokens == b.tokens && a.byKindKey == b.byKindKey
    ensures Indexed(m, ek, b)
  {
  }

  lemma SnapshotRow(active: seq<Snap>, live: seq<Snap>, ek: EpochKey, es: EpochState)
    requires SnapshotOk(active, live, ek)
    requires Indexed(Snapshot(active, live, ek), ek, es)
    requires es.activeCount == |active| && es.livePtyCount == |live|
    ensures Row(Snapshot(active, live, ek), ek, es)
  {
    hide Indexed;
    var m := Snapshot(active, live, ek);
    SnapshotLoads(active, live, ek);
    assert KindIn(m, ek, Active) == OfKind(m, Active);
    assert KindIn(m, ek, Live) == OfKind(m, Live);
  }

  // Replacing one epoch's row by a registered snapshot.
  lemma RegisterRepresents(epochs: EpochTable, ga: int, gl: int, l: Ledger, ek: EpochKey, es: EpochState,
                           active: seq<Snap>, live: seq<Snap>)
    requires Represents(epochs, ga, gl, l) && ek in epochs
    requires OneKeyPerToken(l.leases)
    requires SnapshotOk(active, live, ek) && Row(Snapshot(active, live, ek), ek, es)
    requires es.reconciledRid == Some(l.rid)
    ensures var rest := l.leases - InEpoch(l.leases, ek);
      && |OfKind(rest, Active)| == ga - epochs[ek].activeCount
      && |OfKind(rest, Live)| == gl - epochs[ek].livePtyCount
      && Represents(epochs[ek := es], ga - epochs[ek].activeCount + |active|, gl - epochs[ek].livePtyCount + |live|,
                    l.(leases := rest + Snapshot(active, live, ek), reconciled := l.reconciled[ek := l.rid]))
  {
    hide Row, OfKind, BatchOk, Distinct, Snapshot;
    var rest := l.leases - InEpoch(l.leases, ek);
    var m := rest + Snapshot(active, live, ek);
    RegisterLoads(active, live, ek, rest);
    CountOutside(l.leases, ek, Active);
    CountOutside(l.leases, ek, Live);
    assert Row(l.leases, ek, epochs[ek]);
    RowCounts(l.leases, ek, epochs[ek]);
    forall e | e in epochs && e != ek
      ensures Row(m, e, epochs[e])
    {
      assert Row(l.leases, e, epochs[e]);
      SameElsewhere(l.leases, active, live, ek, e);
      RowFrame(l.leases, m, e, epochs[e]);
    }
    SameHere(l.leases, active, live, ek);
    RowFrame(Snapshot(active, live, ek), m, ek, es);
  }

  lemma RowCounts(m: LeaseMap, ek: EpochKey, es: EpochState)
    requires Row(m, ek, es)
    ensures Counted(m, ek, es)
  {
  }

  lemma SameElsewhere(m: LeaseMap, active: seq<Snap>, live: seq<Snap>, ek: EpochKey, e: EpochKey)
    requires SnapshotOk(active, live, ek) && e != ek
    ensures SameIn(m, (m - InEpoch(m, ek)) + Snapshot(active, live, ek), e)
  {
    SnapshotLoads(active, live, ek);
  }

  lemma SameHere(m: LeaseMap, active: seq<Snap>, live: seq<Snap>, ek: EpochKey)
    requires SnapshotOk(active, live, ek)
    ensures SameIn(Snapshot(active, live, ek), (m - InEpoch(m, ek)) + Snapshot(active, live, ek), ek)
  {
    SnapshotLoads(active, live, ek);
  }

  lemma EmptyRow(m: LeaseMap, ek: EpochKey)
    requires forall key :: key in m ==> EpochOf(key) != ek
    ensures Row(m, ek, EMPTY)
  {
    assert KindIn(m, ek, Active) == {} && KindIn(m, ek, Live) == {};
  }

  lemma TouchRepresents(epochs: EpochTable, ga: int, gl: int, l: Ledger, ek: EpochKey)
    requires Represents(epochs, ga, gl, l) && ek !in epochs
    requires forall key :: key in l.leases ==> EpochOf(key) in l.epochs
    ensures Represents(epochs[ek := EMPTY], ga, gl, Touch(l, ek))
  {
    hide Row;
    EmptyRow(l.leases, ek);
  }

  lemma ReplaceKeeps(l: Ledger, lim: Limits, ek: EpochKey, active: seq<Snap>, live: seq<Snap>)
    requires LedgerOk(l, lim) && SnapshotOk(active, live, ek) && ek in l.epochs
    requires var rest := l.leases - InEpoch(l.leases, ek);
      |OfKind(rest, Active)| + |active| <= lim.active && |OfKind(rest, Live)| + |live| <= lim.live
    ensures LedgerOk(l.(leases := (l.leases - InEpoch(l.leases, ek)) + Snapshot(active, live, ek),
                        reconciled := l.reconciled[ek := l.rid]), lim)
  {
    hide BatchOk, Distinct, Snapshot, ListedIn;
    RegisterLoads(active, live, ek, l.leases - InEpoch(l.leases, ek));
    SnapshotLoads(active, live, ek);
  }

  method ValidateBatch(entries: seq<Snap>, kind: Kind, ek: EpochKey) returns (ok: bool)
    ensures ok <==> BatchOk(entries, kind, ek)
  {
    for i := 0 to |entries|
      invariant forall j :: 0 <= j < i ==> SnapOk(entries[j], kind, ek)
    {
      var e := entries[i];
      if !e.Snap? { return false; }
      if e.tokenId == None { return false; }
      if e.key == None { return false; }
      if e.key.value.activation == None { return false; }
      if e.key.value.kind != Some(kind) { return false; }
      if e.key.value.gen != ek.gen || e.key.value.epoch != ek.epoch { return false; }
    }
    return true;
  }

  // One pass over a batch: no token id or key of it was seen before.
  method Scan(entries: seq<Snap>, seenTids: set<Option<TokenId>>, seenKeys: set<Option<RawKey>>)
    returns (ok: bool, tids: set<Option<TokenId>>, keys: set<Option<RawKey>>)
    requires forall s :: s in entries ==> s.Snap?
    ensures ok <==> Distinct(entries) && forall s :: s in entries ==> s.tokenId !in seenTids && s.key !in seenKeys
    ensures ok ==> forall t :: t in tids <==> t in seenTids || exists s :: s in entries && s.tokenId == t
    ensures ok ==> forall k :: k in keys <==> k in seenKeys || exists s :: s in entries && s.key == k
  {
    tids, keys := seenTids, seenKeys;
    for i := 0 to |entries|
      invariant forall s :: s in entries[..i] ==> s.tokenId !in seenTids && s.key !in seenKeys
      invariant Distinct(entries[..i])
      invariant forall t :: t in tids <==> t in seenTids || exists s :: s in entries[..i] && s.tokenId == t
      invariant forall k :: k in keys <==> k in seenKeys || exists s :: s in entries[..i] && s.key == k
    {
      var e := entries[i];
      assert entries[..i + 1] == entries[..i] + [e];
      if e.tokenId in tids {
        return false, tids, keys;
      }
      tids := tids + {e.tokenId};
      if e.key in keys {
        return false, tids, keys;
      }
      keys := keys + {e.key};
    }
    assert entries[..|entries|] == entries;
    return true, tids, keys;
  }

  lemma DistinctApart(active: seq<Snap>, live: seq<Snap>)
    requires forall s :: s in active || s in live ==> s.Snap?
    ensures Distinct(active + live) <==>
      && Distinct(active) && Distinct(live)
      && forall x, y :: x in active && y in live ==> x.tokenId != y.tokenId && x.key != y.key
  {
    var all := active + live;
    assert forall i :: 0 <= i < |active| ==> active[i] == all[i];
    assert forall i :: 0 <= i < |live| ==> live[i] == all[|active| + i];
    assert forall i :: 0 <= i < |all| ==> all[i] == if i < |active| then active[i] else live[i - |active|];
    if Distinct(all) {
      forall x, y | x in active && y in live
        ensures x.tokenId != y.tokenId && x.key != y.key
      {
        var p :| 0 <= p < |active| && active[p] == x;
        var q :| 0 <= q < |live| && live[q] == y;
        assert all[p] == x && all[|active| + q] == y;
      }
    }
  }

  method CheckDistinct(active: seq<Snap>, live: seq<Snap>, ek: EpochKey) returns (ok: bool)
    requires BatchOk(active, Active, ek) && BatchOk(live, Live, ek)
    ensures ok <==> Distinct(active + live)
  {
    hide Distinct;
    DistinctApart(active, live);
    var activeOk, tids, keys := Scan(active, {}, {});
    if !activeOk {
      return false;
    }
    ok, tids, keys := Scan(live, tids, keys);
  }

  // Nothing in `m` clashes with the batch: neither a key nor a token of the epoch.
  ghost predicate Apart(m: LeaseMap, entries: seq<Snap>, kind: Kind, ek: EpochKey)
    requires BatchOk(entries, kind, ek)
  {
    forall s, key :: s in entries && key in m && EpochOf(key) == ek ==>
      StoredKey(s) != key && Some(m[key]) != s.tokenId
  }

  lemma NotYet(entries: seq<Snap>, i: nat, kind: Kind, ek: EpochKey, m: LeaseMap, es: EpochState)
    requires BatchOk(entries, kind, ek) && Distinct(entries) && Apart(m, entries, kind, ek)
    requires i < |entries|
    requires Indexed(m + Loaded(entries[..i], kind, ek), ek, es)
    ensures StoredKey(entries[i]) !in m + Loaded(entries[..i], kind, ek)
    ensures entries[i].tokenId.value !in es.tokens
    ensures m + Loaded(entries[..i + 1], kind, ek)
         == (m + Loaded(entries[..i], kind, ek))[StoredKey(entries[i]) := entries[i].tokenId.value]
  {
    hide Indexed, Apart;
    var s, sofar := entries[i], entries[..i];
    assert entries[..i + 1][..i] == sofar;
    Unlisted(entries, i, kind, ek);
    assert s in entries;
    var n := m + Loaded(sofar, kind, ek);
    assert StoredKey(s) !in n && forall key :: key in n && EpochOf(key) == ek ==> Some(n[key]) != s.tokenId by {
      ApartAt(m, entries, kind, ek, s);
    }
    Unused(n, ek, es, s.tokenId.value);
  }

  lemma Unlisted(entries: seq<Snap>, i: nat, kind: Kind, ek: EpochKey)
    requires BatchOk(entries, kind, ek) && Distinct(entries) && i < |entries|
    ensures var m := Loaded(entries[..i], kind, ek);
      && StoredKey(entries[i]) !in m
      && forall key :: key in m ==> Some(m[key]) != entries[i].tokenId
  {
    LoadedFacts(entries[..i], kind, ek);
  }

  lemma ApartAt(m: LeaseMap, entries: seq<Snap>, kind: Kind, ek: EpochKey, s: Snap)
    requires BatchOk(entries, kind, ek) && Apart(m, entries, kind, ek) && s in entries
    ensures StoredKey(s) !in m
    ensures forall key :: key in m && EpochOf(key) == ek ==> Some(m[key]) != s.tokenId
  {
    KeyShape(s, kind, ek);
  }

  lemma Unused(n: LeaseMap, ek: EpochKey, es: EpochState, t: TokenId)
    requires Indexed(n, ek, es)
    requires forall key :: key in n && EpochOf(key) == ek ==> n[key] != t
    ensures t !in es.tokens
  {
  }

  // Enter a batch on top of what is already indexed.
  method FillBatch(es: EpochState, entries: seq<Snap>, kind: Kind, ek: EpochKey, ghost m: LeaseMap)
    returns (r: EpochState)
    requires BatchOk(entries, kind, ek) && Distinct(entries) && Apart(m, entries, kind, ek)
    requires Indexed(m, ek, es)
    ensures Indexed(m + Loaded(entries, kind, ek), ek, r)
  {
    hide Indexed, Apart, Distinct, StoredKey;
    r := es;
    assert m + Loaded([], kind, ek) == m;
    assert entries[..0] == [];
    for i := 0 to |entries|
      invariant Indexed(m + Loaded(entries[..i], kind, ek), ek, r)
    {
      NotYet(entries, i, kind, ek, m, r);
      assert EpochOf(StoredKey(entries[i])) == ek && StoredKey(entries[i]).kind == kind by {
        KeyShape(entries[i], kind, ek);
      }
      IndexedAdd(m + Loaded(entries[..i], kind, ek), ek, r, StoredKey(entries[i]), entries[i].tokenId.value);
      r := WithToken(r, Entry(StoredKey(entries[i]), kind, entries[i].tokenId.value));
    }
    assert entries[..|entries|] == entries;
  }

  lemma KeyShape(s: Snap, kind: Kind, ek: EpochKey)
    requires SnapOk(s, kind, ek)
    ensures EpochOf(StoredKey(s)) == ek && StoredKey(s).kind == kind
  {
  }

  lemma ApartFromActive(active: seq<Snap>, live: seq<Snap>, ek: EpochKey)
    requires SnapshotOk(active, live, ek)
    ensures Apart(Loaded(active, Active, ek), live, Live, ek)
  {
    AcrossDistinct(active, live, ek);
    LoadedFacts(active, Active, ek);
  }

  // Clear the two indexes and enter the snapshot's tokens.
  method Fill(es: EpochState, active: seq<Snap>, live: seq<Snap>, ek: EpochKey) returns (r: EpochState)
    requires SnapshotOk(active, live, ek)
    ensures Indexed(Snapshot(active, live, ek), ek, r)
  {
    hide Distinct;
    AcrossDistinct(active, live, ek);
    ApartFromActive(active, live, ek);
    r := es.(tokens := map[], byKindKey := map[]);
    r := FillBatch(r, active, Active, ek, map[]);
    assert map[] + Loaded(active, Active, ek) == Loaded(active, Active, ek);
    r := FillBatch(r, live, Live, ek, Loaded(active, Active, ek));
  }

  class LeaseService {
    const limits: Limits
    var reconciliationId: Rid
    var epochs: map<EpochKey, EpochState>
    var globalActiveCount: int
    var globalLivePtyCount: int
    ghost var ledger: Ledger

    ghost predicate Valid()
      reads this
    {
      && ledger.rid == reconciliationId
      && Represents(epochs, globalActiveCount, globalLivePtyCount, ledger)
      && LedgerOk(ledger, limits)
    }

    constructor (activeLimit: nat, livePtyLimit: nat, rid: Rid)
      ensures Valid() && limits == Limits(activeLimit, livePtyLimit)
      ensures ledger == Ledger(rid, {}, map[], map[])
    {
      limits := Limits(activeLimit, livePtyLimit);
      reconciliationId := rid;
      epochs := map[];
      globalActiveCount, globalLivePtyCount := 0, 0;
      ledger := Ledger(rid, {}, map[], map[]);
      new;
      assert OfKind(ledger.leases, Active) == {} && OfKind(ledger.leases, Live) == {};
    }

    method SetReconciliationId(rid: Rid)
      requires Valid()
      modifies this
      ensures Valid() && ledger == L.SetReconciliationId(old(ledger), rid)
    {
      reconciliationId := rid;
      ledger := ledger.(rid := rid);
    }

    // The state of an epoch, created empty on first use.
    method Epoch(ek: EpochKey)
      requires Valid()
      modifies this
      ensures Valid() && ek in epochs && ledger == Touch(old(ledger), ek)
      ensures reconciliationId == old(reconciliationId)
    {
      hide Row, OfKind;
      if ek !in epochs {
        TouchRepresents(epochs, globalActiveCount, globalLivePtyCount, ledger, ek);
        epochs := epochs[ek := EMPTY];
      }
      ledger := Touch(ledger, ek);
    }

    // Enter one new token under `key` and count it.
    method Insert(key: Key, t: TokenId)
      requires Valid() && EpochOf(key) in epochs
      requires key !in ledger.leases && HeldBy(ledger.leases, EpochOf(key), t) == {}
      requires Count(ledger, key.kind) < limits.Of(key.kind)
      modifies this
      ensures Valid()
      ensures ledger == old(ledger).(leases := old(ledger).leases[key := t])
      ensures epochs.Keys == old(epochs).Keys && reconciliationId == old(reconciliationId)
    {
      hide Row, LedgerOk;
      var ek := EpochOf(key);
      var es := epochs[ek];
      var entry := Entry(key, key.kind, t);
      TokenHolds(ek, t);
      es := es.(tokens := es.tokens[t := entry], byKindKey := es.byKindKey[key := entry]);
      if key.kind == Active {
        es := es.(activeCount := es.activeCount + 1);
        globalActiveCount := globalActiveCount + 1;
      } else {
        es := es.(livePtyCount := es.livePtyCount + 1);
        globalLivePtyCount := globalLivePtyCount + 1;
      }
      AddRepresents(epochs, old(globalActiveCount), old(globalLivePtyCount), ledger, key, t);
      AddKeeps(ledger, limits, key, t);
      epochs := epochs[ek := es];
      ledger := ledger.(leases := ledger.leases[key := t]);
    }

    method Acquire(base: BaseKey, kinds: set<Kind>, rid: Option<Rid>, newTokens: NewTokens)
      returns (r: Result<Grants, LeaseError>)
      requires Valid()
      requires NewIn(ledger, EpochKey(base.gen, base.epoch), newTokens)
      modifies this
      ensures Valid()
      ensures (ledger, r) == L.Acquire(old(ledger), limits, base, kinds, rid, newTokens)
    {
      hide Represents, LedgerOk, OfKind, HeldBy;
      var ek := EpochKey(base.gen, base.epoch);
      if rid != Some(reconciliationId) {
        return Err(StaleReconciliationId);
      }
      Epoch(ek);
      Gate(ek);
      if epochs[ek].reconciledRid != Some(reconciliationId) {
        return Err(Rebuilding);
      }
      var needsActive, needsLive := Active in kinds, Live in kinds;
      var results: Grants := map[];
      var akey, lkey := KeyFor(base, Active), KeyFor(base, Live);
      KeyIndexed(akey);
      KeyIndexed(lkey);
      Counters();
      if needsActive {
        if akey in epochs[ek].byKindKey {
          results := results[Active := Grant(epochs[ek].byKindKey[akey].tokenId, false)];
          needsActive := false;
        } else if globalActiveCount >= limits.active {
          return Err(ConcurrencyLimit);
        }
      }
      if needsLive {
        if lkey in epochs[ek].byKindKey {
          results := results[Live := Grant(epochs[ek].byKindKey[lkey].tokenId, false)];
          needsLive := false;
        } else if globalLivePtyCount >= limits.live {
          return Err(ConcurrencyLimit);
        }
      }
      ghost var before := ledger.leases;
      assert HeldBy(before, ek, newTokens.Of(Active)) == {} && HeldBy(before, ek, newTokens.Of(Live)) == {};
      Mint(base, needsActive, needsLive, newTokens);
      if needsActive {
        results := results[Active := Grant(newTokens.active, true)];
      }
      if needsLive {
        results := results[Live := Grant(newTokens.live, true)];
      }
      GrantsAre(results, kinds, before, base, newTokens);
      return Ok(results);
    }

    // Enter the tokens that the checks above found missing and affordable.
    method Mint(base: BaseKey, needsActive: bool, needsLive: bool, newTokens: NewTokens)
      requires Valid() && EpochKey(base.gen, base.epoch) in epochs
      requires newTokens.active != newTokens.live
      requires HeldBy(ledger.leases, EpochKey(base.gen, base.epoch), newTokens.active) == {}
      requires HeldBy(ledger.leases, EpochKey(base.gen, base.epoch), newTokens.live) == {}
      requires needsActive ==> KeyFor(base, Active) !in ledger.leases && Count(ledger, Active) < limits.active
      requires needsLive ==> KeyFor(base, Live) !in ledger.leases && Count(ledger, Live) < limits.live
      modifies this
      ensures Valid()
      ensures var m1 :=
          if needsActive then old(ledger).leases[KeyFor(base, Active) := newTokens.active] else old(ledger).leases;
        var m2 := if needsLive then m1[KeyFor(base, Live) := newTokens.live] else m1;
        ledger == old(ledger).(leases := m2)
    {
      hide Row, LedgerOk, OfKind, HeldBy;
      ghost var before := ledger.leases;
      var akey, lkey := KeyFor(base, Active), KeyFor(base, Live);
      assert EpochOf(akey) == EpochKey(base.gen, base.epoch) == EpochOf(lkey);
      hide KeyFor, EpochOf;
      if needsActive {
        Insert(akey, newTokens.active);
        AddOne(before, akey, newTokens.active, Live);
        HeldByAdd(before, akey, newTokens.active, newTokens.live);
      }
      if needsLive {
        Insert(lkey, newTokens.live);
      }
    }

    // Take a token out of its epoch's indexes and counters.
    method Remove(ek: EpochKey, t: TokenId)
      requires Valid() && ek in epochs && t in epochs[ek].tokens
      modifies this
      ensures Valid()
      ensures ledger == old(ledger).(leases := old(ledger).leases - {old(epochs)[ek].tokens[t].key})
      ensures epochs == old(epochs)[ek := epochs[ek]] && reconciliationId == old(reconciliationId)
      ensures epochs[ek].tokens == old(epochs)[ek].tokens - {t}
      ensures epochs[ek].byKindKey == old(epochs)[ek].byKindKey - {old(epochs)[ek].tokens[t].key}
    {
      hide Row, LedgerOk;
      var es := epochs[ek];
      var entry := es.tokens[t];
      RemoveRepresents(epochs, globalActiveCount, globalLivePtyCount, ledger, ek, t);
      RemovalKeeps(ledger, limits, {entry.key});
      es := es.(tokens := es.tokens - {t}, byKindKey := es.byKindKey - {entry.key});
      if entry.kind == Active {
        es := es.(activeCount := es.activeCount - 1);
        globalActiveCount := globalActiveCount - 1;
      } else {
        es := es.(livePtyCount := es.livePtyCount - 1);
        globalLivePtyCount := globalLivePtyCount - 1;
      }
      epochs := epochs[ek := es];
      ledger := ledger.(leases := ledger.leases - {entry.key});
    }

    lemma KeyIndexed(key: Key)
      requires Valid() && EpochOf(key) in epochs
      ensures key in epochs[EpochOf(key)].byKindKey <==> key in ledger.leases
      ensures key in ledger.leases ==> epochs[EpochOf(key)].byKindKey[key].tokenId == ledger.leases[key]
    {
      assert Row(ledger.leases, EpochOf(key), epochs[EpochOf(key)]);
    }

    lemma Counters()
      requires Valid()
      ensures globalActiveCount == Count(ledger, Active) && globalLivePtyCount == Count(ledger, Live)
    {
    }

    lemma Gate(ek: EpochKey)
      requires Valid() && ek in epochs
      ensures Reconciled(ledger, ek) <==> epochs[ek].reconciledRid == Some(reconciliationId)
    {
    }

    lemma GlobalCountsAreSums()
      requires Valid()
      ensures globalActiveCount == EpochSum(epochs, epochs.Keys, Active)
      ensures globalLivePtyCount == EpochSum(epochs, epochs.Keys, Live)
    {
      hide Row, OneKeyPerToken, EpochOf;
      SumCounts(epochs, ledger.leases, epochs.Keys, Active);
      SumCounts(epochs, ledger.leases, epochs.Keys, Live);
      assert KindAmong(ledger.leases, epochs.Keys, Active) == OfKind(ledger.leases, Active);
      assert KindAmong(ledger.leases, epochs.Keys, Live) == OfKind(ledger.leases, Live);
    }

    lemma NoneInEpoch(ek: EpochKey)
      requires Valid() && (ek in epochs ==> epochs[ek].tokens == map[])
      ensures InEpoch(ledger.leases, ek) == {}
    {
      if ek in epochs {
        assert Row(ledger.leases, ek, epochs[ek]);
      }
    }

    lemma TokenHolds(ek: EpochKey, t: TokenId)
      requires Valid() && ek in epochs
      ensures HeldBy(ledger.leases, ek, t) == if t in epochs[ek].tokens then {epochs[ek].tokens[t].key} else {}
    {
    }

    method Release(ek: EpochKey, t: TokenId, rid: Option<Rid>) returns (r: Result<bool, LeaseError>)
      requires Valid()
      modifies this
      ensures Valid()
      ensures (ledger, r) == L.Release(old(ledger), ek, t, rid)
    {
      hide Row, LedgerOk, OfKind;
      if rid != Some(reconciliationId) {
        return Err(StaleReconciliationId);
      }
      Epoch(ek);
      if epochs[ek].reconciledRid != Some(reconciliationId) {
        return Err(Rebuilding);
      }
      TokenHolds(ek, t);
      if t !in epochs[ek].tokens {
        assert ledger.leases == ledger.leases - {};
        return Ok(false);
      }
      Remove(ek, t);
      return Ok(true);
    }

    method ReleaseEpoch(ek: EpochKey)
      requires Valid()
      modifies this
      ensures Valid()
      ensures ledger == L.ReleaseEpoch(old(ledger), ek)
    {
      hide Row, LedgerOk, OfKind;
      if ek !in epochs {
        NoneInEpoch(ek);
        assert ledger.leases - {} == ledger.leases;
        return;
      }
      while epochs[ek].tokens != map[]
        invariant Valid() && ek in epochs
        invariant ledger == old(ledger).(leases := ledger.leases)
        invariant ledger.leases - InEpoch(ledger.leases, ek) == old(ledger).leases - InEpoch(old(ledger).leases, ek)
        decreases epochs[ek].tokens.Keys
      {
        var t :| t in epochs[ek].tokens;
        TokenHolds(ek, t);
        ghost var key := epochs[ek].tokens[t].key;
        assert key in HeldBy(ledger.leases, ek, t);
        OneLess(ledger.leases, key);
        Remove(ek, t);
      }
      NoneInEpoch(ek);
      assert ledger.leases - {} == ledger.leases;
    }

    method RegisterSnapshot(ek: EpochKey, rid: Rid, active: seq<Snap>, live: seq<Snap>)
      returns (r: Result<Rid, LeaseError>)
      requires Valid()
      modifies this
      ensures Valid()
      ensures (ledger, r) == L.Register(old(ledger), limits, ek, rid, active, live)
    {
      hide Represents, LedgerOk, OfKind, Distinct, Loaded, Row;
      if rid != reconciliationId {
        return Err(StaleReconciliationId);
      }
      Epoch(ek);
      Gate(ek);
      if epochs[ek].reconciledRid == Some(reconciliationId) {
        return Ok(reconciliationId);
      }
      var activeOk := ValidateBatch(active, Active, ek);
      var liveOk := ValidateBatch(live, Live, ek);
      if !activeOk || !liveOk {
        return Err(InvalidRequest);
      }
      var distinct := CheckDistinct(active, live, ek);
      if !distinct {
        return Err(InvalidRequest);
      }
      r := Replace(ek, active, live);
    }

    // The capacity check and the replacement itself.
    method Replace(ek: EpochKey, active: seq<Snap>, live: seq<Snap>) returns (r: Result<Rid, LeaseError>)
      requires Valid() && ek in epochs && SnapshotOk(active, live, ek)
      modifies this
      ensures Valid()
      ensures var rest := old(ledger).leases - InEpoch(old(ledger).leases, ek);
        if |OfKind(rest, Active)| + |active| > limits.active || |OfKind(rest, Live)| + |live| > limits.live then
          ledger == old(ledger) && r == Err(ConcurrencyLimit)
        else
          r == Ok(ledger.rid) &&
          ledger == old(ledger).(leases := rest + Snapshot(active, live, ek),
                                 reconciled := old(ledger).reconciled[ek := old(ledger).rid])
    {
      hide Row, OfKind, InEpoch, Distinct, Loaded, Snapshot, BatchOk, Indexed;
      var es := epochs[ek];
      var projectedActive := globalActiveCount - es.activeCount + |active|;
      var projectedLive := globalLivePtyCount - es.livePtyCount + |live|;
      var filled := Fill(es, active, live, ek);
      var es1 := filled.(activeCount := |active|, livePtyCount := |live|, reconciledRid := Some(reconciliationId));
      SameIndexes(Snapshot(active, live, ek), ek, filled, es1);
      SnapshotRow(active, live, ek, es1);
      RegisterRepresents(epochs, globalActiveCount, globalLivePtyCount, ledger, ek, es1, active, live);
      if projectedActive > limits.active || projectedLive > limits.live {
        return Err(ConcurrencyLimit);
      }
      ReplaceKeeps(ledger, limits, ek, active, live);
      epochs := epochs[ek := es1];
      globalActiveCount := projectedActive;
      globalLivePtyCount := projectedLive;
      ledger := ledger.(leases := (ledger.leases - InEpoch(ledger.leases, ek)) + Snapshot(active, live, ek),
                        reconciled := ledger.reconciled[ek := ledger.rid]);
      return Ok(reconciliationId);
    }
  }
}
