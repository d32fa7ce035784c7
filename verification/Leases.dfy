/**
  The router's lease service (router/leases.py).

  `Ledger` is the simple meaning of the service: which epochs it knows, which tokens count in which
  epoch, and which reconciliation id each epoch has registered under.  Its functions say what each
  operation answers and how the ledger changes; nothing in it is cached.

  `LeaseService` keeps what the program keeps: per-epoch token maps, a second index by kind-key, and
  per-epoch and global counters.  Every method is proved to move the ledger as its function says,
  with all the indexes and counters exact.
*/
module Leases {
  import opened Prelude

  // Ids and names are strings in the program; only their identity matters here.
  type Id = nat
  type Rid = Id
  type TokenId = Id

  datatype Kind = Active | Live

  datatype EpochKey = EpochKey(gen: Id, epoch: Id)

  datatype BaseKey = BaseKey(gen: Id, epoch: Id, session: Id, activation: Id)

  // (generation id, generation epoch, session id, activation id, kind)
  datatype Key = Key(gen: Id, epoch: Id, session: Id, activation: Id, kind: Kind)

  // A five-part key as it arrives in a snapshot: the activation id may not be a string, the kind
  // may not be one of the two names.
  datatype RawKey = RawKey(gen: Id, epoch: Id, session: Id, activation: Option<Id>, kind: Option<Kind>)

  // One snapshot entry of a registration, before validation.
  datatype Snap =
    | NotDict
    | Snap(tokenId: Option<TokenId>,   // None: missing, not a string, or empty
           key: Option<RawKey>)        // None: missing, not a list, or not of arity five

  datatype LeaseError = StaleReconciliationId | Rebuilding | ConcurrencyLimit | InvalidRequest

  datatype Grant = Grant(tokenId: TokenId, isNew: bool)

  datatype Limits = Limits(active: nat, live: nat) {
    function Of(k: Kind): nat {
      if k == Active then active else live
    }
  }

  function KeyFor(b: BaseKey, k: Kind): Key {
    Key(b.gen, b.epoch, b.session, b.activation, k)
  }

  function EpochOf(k: Key): EpochKey {
    EpochKey(k.gen, k.epoch)
  }

  datatype NewTokens = NewTokens(active: TokenId, live: TokenId) {
    function Of(k: Kind): TokenId {
      if k == Active then active else live
    }
  }

  // ---- the ledger -------------------------------------------------------------------------------

  // Which token holds each kind-key.
  type LeaseMap = map<Key, TokenId>

  datatype Ledger = Ledger(rid: Rid, epochs: set<EpochKey>, leases: LeaseMap,
                           reconciled: map<EpochKey, Rid>)

  function OfKind(m: LeaseMap, k: Kind): set<Key> {
    set key | key in m && key.kind == k
  }

  function InEpoch(m: LeaseMap, ek: EpochKey): set<Key> {
    set key | key in m && EpochOf(key) == ek
  }

  function HeldBy(m: LeaseMap, ek: EpochKey, t: TokenId): set<Key> {
    set key | key in m && EpochOf(key) == ek && m[key] == t
  }

  // How many leases of kind k count against the service's capacity.
  function Count(l: Ledger, k: Kind): nat {
    |OfKind(l.leases, k)|
  }

  // Within an epoch a token holds one key only.
  ghost predicate OneKeyPerToken(m: LeaseMap) {
    forall j, k :: j in m && k in m && EpochOf(j) == EpochOf(k) && m[j] == m[k] ==> j == k
  }

  // What holds of the ledger after any operations.
  ghost predicate LedgerOk(l: Ledger, lim: Limits) {
    && (forall key :: key in l.leases ==> EpochOf(key) in l.epochs)
    && OneKeyPerToken(l.leases)
    && Count(l, Active) <= lim.active && Count(l, Live) <= lim.live
  }

  predicate Reconciled(l: Ledger, ek: EpochKey) {
    Lookup(l.reconciled, ek) == Some(l.rid)
  }

  function Touch(l: Ledger, ek: EpochKey): Ledger {
    l.(epochs := l.epochs + {ek})
  }

  predicate Blocked(l: Ledger, lim: Limits, key: Key) {
    key !in l.leases && lim.Of(key.kind) <= Count(l, key.kind)
  }

  function AddGrant(m: LeaseMap, key: Key, t: TokenId): LeaseMap {
    if key in m then m else m[key := t]
  }

  function GrantOf(m: LeaseMap, key: Key, t: TokenId): Grant {
    if key in m then Grant(m[key], false) else Grant(t, true)
  }

  type Grants = map<Kind, Grant>

  // All requested kinds are granted, or none; a kind-key already held keeps its token.
  function Acquire(l: Ledger, lim: Limits, base: BaseKey, kinds: set<Kind>, rid: Option<Rid>,
                   newTokens: NewTokens): (Ledger, Result<Grants, LeaseError>)
  {
    var ek := EpochKey(base.gen, base.epoch);
    var l1 := Touch(l, ek);
    if rid != Some(l.rid) then (l, Err(StaleReconciliationId))
    else if !Reconciled(l, ek) then (l1, Err(Rebuilding))
    else if (Active in kinds && Blocked(l, lim, KeyFor(base, Active)))
         || (Live in kinds && Blocked(l, lim, KeyFor(base, Live))) then (l1, Err(ConcurrencyLimit))
    else
      var m1 := if Active in kinds then AddGrant(l.leases, KeyFor(base, Active), newTokens.active) else l.leases;
      var m2 := if Live in kinds then AddGrant(m1, KeyFor(base, Live), newTokens.live) else m1;
      (l1.(leases := m2),
       Ok(map k | k in kinds :: GrantOf(l.leases, KeyFor(base, k), newTokens.Of(k))))
  }

  // Two new ids that no lease of the epoch uses (the program draws them at random).
  predicate NewIn(l: Ledger, ek: EpochKey, newTokens: NewTokens) {
    && newTokens.active != newTokens.live
    && forall k: Kind :: HeldBy(l.leases, ek, newTokens.Of(k)) == {}
  }

  function Release(l: Ledger, ek: EpochKey, t: TokenId, rid: Option<Rid>)
    : (Ledger, Result<bool, LeaseError>)
  {
    var gone := HeldBy(l.leases, ek, t);
    if rid != Some(l.rid) then (l, Err(StaleReconciliationId))
    else if !Reconciled(l, ek) then (Touch(l, ek), Err(Rebuilding))
    else (Touch(l, ek).(leases := l.leases - gone), Ok(gone != {}))
  }

  function ReleaseEpoch(l: Ledger, ek: EpochKey): Ledger {
    l.(leases := l.leases - InEpoch(l.leases, ek))
  }

  function SetReconciliationId(l: Ledger, rid: Rid): Ledger {
    l.(rid := rid)
  }

  // ---- snapshot registration --------------------------------------------------------------------

  predicate SnapOk(s: Snap, kind: Kind, ek: EpochKey) {
    && s.Snap?
    && s.tokenId.Some?
    && s.key.Some?
    && s.key.value.activation.Some?
    && s.key.value.kind == Some(kind)
    && s.key.value.gen == ek.gen && s.key.value.epoch == ek.epoch
  }

  predicate BatchOk(entries: seq<Snap>, kind: Kind, ek: EpochKey) {
    forall i :: 0 <= i < |entries| ==> SnapOk(entries[i], kind, ek)
  }

  // No token id and no kind-key occurs twice in the whole snapshot.
  predicate Distinct(entries: seq<Snap>)
    requires forall s :: s in entries ==> s.Snap?
  {
    forall i, j :: 0 <= i < j < |entries| ==>
      entries[i].tokenId != entries[j].tokenId && entries[i].key != entries[j].key
  }

  predicate SnapshotOk(active: seq<Snap>, live: seq<Snap>, ek: EpochKey) {
    BatchOk(active, Active, ek) && BatchOk(live, Live, ek) && Distinct(active + live)
  }

  function StoredKey(s: Snap): Key
    requires s.Snap? && s.key.Some? && s.key.value.activation.Some? && s.key.value.kind.Some?
  {
    var k := s.key.value;
    Key(k.gen, k.epoch, k.session, k.activation.value, k.kind.value)
  }

  // The leases that a validated batch describes.
  function Loaded(entries: seq<Snap>, kind: Kind, ek: EpochKey): LeaseMap
    requires BatchOk(entries, kind, ek)
  {
    if entries == [] then map[]
    else
      var s := entries[|entries| - 1];
      Loaded(entries[..|entries| - 1], kind, ek)[StoredKey(s) := s.tokenId.value]
  }

  function Snapshot(active: seq<Snap>, live: seq<Snap>, ek: EpochKey): LeaseMap
    requires BatchOk(active, Active, ek) && BatchOk(live, Live, ek)
  {
    Loaded(active, Active, ek) + Loaded(live, Live, ek)
  }

  // The registration replaces whatever the epoch held; an epoch already registered under the current
  // id answers at once and changes nothing.
  function Register(l: Ledger, lim: Limits, ek: EpochKey, rid: Rid, active: seq<Snap>, live: seq<Snap>)
    : (Ledger, Result<Rid, LeaseError>)
  {
    var l1 := Touch(l, ek);
    if rid != l.rid then (l, Err(StaleReconciliationId))
    else if Reconciled(l, ek) then (l1, Ok(l.rid))
    else if !SnapshotOk(active, live, ek) then (l1, Err(InvalidRequest))
    else
      var rest := l.leases - InEpoch(l.leases, ek);
      if |OfKind(rest, Active)| + |active| > lim.active || |OfKind(rest, Live)| + |live| > lim.live then
        (l1, Err(ConcurrencyLimit))
      else
        (l1.(leases := rest + Snapshot(active, live, ek),
             reconciled := l.reconciled[ek := rid]),
         Ok(l.rid))
  }

  // ---- counting ---------------------------------------------------------------------------------

  lemma AddOne(m: LeaseMap, key: Key, t: TokenId, k: Kind)
    requires key !in m
    ensures |OfKind(m[key := t], k)| == |OfKind(m, k)| + (if key.kind == k then 1 else 0)
  {
    assert OfKind(m[key := t], k) == OfKind(m, k) + (if key.kind == k then {key} else {});
  }

  lemma RemoveCount(m: LeaseMap, gone: set<Key>, k: Kind)
    ensures |OfKind(m - gone, k)| <= |OfKind(m, k)|
    ensures gone <= OfKind(m, k) ==> |OfKind(m - gone, k)| == |OfKind(m, k)| - |gone|
    ensures gone !! OfKind(m, k) ==> |OfKind(m - gone, k)| == |OfKind(m, k)|
  {
    assert OfKind(m - gone, k) == OfKind(m, k) - gone;
    SubsetSize(OfKind(m - gone, k), OfKind(m, k));
  }

  lemma MergeCount(m: LeaseMap, n: LeaseMap, k: Kind)
    requires m.Keys !! n.Keys
    ensures |OfKind(m + n, k)| == |OfKind(m, k)| + |OfKind(n, k)|
  {
    assert OfKind(m + n, k) == OfKind(m, k) + OfKind(n, k);
  }

  ghost predicate ListedIn(entries: seq<Snap>, key: Key, t: TokenId) {
    exists s :: s in entries && s.Snap? && s.tokenId == Some(t)
      && s.key == Some(RawKey(key.gen, key.epoch, key.session, Some(key.activation), Some(key.kind)))
  }

  // Loading a batch without repetitions gives exactly the leases it lists, and as many.
  lemma {:induction false} LoadedFacts(entries: seq<Snap>, kind: Kind, ek: EpochKey)
    requires BatchOk(entries, kind, ek) && Distinct(entries)
    ensures var m := Loaded(entries, kind, ek);
      && |OfKind(m, kind)| == |entries|
      && (forall key :: key in m ==> EpochOf(key) == ek && key.kind == kind && ListedIn(entries, key, m[key]))
      && OneKeyPerToken(m)
  {
    if entries != [] {
      var n := |entries| - 1;
      var s := entries[n];
      var init := entries[..n];
      LoadedFacts(init, kind, ek);
      var m := Loaded(init, kind, ek);
      assert forall x :: x in init ==> x.tokenId != s.tokenId && x.key != s.key;
      assert StoredKey(s) !in m;
      AddOne(m, StoredKey(s), s.tokenId.value, kind);
      assert forall x :: x in init ==> x in entries;
      assert s in entries && ListedIn(entries, StoredKey(s), s.tokenId.value);
    } else {
      assert OfKind(Loaded(entries, kind, ek), kind) == {};
    }
  }

  // ---- every operation keeps the ledger well formed and within capacity --------------------------

  lemma AcquireKeeps(l: Ledger, lim: Limits, base: BaseKey, kinds: set<Kind>, rid: Option<Rid>,
                     newTokens: NewTokens)
    requires LedgerOk(l, lim) && NewIn(l, EpochKey(base.gen, base.epoch), newTokens)
    ensures LedgerOk(Acquire(l, lim, base, kinds, rid, newTokens).0, lim)
  {
    var (l', r) := Acquire(l, lim, base, kinds, rid, newTokens);
    var a, v := KeyFor(base, Active), KeyFor(base, Live);
    if r.Ok? {
      if a !in l.leases { AddOne(l.leases, a, newTokens.active, Active); AddOne(l.leases, a, newTokens.active, Live); }
      var m1 := if Active in kinds then AddGrant(l.leases, a, newTokens.active) else l.leases;
      if v !in l.leases { AddOne(m1, v, newTokens.live, Active); AddOne(m1, v, newTokens.live, Live); }
      NewTokensKeepOneKey(l, base, newTokens, l'.leases);
    } else {
      assert l'.leases == l.leases;
    }
  }

  lemma AddKeeps(l: Ledger, lim: Limits, key: Key, t: TokenId)
    requires LedgerOk(l, lim) && EpochOf(key) in l.epochs
    requires key !in l.leases && HeldBy(l.leases, EpochOf(key), t) == {}
    requires Count(l, key.kind) < lim.Of(key.kind)
    ensures LedgerOk(l.(leases := l.leases[key := t]), lim)
  {
    AddOne(l.leases, key, t, Active);
    AddOne(l.leases, key, t, Live);
    forall j | j in l.leases && EpochOf(j) == EpochOf(key) ensures l.leases[j] != t {
      assert j !in HeldBy(l.leases, EpochOf(key), t);
    }
  }

  lemma NewTokensKeepOneKey(l: Ledger, base: BaseKey, newTokens: NewTokens, m: LeaseMap)
    requires OneKeyPerToken(l.leases) && NewIn(l, EpochKey(base.gen, base.epoch), newTokens)
    requires forall key :: key in m ==>
               if key in l.leases then m[key] == l.leases[key]
               else key == KeyFor(base, key.kind) && m[key] == newTokens.Of(key.kind)
    ensures OneKeyPerToken(m)
  {
    var ek := EpochKey(base.gen, base.epoch);
    forall j, k: Kind | j in l.leases && EpochOf(j) == ek
      ensures l.leases[j] != newTokens.Of(k)
    {
      assert j !in HeldBy(l.leases, ek, newTokens.Of(k));
    }
  }

  lemma RemovalKeeps(l: Ledger, lim: Limits, gone: set<Key>)
    requires LedgerOk(l, lim)
    ensures LedgerOk(l.(leases := l.leases - gone), lim)
  {
    RemoveCount(l.leases, gone, Active);
    RemoveCount(l.leases, gone, Live);
  }

  lemma RegisterKeeps(l: Ledger, lim: Limits, ek: EpochKey, rid: Rid, active: seq<Snap>, live: seq<Snap>)
    requires LedgerOk(l, lim)
    ensures LedgerOk(Register(l, lim, ek, rid, active, live).0, lim)
  {
    if rid == l.rid && !Reconciled(l, ek) && SnapshotOk(active, live, ek) {
      var rest := l.leases - InEpoch(l.leases, ek);
      RegisterLoads(active, live, ek, rest);
      SnapshotLoads(active, live, ek);
      RemovalKeeps(l, lim, InEpoch(l.leases, ek));
    }
  }

  lemma AcrossDistinct(active: seq<Snap>, live: seq<Snap>, ek: EpochKey)
    requires SnapshotOk(active, live, ek)
    ensures Distinct(active) && Distinct(live)
    ensures forall x, y :: x in active && y in live ==> x.tokenId != y.tokenId
  {
    var all := active + live;
    assert forall i :: 0 <= i < |active| ==> active[i] == all[i];
    assert forall i :: 0 <= i < |live| ==> live[i] == all[|active| + i];
    forall x, y | x in active && y in live
      ensures x.tokenId != y.tokenId
    {
      var p :| 0 <= p < |active| && active[p] == x;
      var q :| 0 <= q < |live| && live[q] == y;
      assert all[p] == x && all[|active| + q] == y;
    }
  }

  lemma SnapshotLoads(active: seq<Snap>, live: seq<Snap>, ek: EpochKey)
    requires SnapshotOk(active, live, ek)
    ensures var m := Snapshot(active, live, ek);
      && OneKeyPerToken(m)
      && |OfKind(m, Active)| == |active| && |OfKind(m, Live)| == |live|
      && (forall key :: key in m ==> EpochOf(key) == ek && ListedIn(active + live, key, m[key]))
  {
    var a, v := Loaded(active, Active, ek), Loaded(live, Live, ek);
    assert forall x :: x in active || x in live ==> x.Snap?;
    hide BatchOk, Distinct, Loaded;
    AcrossDistinct(active, live, ek);
    LoadedFacts(active, Active, ek);
    LoadedFacts(live, Live, ek);
    MergeLoaded(a, v, active, live);
    hide OneKeyPerToken, ListedIn;
    assert OfKind(a, Live) == {} && OfKind(v, Active) == {};
    MergeCount(a, v, Active);
    MergeCount(a, v, Live);
  }

  lemma MergeLoaded(a: LeaseMap, v: LeaseMap, active: seq<Snap>, live: seq<Snap>)
    requires OneKeyPerToken(a) && OneKeyPerToken(v)
    requires forall key :: key in a ==> key.kind == Active && ListedIn(active, key, a[key])
    requires forall key :: key in v ==> key.kind == Live && ListedIn(live, key, v[key])
    requires forall x :: x in active || x in live ==> x.Snap?
    requires forall x, y :: x in active && y in live ==> x.tokenId != y.tokenId
    ensures OneKeyPerToken(a + v)
    ensures forall key :: key in a + v ==> ListedIn(active + live, key, (a + v)[key])
  {
    assert forall s :: s in active || s in live ==> s in active + live;
    forall j, k | j in a && k in v ensures a[j] != v[k] {
      assert ListedIn(active, j, a[j]) && ListedIn(live, k, v[k]);
    }
  }

  lemma SeparateEpochs(rest: LeaseMap, m: LeaseMap, ek: EpochKey)
    requires OneKeyPerToken(rest) && OneKeyPerToken(m)
    requires forall key :: key in rest ==> EpochOf(key) != ek
    requires forall key :: key in m ==> EpochOf(key) == ek
    ensures OneKeyPerToken(rest + m)
  {
  }

  lemma RegisterLoads(active: seq<Snap>, live: seq<Snap>, ek: EpochKey, rest: LeaseMap)
    requires SnapshotOk(active, live, ek) && OneKeyPerToken(rest)
    requires forall key :: key in rest ==> EpochOf(key) != ek
    ensures var m := rest + Snapshot(active, live, ek);
      && OneKeyPerToken(m)
      && |OfKind(m, Active)| == |OfKind(rest, Active)| + |active|
      && |OfKind(m, Live)| == |OfKind(rest, Live)| + |live|
  {
    SnapshotLoads(active, live, ek);
    var n := Snapshot(active, live, ek);
    SeparateEpochs(rest, n, ek);
    MergeCount(rest, n, Active);
    MergeCount(rest, n, Live);
  }

  // ---- whole runs -------------------------------------------------------------------------------

  datatype Op =
    | OpAcquire(base: BaseKey, kinds: set<Kind>, rid: Option<Rid>, newTokens: NewTokens)
    | OpRelease(ek: EpochKey, token: TokenId, rid: Option<Rid>)
    | OpReleaseEpoch(ek: EpochKey)
    | OpRegister(ek: EpochKey, snapRid: Rid, active: seq<Snap>, live: seq<Snap>)
    | OpSetReconciliationId(newRid: Rid)

  function Apply(l: Ledger, lim: Limits, op: Op): Ledger {
    match op
    case OpAcquire(base, kinds, rid, newTokens) => Acquire(l, lim, base, kinds, rid, newTokens).0
    case OpRelease(ek, t, rid) => Release(l, ek, t, rid).0
    case OpReleaseEpoch(ek) => ReleaseEpoch(l, ek)
    case OpRegister(ek, rid, active, live) => Register(l, lim, ek, rid, active, live).0
    case OpSetReconciliationId(rid) => SetReconciliationId(l, rid)
  }

  function Run(l: Ledger, lim: Limits, ops: seq<Op>): Ledger
    decreases |ops|
  {
    if ops == [] then l else Run(Apply(l, lim, ops[0]), lim, ops[1..])
  }

  // Token ids drawn along the run are new in their epoch.
  predicate DrawsNew(l: Ledger, lim: Limits, ops: seq<Op>)
    decreases |ops|
  {
    ops != [] ==>
      && (ops[0].OpAcquire? ==> NewIn(l, EpochKey(ops[0].base.gen, ops[0].base.epoch), ops[0].newTokens))
      && DrawsNew(Apply(l, lim, ops[0]), lim, ops[1..])
  }

  // No run of lease operations exceeds the limits or lets a token hold two keys of an epoch.
  lemma {:induction false} RunKeeps(l: Ledger, lim: Limits, ops: seq<Op>)
    requires LedgerOk(l, lim) && DrawsNew(l, lim, ops)
    ensures LedgerOk(Run(l, lim, ops), lim)
    decreases |ops|
  {
    if ops != [] {
      match ops[0] {
        case OpAcquire(base, kinds, rid, newTokens) => AcquireKeeps(l, lim, base, kinds, rid, newTokens);
        case OpRelease(ek, t, rid) => RemovalKeeps(l, lim, HeldBy(l.leases, ek, t));
        case OpReleaseEpoch(ek) => RemovalKeeps(l, lim, InEpoch(l.leases, ek));
        case OpRegister(ek, rid, active, live) => RegisterKeeps(l, lim, ek, rid, active, live);
        case OpSetReconciliationId(rid) =>
      }
      RunKeeps(Apply(l, lim, ops[0]), lim, ops[1..]);
    }
  }

  // What a refused acquire or registration leaves behind: every lease and every registration.
  lemma RefusalChangesNothing(l: Ledger, lim: Limits, base: BaseKey, kinds: set<Kind>, rid: Option<Rid>,
                              newTokens: NewTokens, ek: EpochKey, snapRid: Rid, active: seq<Snap>, live: seq<Snap>)
    ensures var (l', r) := Acquire(l, lim, base, kinds, rid, newTokens);
      r.Err? ==> l'.leases == l.leases && l'.reconciled == l.reconciled && l'.rid == l.rid
    ensures var (l', r) := Register(l, lim, ek, snapRid, active, live);
      r.Err? ==> l'.leases == l.leases && l'.reconciled == l.reconciled && l'.rid == l.rid
  {
  }

  predicate OnlyAcquires(ops: seq<Op>) {
    forall op :: op in ops ==> op.OpAcquire?
  }

  lemma {:induction false} AcquiresKeepLeases(l: Ledger, lim: Limits, ops: seq<Op>)
    requires OnlyAcquires(ops)
    ensures var l' := Run(l, lim, ops);
      && l'.rid == l.rid && l'.reconciled == l.reconciled
      && forall key :: key in l.leases ==> key in l'.leases && l'.leases[key] == l.leases[key]
    decreases |ops|
  {
    if ops != [] {
      assert ops[0] in ops;
      AcquiresKeepLeases(Apply(l, lim, ops[0]), lim, ops[1..]);
    }
  }

  // Asking again for a kind-key that was granted answers the same token, marked as not new, whatever
  // was acquired in between and however full the service is.
  lemma ReacquireReturnsSame(l: Ledger, lim: Limits, base: BaseKey, kinds: set<Kind>, rid: Option<Rid>,
                             newTokens: NewTokens, between: seq<Op>, k: Kind, again: NewTokens)
    requires OnlyAcquires(between) && k in kinds
    requires Acquire(l, lim, base, kinds, rid, newTokens).1.Ok?
    ensures var (l1, first) := Acquire(l, lim, base, kinds, rid, newTokens);
      Acquire(Run(l1, lim, between), lim, base, {k}, rid, again).1
        == Ok(map[k := Grant(first.value[k].tokenId, false)])
  {
    var (l1, first) := Acquire(l, lim, base, kinds, rid, newTokens);
    var l2 := Run(l1, lim, between);
    AcquiresKeepLeases(l1, lim, between);
    assert k in first.value;
    assert KeyFor(base, k) in l1.leases && l1.leases[KeyFor(base, k)] == first.value[k].tokenId;
    var second := Acquire(l2, lim, base, {k}, rid, again).1;
    assert Reconciled(l2, EpochKey(base.gen, base.epoch));
    assert !Blocked(l2, lim, KeyFor(base, k));
    assert Active in {k} <==> k == Active;
    assert Live in {k} <==> k == Live;
    assert second.Ok?;
    assert second.value == map[k := Grant(first.value[k].tokenId, false)];
  }

  // A token is freed once: the first release by a registered epoch takes exactly its lease away, and a
  // repetition, whatever was acquired or registered elsewhere, answers that there was nothing to free.
  lemma ReleaseIsOnce(l: Ledger, lim: Limits, ek: EpochKey, t: TokenId)
    requires LedgerOk(l, lim) && Reconciled(l, ek)
    ensures var (l1, first) := Release(l, ek, t, Some(l.rid));
      && first.Ok? && (first.value <==> exists key :: key in l.leases && EpochOf(key) == ek && l.leases[key] == t)
      && |l1.leases| == |l.leases| - (if first.value then 1 else 0)
      && Release(l1, ek, t, Some(l.rid)) == (l1, Ok(false))
  {
    var gone := HeldBy(l.leases, ek, t);
    var (l1, first) := Release(l, ek, t, Some(l.rid));
    assert HeldBy(l1.leases, ek, t) == {};
    assert l1.leases - {} == l1.leases;
    if gone != {} {
      var key :| key in gone;
      assert gone == {key};
      assert l1.leases.Keys == l.leases.Keys - {key};
    } else {
      assert l1.leases == l.leases;
    }
  }

  // ---- what each operation answers, and what it leaves alone ------------------------------------------

  // A release takes away exactly what its token holds in its epoch, and answers whether that was anything.
  lemma ReleaseAnswers(l: Ledger, ek: EpochKey, t: TokenId, rid: Option<Rid>)
    ensures var (l', r) := Release(l, ek, t, rid);
      && (r.Ok? <==> rid == Some(l.rid) && Reconciled(l, ek))
      && (r == Err(StaleReconciliationId) <==> rid != Some(l.rid))
      && (r == Err(Rebuilding) <==> rid == Some(l.rid) && !Reconciled(l, ek))
      && (r.Ok? ==> (r.value <==> exists key :: EpochOf(key) == ek && Lookup(l.leases, key) == Some(t)))
      && (forall key :: Lookup(l'.leases, key) ==
            if r.Ok? && EpochOf(key) == ek && Lookup(l.leases, key) == Some(t) then None else Lookup(l.leases, key))
      && l'.rid == l.rid && l'.reconciled == l.reconciled
  {
    var gone := HeldBy(l.leases, ek, t);
    assert forall key :: key in gone <==> EpochOf(key) == ek && Lookup(l.leases, key) == Some(t);
    if gone != {} {
      var key :| key in gone;
    }
  }

  // An acquire is granted exactly when the caller and the epoch are registered and every kind is held
  // already or has room; then each kind is held under the caller's key, and nothing else changed.  A
  // refusal names the first of these that fails.
  lemma AcquireAnswers(l: Ledger, lim: Limits, base: BaseKey, kinds: set<Kind>, rid: Option<Rid>,
                       newTokens: NewTokens)
    requires NewIn(l, EpochKey(base.gen, base.epoch), newTokens)
    ensures var (l', r) := Acquire(l, lim, base, kinds, rid, newTokens);
      && (r.Ok? <==> (rid == Some(l.rid) && Reconciled(l, EpochKey(base.gen, base.epoch))
            && forall k :: k in kinds ==> KeyFor(base, k) in l.leases || Count(l, k) < lim.Of(k)))
      && (r.Ok? ==> r.value.Keys == kinds && forall k :: k in kinds ==>
            && KeyFor(base, k) in l'.leases && l'.leases[KeyFor(base, k)] == r.value[k].tokenId
            && (r.value[k].isNew <==> KeyFor(base, k) !in l.leases)
            && (r.value[k].isNew ==> HeldBy(l.leases, EpochKey(base.gen, base.epoch), r.value[k].tokenId) == {}))
      && (r.Ok? ==> forall key ::
            key in l'.leases <==> key in l.leases || (key.kind in kinds && key == KeyFor(base, key.kind)))
      && (forall key :: key in l.leases ==> key in l'.leases && l'.leases[key] == l.leases[key])
      && (r == Err(StaleReconciliationId) <==> rid != Some(l.rid))
      && (r == Err(Rebuilding) <==> rid == Some(l.rid) && !Reconciled(l, EpochKey(base.gen, base.epoch)))
      && r != Err(InvalidRequest)
      && l'.rid == l.rid && l'.reconciled == l.reconciled
  {
    var ek := EpochKey(base.gen, base.epoch);
    assert HeldBy(l.leases, ek, newTokens.Of(Active)) == {} && HeldBy(l.leases, ek, newTokens.Of(Live)) == {};
    forall k | k in kinds ensures k == Active || k == Live { }
  }

  lemma {:induction false} ListedIsLoaded(entries: seq<Snap>, kind: Kind, ek: EpochKey, s: Snap)
    requires BatchOk(entries, kind, ek) && Distinct(entries) && s in entries
    ensures var m := Loaded(entries, kind, ek);
      StoredKey(s) in m && m[StoredKey(s)] == s.tokenId.value
    decreases |entries|
  {
    var n := |entries| - 1;
    if s != entries[n] {
      var i :| 0 <= i < |entries| && entries[i] == s;
      assert entries[..n][i] == s;
      ListedIsLoaded(entries[..n], kind, ek, s);
      assert s.key != entries[n].key;
    }
  }

  lemma SnapshotIsListed(active: seq<Snap>, live: seq<Snap>, ek: EpochKey, key: Key, t: TokenId)
    requires SnapshotOk(active, live, ek)
    ensures key in Snapshot(active, live, ek) && Snapshot(active, live, ek)[key] == t
       <==> ListedIn(active + live, key, t)
  {
    SnapshotLoads(active, live, ek);
    AcrossDistinct(active, live, ek);
    if ListedIn(active + live, key, t) {
      var s :| s in active + live && s.Snap? && s.tokenId == Some(t)
        && s.key == Some(RawKey(key.gen, key.epoch, key.session, Some(key.activation), Some(key.kind)));
      if s in live {
        ListedIsLoaded(live, Live, ek, s);
      } else {
        ListedIsLoaded(active, Active, ek, s);
        LoadedFacts(live, Live, ek);
      }
      assert key == StoredKey(s);
    }
  }

  // ---- what a well-formed snapshot is -------------------------------------------------------------------

  function SnapOf(key: Key, t: TokenId): Snap {
    Snap(Some(t), Some(RawKey(key.gen, key.epoch, key.session, Some(key.activation), Some(key.kind))))
  }

  // The entries list the leases of one kind, each once, and nothing else.
  ghost predicate ListsKind(entries: seq<Snap>, m: LeaseMap, kind: Kind) {
    && (forall i, j :: 0 <= i < j < |entries| ==> entries[i] != entries[j])
    && (forall s :: s in entries ==> exists key :: key in m && key.kind == kind && s == SnapOf(key, m[key]))
    && (forall key :: key in m && key.kind == kind ==> SnapOf(key, m[key]) in entries)
  }

  // Leases that an epoch can hold, listed by kind.
  ghost predicate ListsLeases(active: seq<Snap>, live: seq<Snap>, ek: EpochKey, m: LeaseMap) {
    && OneKeyPerToken(m) && (forall key :: key in m ==> EpochOf(key) == ek)
    && ListsKind(active, m, Active) && ListsKind(live, m, Live)
  }

  // A snapshot passes validation exactly when it lists, each once and by kind, leases the epoch can hold.
  lemma WellFormedExactlyWhenItListsLeases(active: seq<Snap>, live: seq<Snap>, ek: EpochKey)
    ensures SnapshotOk(active, live, ek) <==> exists m :: ListsLeases(active, live, ek, m)
  {
    if SnapshotOk(active, live, ek) {
      SnapshotLoads(active, live, ek);
      ListedAlone(active, live, ek, active, Active);
      ListedAlone(active, live, ek, live, Live);
      assert ListsLeases(active, live, ek, Snapshot(active, live, ek));
    }
    if m :| ListsLeases(active, live, ek, m) {
      ListedOk(active, m, Active, ek);
      ListedOk(live, m, Live, ek);
      ListedDistinct(active, live, m, ek);
    }
  }

  lemma ListedAlone(active: seq<Snap>, live: seq<Snap>, ek: EpochKey, entries: seq<Snap>, kind: Kind)
    requires SnapshotOk(active, live, ek) && entries == (if kind == Active then active else live)
    ensures ListsKind(entries, Snapshot(active, live, ek), kind)
  {
    var all, m := active + live, Snapshot(active, live, ek);
    assert forall s :: s in all <==> s in active || s in live;
    AcrossDistinct(active, live, ek);
    forall s | s in entries ensures exists key :: key in m && key.kind == kind && s == SnapOf(key, m[key]) {
      var key := StoredKey(s);
      assert ListedIn(all, key, s.tokenId.value);
      SnapshotIsListed(active, live, ek, key, s.tokenId.value);
      assert key in m && s == SnapOf(key, m[key]);
    }
    forall key | key in m && key.kind == kind ensures SnapOf(key, m[key]) in entries {
      SnapshotIsListed(active, live, ek, key, m[key]);
      assert SnapOf(key, m[key]) in all;
    }
  }

  lemma ListedOk(entries: seq<Snap>, m: LeaseMap, kind: Kind, ek: EpochKey)
    requires ListsKind(entries, m, kind) && forall key :: key in m ==> EpochOf(key) == ek
    ensures BatchOk(entries, kind, ek)
  {
    forall i | 0 <= i < |entries| ensures SnapOk(entries[i], kind, ek) {
      assert entries[i] in entries;
      var key :| key in m && key.kind == kind && entries[i] == SnapOf(key, m[key]);
    }
  }

  lemma ListedDistinct(active: seq<Snap>, live: seq<Snap>, m: LeaseMap, ek: EpochKey)
    requires ListsLeases(active, live, ek, m) && BatchOk(active, Active, ek) && BatchOk(live, Live, ek)
    ensures Distinct(active + live)
  {
    var all := active + live;
    forall i, j | 0 <= i < j < |all| ensures all[i].tokenId != all[j].tokenId && all[i].key != all[j].key {
      var a := LeaseOf(active, live, ek, m, i);
      var b := LeaseOf(active, live, ek, m, j);
      assert a != b;
    }
  }

  lemma LeaseOf(active: seq<Snap>, live: seq<Snap>, ek: EpochKey, m: LeaseMap, i: nat) returns (key: Key)
    requires ListsLeases(active, live, ek, m) && i < |active + live|
    ensures key in m && (active + live)[i] == SnapOf(key, m[key])
    ensures key.kind == if i < |active| then Active else Live
  {
    var s, kind := (active + live)[i], if i < |active| then Active else Live;
    assert s in (if i < |active| then active else live);
    key :| key in m && key.kind == kind && s == SnapOf(key, m[key]);
  }

  // A registration is accepted exactly when it comes under the current id and the epoch is registered
  // already, or its snapshot is well formed and fits beside the other epochs.  An epoch that was not
  // registered then holds exactly what the snapshot lists; no other epoch is touched.  A refusal names
  // the first of these that fails.
  lemma RegisterAnswers(l: Ledger, lim: Limits, ek: EpochKey, rid: Rid, active: seq<Snap>, live: seq<Snap>)
    ensures var (l', r) := Register(l, lim, ek, rid, active, live);
      var rest := l.leases - InEpoch(l.leases, ek);
      && (r.Ok? <==> (rid == l.rid && (Reconciled(l, ek) || (SnapshotOk(active, live, ek)
            && |OfKind(rest, Active)| + |active| <= lim.active && |OfKind(rest, Live)| + |live| <= lim.live))))
      && (r.Ok? ==> r.value == l.rid && Reconciled(l', ek))
      && (r.Err? || Reconciled(l, ek) ==> l'.leases == l.leases)
      && (r.Ok? && !Reconciled(l, ek) ==> forall key, t ::
            (key in l'.leases && l'.leases[key] == t && EpochOf(key) == ek) <==> ListedIn(active + live, key, t))
      && (forall key :: EpochOf(key) != ek ==> Lookup(l'.leases, key) == Lookup(l.leases, key))
      && (forall other :: other != ek || r.Err? ==> Lookup(l'.reconciled, other) == Lookup(l.reconciled, other))
      && (r == Err(StaleReconciliationId) <==> rid != l.rid)
      && (r == Err(InvalidRequest) <==> rid == l.rid && !Reconciled(l, ek) && !SnapshotOk(active, live, ek))
      && r != Err(Rebuilding) && l'.rid == l.rid
  {
    var (l', r) := Register(l, lim, ek, rid, active, live);
    if r.Ok? && !Reconciled(l, ek) {
      var m := Snapshot(active, live, ek);
      SnapshotLoads(active, live, ek);
      forall key, t
        ensures (key in l'.leases && l'.leases[key] == t && EpochOf(key) == ek) <==> ListedIn(active + live, key, t)
      {
        SnapshotIsListed(active, live, ek, key, t);
      }
    }
  }

  // Releasing an epoch leaves it nothing, and every other epoch what it had.
  lemma ReleaseEpochAnswers(l: Ledger, ek: EpochKey, key: Key)
    ensures Lookup(ReleaseEpoch(l, ek).leases, key) == if EpochOf(key) == ek then None else Lookup(l.leases, key)
    ensures ReleaseEpoch(ReleaseEpoch(l, ek), ek) == ReleaseEpoch(l, ek)
  {
    var once := ReleaseEpoch(l, ek);
    assert InEpoch(once.leases, ek) == {};
    assert once.leases - {} == once.leases;
  }
}
