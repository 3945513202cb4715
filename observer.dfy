/**
 * The state observer: every poll it fingerprints each spawned bot's state
 * (status, position rounded to tenths, health, food, inventory) and emits
 * the state only when the fingerprint differs from the cached one; then it
 * drops cached fingerprints of bots the manager no longer has.
 *
 * Positions are exact reals; `toFixed(1)` is modelled as rounding the
 * magnitude to the nearest tenth, halves upward, with a `-` kept for every
 * negative input (so -0.04 renders as "-0.0").
 */
module Observer {
  import opened Common
  import opened Model

  // ---------------------------------------------------------------------------
  // Fingerprints
  // ---------------------------------------------------------------------------

  /** The magnitude of `x` in tenths, rounded to nearest, halves away from zero. */
  function Tenths(x: real): nat {
    var m := if x < 0.0 then -x else x;
    var r := (m * 10.0 + 0.5).Floor;
    assert r >= 0;
    r
  }

  /** `x.toFixed(1)`. */
  function Fixed1(x: real): (s: string)
    ensures |s| > 0 && (s[0] == '-' || IsDigit(s[0]))
  {
    var n := Tenths(x);
    (if x < 0.0 then "-" else "") + (NatToString(n / 10) + ("." + [DigitChar(n % 10)]))
  }

  /** Two coordinates that render alike: same sign and same rounded magnitude. */
  predicate SameFixed1(x: real, y: real) {
    (x < 0.0) == (y < 0.0) && Tenths(x) == Tenths(y)
  }

  /** The characters `toFixed(1)` can produce. */
  predicate FixedChar(c: char) {
    c == '-' || c == '.' || IsDigit(c)
  }

  lemma Fixed1Chars(x: real)
    ensures forall k :: 0 <= k < |Fixed1(x)| ==> FixedChar(Fixed1(x)[k])
  {
    var n := Tenths(x);
    var digits := NatToString(n / 10);
    var s := (if x < 0.0 then "-" else "") + (digits + ("." + [DigitChar(n % 10)]));
    forall k | 0 <= k < |s| ensures FixedChar(s[k]) {
      var lead := if x < 0.0 then 1 else 0;
      if lead <= k < lead + |digits| {
        assert s[k] == digits[k - lead];
      }
    }
  }

  /** `toFixed(1)` texts are equal exactly when sign and rounded magnitude agree. */
  lemma Fixed1Injective(x: real, y: real)
    ensures Fixed1(x) == Fixed1(y) <==> SameFixed1(x, y)
  {
    if Fixed1(x) == Fixed1(y) {
      var n, m := Tenths(x), Tenths(y);
      var dx, dy := NatToString(n / 10), NatToString(m / 10);
      var tx, ty := "." + [DigitChar(n % 10)], "." + [DigitChar(m % 10)];
      var sx, sy := (if x < 0.0 then "-" else ""), (if y < 0.0 then "-" else "");
      assert (x < 0.0) == (y < 0.0) by {
        assert (dx + tx)[0] == dx[0] && (dy + ty)[0] == dy[0];
      }
      assert dx + tx == Fixed1(x)[|sx|..] == Fixed1(y)[|sy|..] == dy + ty;
      NatToStringAvoids(n / 10, '.');
      NatToStringAvoids(m / 10, '.');
      SplitUnique(dx, tx, dy, ty, '.');
      NatToStringInjective(n / 10, m / 10);
      assert DigitChar(n % 10) == tx[1] == ty[1] == DigitChar(m % 10);
      DigitRoundTrip(n % 10);
      DigitRoundTrip(m % 10);
    }
  }

  /** The position part of a fingerprint; "null" when the bot has no position. */
  function PositionKey(p: Option<Vec3>): string {
    match p
    case None => "null"
    case Some(v) => Fixed1(v.x) + ("," + (Fixed1(v.y) + ("," + Fixed1(v.z))))
  }

  /** Two positions that key alike: both absent, or alike in each coordinate. */
  predicate SamePosition(p: Option<Vec3>, q: Option<Vec3>) {
    match (p, q)
    case (None, None) => true
    case (Some(a), Some(b)) => SameFixed1(a.x, b.x) && SameFixed1(a.y, b.y) && SameFixed1(a.z, b.z)
    case _ => false
  }

  /** Position keys are equal exactly when the positions are alike; "null" equals no coordinate key. */
  lemma {:induction false} PositionKeyInjective(p: Option<Vec3>, q: Option<Vec3>)
    ensures PositionKey(p) == PositionKey(q) <==> SamePosition(p, q)
  {
    match (p, q)
    case (None, None) =>
    case (Some(a), None) =>
      assert PositionKey(p)[0] != 'n';
    case (None, Some(b)) =>
      assert PositionKey(q)[0] != 'n';
    case (Some(a), Some(b)) =>
      Fixed1Injective(a.x, b.x);
      Fixed1Injective(a.y, b.y);
      Fixed1Injective(a.z, b.z);
      if PositionKey(p) == PositionKey(q) {
        Fixed1Chars(a.x);
        Fixed1Chars(b.x);
        Fixed1Chars(a.y);
        Fixed1Chars(b.y);
        Split3(Fixed1(a.x), Fixed1(a.y), Fixed1(a.z), Fixed1(b.x), Fixed1(b.y), Fixed1(b.z), ',');
      }
  }

  /** Three parts joined by a separator none of the first two contains come apart again. */
  lemma Split3(a1: string, a2: string, a3: string, b1: string, b2: string, b3: string, c: char)
    requires c !in a1 && c !in a2 && c !in b1 && c !in b2
    requires a1 + ([c] + (a2 + ([c] + a3))) == b1 + ([c] + (b2 + ([c] + b3)))
    ensures a1 == b1 && a2 == b2 && a3 == b3
  {
    var ra, rb := [c] + (a2 + ([c] + a3)), [c] + (b2 + ([c] + b3));
    SplitUnique(a1, ra, b1, rb, c);
    assert ra[1..] == a2 + ([c] + a3);
    assert rb[1..] == b2 + ([c] + b3);
    SplitUnique(a2, [c] + a3, b2, [c] + b3, c);
    assert a3 == ([c] + a3)[1..];
    assert b3 == ([c] + b3)[1..];
  }

  /** One inventory entry, `slot:name:count`. */
  function SlotEntry(s: InventorySlot): string {
    IntToString(s.slot) + (":" + (s.name + (":" + IntToString(s.count))))
  }

  function Entries(inv: seq<InventorySlot>): (r: seq<string>)
    ensures |r| == |inv|
    ensures forall i :: 0 <= i < |inv| ==> r[i] == SlotEntry(inv[i])
  {
    if inv == [] then [] else [SlotEntry(inv[0])] + Entries(inv[1..])
  }

  /** The inventory part of a fingerprint: the entries in inventory order joined by `|`. */
  function InventoryHash(inv: seq<InventorySlot>): (h: string)
    ensures inv == [] ==> h == ""
  {
    Join(Entries(inv), "|")
  }

  /** Item names free of the two separators the hash uses. */
  predicate CleanNames(inv: seq<InventorySlot>) {
    forall i :: 0 <= i < |inv| ==> ':' !in inv[i].name && '|' !in inv[i].name
  }

  lemma SlotEntryShape(s: InventorySlot)
    requires ':' !in s.name && '|' !in s.name
    ensures SlotEntry(s) != [] && '|' !in SlotEntry(s)
  {
    IntToStringAvoids(s.slot, '|');
    IntToStringAvoids(s.count, '|');
  }

  lemma SlotEntryInjective(s: InventorySlot, t: InventorySlot)
    requires ':' !in s.name && ':' !in t.name
    requires SlotEntry(s) == SlotEntry(t)
    ensures s == t
  {
    IntToStringAvoids(s.slot, ':');
    IntToStringAvoids(t.slot, ':');
    Split3(IntToString(s.slot), s.name, IntToString(s.count), IntToString(t.slot), t.name, IntToString(t.count), ':');
    IntToStringInjective(s.slot, t.slot);
    IntToStringInjective(s.count, t.count);
  }

  /**
   * With separator-free names the hash determines the inventory: a change
   * in any slot, name, count, in the order or in the number of entries
   * changes the hash.
   */
  lemma InventoryHashInjective(a: seq<InventorySlot>, b: seq<InventorySlot>)
    requires CleanNames(a) && CleanNames(b)
    ensures InventoryHash(a) == InventoryHash(b) <==> a == b
  {
    if InventoryHash(a) == InventoryHash(b) {
      var ea, eb := Entries(a), Entries(b);
      forall i | 0 <= i < |ea| ensures ea[i] != [] && '|' !in ea[i] {
        SlotEntryShape(a[i]);
      }
      forall i | 0 <= i < |eb| ensures eb[i] != [] && '|' !in eb[i] {
        SlotEntryShape(b[i]);
      }
      JoinInjective(ea, eb, '|');
      forall i | 0 <= i < |a| ensures a[i] == b[i] {
        SlotEntryInjective(a[i], b[i]);
      }
    }
  }

  /** The documented example: two stacks hash to `0:diamond:3|1:stone:64`. */
  lemma InventoryHashExample()
    ensures InventoryHash([InventorySlot(0, "diamond", 3), InventorySlot(1, "stone", 64)]) == "0:diamond:3|1:stone:64"
  {
    var inv := [InventorySlot(0, "diamond", 3), InventorySlot(1, "stone", 64)];
    assert NatToString(64) == "64";
    assert SlotEntry(inv[0]) == "0:diamond:3";
    assert SlotEntry(inv[1]) == "1:stone:64";
    assert Entries(inv) == ["0:diamond:3", "1:stone:64"];
    assert Join(["1:stone:64"], "|") == "1:stone:64";
  }

  /** The documented rounding example. */
  lemma PositionKeyExample()
    ensures PositionKey(Some(Vec3(10.123, 64.789, -20.456))) == "10.1,64.8,-20.5"
  {
    Fixed1Positive();
    Fixed1Negative();
  }

  lemma Fixed1Positive()
    ensures Fixed1(10.123) == "10.1" && Fixed1(64.789) == "64.8"
  {
    Fixed1Example(10.123, 101, 10, "10", '1');
    Fixed1Example(64.789, 648, 64, "64", '8');
  }

  lemma Fixed1Negative()
    ensures Fixed1(-20.456) == "-20.5"
  {
    Fixed1Example(-20.456, 205, 20, "20", '5');
  }

  lemma Fixed1Example(x: real, tenths: nat, whole: nat, digits: string, d: char)
    requires Tenths(x) == tenths && tenths / 10 == whole && NatToString(whole) == digits
    requires tenths % 10 < 10 && DigitChar(tenths % 10) == d
    ensures Fixed1(x) == (if x < 0.0 then "-" else "") + digits + "." + [d]
  {
  }

  /**
   * Rounding does not absorb all sub-block jitter: 0.04 and 0.06 are 0.02
   * apart yet key differently, and so do 0.01 and -0.01 (the second keeps
   * its minus sign).
   */
  lemma RoundingBoundaries()
    ensures Fixed1(0.04) != Fixed1(0.06)
    ensures Fixed1(0.01) != Fixed1(-0.01)
    ensures Fixed1(10.01) == Fixed1(10.0)
  {
    Fixed1Injective(0.04, 0.06);
    Fixed1Injective(0.01, -0.01);
    Fixed1Injective(10.01, 10.0);
    assert Tenths(0.04) == 0 && Tenths(0.06) == 1;
    assert Tenths(10.01) == 100 && Tenths(10.0) == 100;
  }

  datatype Snapshot = Snapshot(
    status: string,
    positionKey: string,
    health: Option<real>,
    food: Option<real>,
    inventoryHash: string)

  function ToSnapshot(s: BotState): (r: Snapshot)
    ensures r.status == StatusName(s.status) && r.health == s.health && r.food == s.food
  {
    Snapshot(StatusName(s.status), PositionKey(s.position), s.health, s.food, InventoryHash(s.inventory))
  }

  function HasChanged(prev: Snapshot, next: Snapshot): bool {
    prev.status != next.status || prev.positionKey != next.positionKey
      || prev.health != next.health || prev.food != next.food
      || prev.inventoryHash != next.inventoryHash
  }

  /** A change is exactly a different snapshot; in particular nothing has changed against itself. */
  lemma HasChangedIsDifference(prev: Snapshot, next: Snapshot)
    ensures HasChanged(prev, next) <==> prev != next
    ensures !HasChanged(prev, prev)
  {
  }

  /**
   * Between two states of bots with separator-free item names, a change
   * is detected exactly when the status, the position (to a tenth, sign
   * included), the health, the food or the inventory differs.
   */
  lemma ChangeDetection(a: BotState, b: BotState)
    requires CleanNames(a.inventory) && CleanNames(b.inventory)
    ensures !HasChanged(ToSnapshot(a), ToSnapshot(b)) <==>
      (&& a.status == b.status && SamePosition(a.position, b.position)
       && a.health == b.health && a.food == b.food && a.inventory == b.inventory)
  {
    StatusRoundTrip(a.status);
    StatusRoundTrip(b.status);
    PositionKeyInjective(a.position, b.position);
    InventoryHashInjective(a.inventory, b.inventory);
  }

  // ---------------------------------------------------------------------------
  // Poll tick
  // ---------------------------------------------------------------------------

  /** Whether a poll emits `s`, given the cached snapshots. */
  predicate ShouldEmit(cache: map<string, Snapshot>, s: BotState) {
    s.status == Spawned && (s.botId !in cache || HasChanged(cache[s.botId], ToSnapshot(s)))
  }

  /** The cache after the first loop of a poll over `states`, in order. */
  function CacheAfter(cache: map<string, Snapshot>, states: seq<BotState>): map<string, Snapshot>
    decreases |states|
  {
    if states == [] then cache
    else
      var c := CacheAfter(cache, states[..|states| - 1]);
      var s := states[|states| - 1];
      if ShouldEmit(c, s) then c[s.botId := ToSnapshot(s)] else c
  }

  /** The states the first loop of a poll emits, in order. */
  function EmitsAfter(cache: map<string, Snapshot>, states: seq<BotState>): seq<BotState>
    decreases |states|
  {
    if states == [] then []
    else
      var c := CacheAfter(cache, states[..|states| - 1]);
      var s := states[|states| - 1];
      EmitsAfter(cache, states[..|states| - 1]) + (if ShouldEmit(c, s) then [s] else [])
  }

  /** The cache restricted to bots the manager still has. */
  function Purged(cache: map<string, Snapshot>, present: set<string>): (r: map<string, Snapshot>)
    ensures r.Keys <= present && r.Keys <= cache.Keys
    ensures forall k :: k in r ==> r[k] == cache[k]
    ensures forall k :: k in cache && k in present ==> k in r
  {
    map k | k in cache && k in present :: cache[k]
  }

  predicate DistinctIds(states: seq<BotState>) {
    forall i, j :: 0 <= i < j < |states| ==> states[i].botId != states[j].botId
  }

  /** The order-free reading of a poll: the states that differ from the cache as it was before the poll. */
  function Filter(cache: map<string, Snapshot>, states: seq<BotState>): seq<BotState>
    decreases |states|
  {
    if states == [] then []
    else Filter(cache, states[..|states| - 1]) + (if ShouldEmit(cache, states[|states| - 1]) then [states[|states| - 1]] else [])
  }

  /** The snapshots of the spawned states, a later state of the same bot overriding an earlier one. */
  function SpawnedSnapshots(states: seq<BotState>): (m: map<string, Snapshot>)
    ensures m.Keys <= SpawnedIds(states)
    decreases |states|
  {
    if states == [] then map[]
    else
      var m := SpawnedSnapshots(states[..|states| - 1]);
      var s := states[|states| - 1];
      assert SpawnedIds(states) == SpawnedIds(states[..|states| - 1]) + (if s.status == Spawned then {s.botId} else {}) by {
        assert states == states[..|states| - 1] + [s];
      }
      if s.status == Spawned then m[s.botId := ToSnapshot(s)] else m
  }

  /** The ids of the spawned states. */
  function SpawnedIds(states: seq<BotState>): set<string> {
    set i | 0 <= i < |states| && states[i].status == Spawned :: states[i].botId
  }

  /**
   * The first loop of a poll leaves the old cache overridden by the
   * snapshot of every spawned state: an unchanged state is not written,
   * but its cached snapshot already equals its snapshot.
   */
  lemma {:induction false} CacheAfterIsOverride(cache: map<string, Snapshot>, states: seq<BotState>)
    ensures CacheAfter(cache, states) == cache + SpawnedSnapshots(states)
    decreases |states|
  {
    if states != [] {
      var init := states[..|states| - 1];
      var s := states[|states| - 1];
      CacheAfterIsOverride(cache, init);
      var c := CacheAfter(cache, init);
      var m := SpawnedSnapshots(init);
      if s.status == Spawned {
        var snap := ToSnapshot(s);
        if !ShouldEmit(c, s) {
          HasChangedIsDifference(c[s.botId], snap);
          UpdateSame(c, s.botId, snap);
        }
        OverrideUpdate(cache, m, s.botId, snap);
      }
    }
  }

  lemma UpdateSame<K, V>(m: map<K, V>, k: K, v: V)
    requires k in m && m[k] == v
    ensures m[k := v] == m
  {
  }

  lemma OverrideUpdate<K, V>(a: map<K, V>, b: map<K, V>, k: K, v: V)
    ensures (a + b)[k := v] == a + b[k := v]
  {
  }

  /** With distinct ids, a poll decides each state against the cache from before the poll. */
  lemma {:induction false} EmitsAfterIsFilter(cache: map<string, Snapshot>, states: seq<BotState>)
    requires DistinctIds(states)
    ensures EmitsAfter(cache, states) == Filter(cache, states)
    decreases |states|
  {
    if states != [] {
      var init := states[..|states| - 1];
      var s := states[|states| - 1];
      assert DistinctIds(init);
      EmitsAfterIsFilter(cache, init);
      CacheAfterIsOverride(cache, init);
      assert s.botId !in SpawnedIds(init) by {
        forall i | 0 <= i < |init| ensures init[i].botId != s.botId {
          assert init[i] == states[i];
        }
      }
    }
  }

  /** With distinct ids, each spawned state's own snapshot is the one kept for its bot. */
  lemma {:induction false} SpawnedSnapshotsAt(states: seq<BotState>, i: int)
    requires DistinctIds(states)
    requires 0 <= i < |states| && states[i].status == Spawned
    ensures states[i].botId in SpawnedSnapshots(states)
    ensures SpawnedSnapshots(states)[states[i].botId] == ToSnapshot(states[i])
    decreases |states|
  {
    var init := states[..|states| - 1];
    if i < |states| - 1 {
      assert DistinctIds(init);
      assert init[i] == states[i];
      SpawnedSnapshotsAt(init, i);
    }
  }

  // ---------------------------------------------------------------------------
  // Observer
  // ---------------------------------------------------------------------------

  /**
   * The observer's module state: the cached snapshots, whether the poll
   * timer is armed, and the states emitted so far (the manager's
   * `bot-state-update` events). A poll is a call of `Tick` with the
   * manager's states and the set of bot ids it has.
   */
  class StateObserver {
    var previousSnapshots: map<string, Snapshot>
    var running: bool
    var emitted: seq<BotState>

    constructor()
      ensures previousSnapshots == map[] && !running && emitted == []
    {
      previousSnapshots := map[];
      running := false;
      emitted := [];
    }

    /** Arms the poll timer; a second start while running changes nothing. */
    method Start()
      modifies this
      ensures running
      ensures previousSnapshots == old(previousSnapshots) && emitted == old(emitted)
    {
      if running {
        return;
      }
      running := true;
    }

    /** Disarms the timer and forgets every snapshot; does nothing when not running. */
    method Stop()
      modifies this
      ensures !running && emitted == old(emitted)
      ensures previousSnapshots == if old(running) then map[] else old(previousSnapshots)
    {
      if running {
        running := false;
        previousSnapshots := map[];
      }
    }

    /** One poll: emit the changed spawned states, then drop snapshots of removed bots. */
    method Tick(states: seq<BotState>, present: set<string>)
      requires running
      modifies this
      ensures running
      ensures emitted == old(emitted) + EmitsAfter(old(previousSnapshots), states)
      ensures previousSnapshots == Purged(CacheAfter(old(previousSnapshots), states), present)
    {
      ghost var cache0 := previousSnapshots;
      var i := 0;
      while i < |states|
        invariant 0 <= i <= |states|
        invariant running
        invariant previousSnapshots == CacheAfter(cache0, states[..i])
        invariant emitted == old(emitted) + EmitsAfter(cache0, states[..i])
      {
        var state := states[i];
        assert states[..i + 1][..i] == states[..i];
        if state.status == Spawned {
          var next := ToSnapshot(state);
          if state.botId !in previousSnapshots || HasChanged(previousSnapshots[state.botId], next) {
            previousSnapshots := previousSnapshots[state.botId := next];
            emitted := emitted + [state];
          }
        }
        i := i + 1;
      }
      assert states[..|states|] == states;
      PurgeRemoved(present);
    }

    /** The second loop of a poll: deletes every cached snapshot whose bot is not present. */
    method PurgeRemoved(present: set<string>)
      modifies this
      ensures running == old(running) && emitted == old(emitted)
      ensures previousSnapshots == Purged(old(previousSnapshots), present)
    {
      var keys := previousSnapshots.Keys;
      while keys != {}
        invariant running == old(running) && emitted == old(emitted)
        invariant keys <= previousSnapshots.Keys <= old(previousSnapshots).Keys
        invariant forall k :: k in previousSnapshots ==> previousSnapshots[k] == old(previousSnapshots)[k]
        invariant forall k :: k in old(previousSnapshots) && k !in keys ==> (k in previousSnapshots <==> k in present)
        decreases keys
      {
        var botId :| botId in keys;
        if botId !in present {
          previousSnapshots := map k | k in previousSnapshots && k != botId :: previousSnapshots[k];
        }
        keys := keys - {botId};
      }
    }
  }

  /**
   * After a poll over the manager's states, every spawned bot the manager
   * has is cached with the snapshot of its current state; any other bot
   * keeps its old snapshot if the manager has it, and only bots the
   * manager has keep one.
   */
  lemma TickCache(cache: map<string, Snapshot>, states: seq<BotState>, present: set<string>)
    requires DistinctIds(states)
    ensures var c := Purged(CacheAfter(cache, states), present);
      && c.Keys <= present
      && (forall i :: 0 <= i < |states| && states[i].status == Spawned && states[i].botId in present ==>
            states[i].botId in c && c[states[i].botId] == ToSnapshot(states[i]))
      && (forall id :: id in present && id !in SpawnedIds(states) ==>
            (id in c <==> id in cache) && (id in c ==> c[id] == cache[id]))
  {
    CacheAfterIsOverride(cache, states);
    forall i | 0 <= i < |states| && states[i].status == Spawned
      ensures states[i].botId in SpawnedSnapshots(states) && SpawnedSnapshots(states)[states[i].botId] == ToSnapshot(states[i])
    {
      SpawnedSnapshotsAt(states, i);
    }
  }

  /** A poll emits exactly the states of spawned bots that are new to the cache or have changed. */
  lemma TickEmits(cache: map<string, Snapshot>, states: seq<BotState>, s: BotState)
    requires DistinctIds(states)
    ensures s in EmitsAfter(cache, states) <==> s in states && ShouldEmit(cache, s)
  {
    EmitsAfterIsFilter(cache, states);
    FilterMembers(cache, states, s);
  }

  lemma {:induction false} FilterMembers(cache: map<string, Snapshot>, states: seq<BotState>, s: BotState)
    ensures s in Filter(cache, states) <==> s in states && ShouldEmit(cache, s)
    decreases |states|
  {
    if states != [] {
      var init := states[..|states| - 1];
      FilterMembers(cache, init, s);
      assert states == init + [states[|states| - 1]];
    }
  }
}
