/**
 * Reconciliation of a fetched batch against the chain table: pick out the
 * entries whose id is not stored, save them, then update every entry whose
 * id is stored once the saves are done.
 */
module Detector {
  import opened Wrappers
  import opened ChainTypes
  import opened Database

  /** Batch entries whose id is absent from `ids`, in batch order. */
  function NewIn(batch: seq<Chain>, ids: set<int>): seq<Chain>
  {
    if batch == [] then []
    else
      var c := batch[|batch| - 1];
      NewIn(batch[..|batch| - 1], ids) + (if c.chain in ids then [] else [c])
  }

  /** Batch entries whose id is in `ids`, in batch order. */
  function ExistingIn(batch: seq<Chain>, ids: set<int>): seq<Chain>
  {
    if batch == [] then []
    else
      var c := batch[|batch| - 1];
      ExistingIn(batch[..|batch| - 1], ids) + (if c.chain in ids then [c] else [])
  }

  function Detections(chains: seq<Chain>, detectedAt: Time): (r: seq<NewChainDetection>)
    ensures |r| == |chains|
    ensures forall i :: 0 <= i < |r| ==> r[i] == NewChainDetection(chains[i], detectedAt)
  {
    seq(|chains|, i requires 0 <= i < |chains| => NewChainDetection(chains[i], detectedAt))
  }

  /** The chains of a list of detections, in the same order. */
  function ChainsOf(dets: seq<NewChainDetection>): (r: seq<Chain>)
    ensures |r| == |dets|
    ensures forall i :: 0 <= i < |r| ==> r[i] == dets[i].chain
  {
    seq(|dets|, i requires 0 <= i < |dets| => dets[i].chain)
  }

  /** `processNewChains`: each detection is saved in turn; a failed save leaves the table as it was. */
  function SaveAll(d: Db, dets: seq<NewChainDetection>, now: Time): Db
  {
    if dets == [] then d
    else Save(SaveAll(d, dets[..|dets| - 1], now), dets[|dets| - 1].chain, now).0
  }

  /** The loop of `updateExistingChains` over a batch, against the id snapshot `ids`. */
  function UpdateAll(d: Db, batch: seq<Chain>, ids: set<int>, now: Time): Db
  {
    if batch == [] then d
    else
      var d' := UpdateAll(d, batch[..|batch| - 1], ids, now);
      var c := batch[|batch| - 1];
      if c.chain in ids then Update(d', c, now).0 else d'
  }

  /**
   * `processChains(batch)`: the table afterwards, and the detections or the
   * error that escaped. Detections and saves happen at time `now`, updates at
   * time `updatedAt`. A failed read of the id set propagates, leaving any
   * saves already made in place.
   */
  function Process(d: Db, batch: seq<Chain>, now: Time, updatedAt: Time)
    : (Db, Result<seq<NewChainDetection>, DbError>)
  {
    match ChainIds(d)
    case Failure(e) => (d, Failure(e))
    case Success(ids) =>
      var dets := Detections(NewIn(batch, ids), now);
      var saved := SaveAll(d, dets, now);
      match ChainIds(saved)
      case Failure(e) => (saved, Failure(e))
      case Success(stored) => (UpdateAll(saved, batch, stored, updatedAt), Success(dets))
  }

  /** Ids of the batch entries whose writes do not fail. */
  function WritableIds(batch: seq<Chain>, faulty: set<int>): set<int>
  {
    set c | c in batch && c.chain !in faulty :: c.chain
  }

  class ChainDetectorService {
    const db: DatabaseService

    constructor (db: DatabaseService)
      ensures this.db == db
    {
      this.db := db;
    }

    /** `detectNewChains`: one read of the id set, then a filter of the batch. */
    method DetectNewChains(apiChains: seq<Chain>, now: Time) returns (r: Result<seq<NewChainDetection>, DbError>)
      ensures !db.open ==> r == Failure(ConnectionClosed)
      ensures db.open ==> r == Success(Detections(NewIn(apiChains, db.rows.Keys), now))
    {
      var ids := db.GetAllChainIds();
      if ids.Failure? {
        return Failure(ids.error);
      }
      var newChains: seq<NewChainDetection> := [];
      for i := 0 to |apiChains|
        invariant newChains == Detections(NewIn(apiChains[..i], ids.value), now)
      {
        var chain := apiChains[i];
        assert apiChains[..i + 1][..i] == apiChains[..i];
        if chain.chain !in ids.value {
          newChains := newChains + [NewChainDetection(chain, now)];
        }
      }
      assert apiChains[..|apiChains|] == apiChains;
      r := Success(newChains);
    }

    /** `processNewChains`: a save that throws is caught and the loop goes on. */
    method ProcessNewChains(newChains: seq<NewChainDetection>, now: Time)
      requires db.Valid()
      modifies db
      ensures db.Valid()
      ensures db.Snapshot() == SaveAll(old(db.Snapshot()), newChains, now)
    {
      for i := 0 to |newChains|
        invariant db.Valid()
        invariant db.Snapshot() == SaveAll(old(db.Snapshot()), newChains[..i], now)
      {
        assert newChains[..i + 1][..i] == newChains[..i];
        var _ := db.SaveChain(newChains[i].chain, now);
      }
      assert newChains[..|newChains|] == newChains;
    }

    /** `updateExistingChains`: a fresh read of the id set, then an update per stored entry. */
    method UpdateExistingChains(apiChains: seq<Chain>, now: Time) returns (r: Outcome<DbError>)
      requires db.Valid()
      modifies db
      ensures db.Valid()
      ensures !old(db.open) ==> r == Fail(ConnectionClosed) && db.Snapshot() == old(db.Snapshot())
      ensures old(db.open) ==>
        r == Pass && db.Snapshot() == UpdateAll(old(db.Snapshot()), apiChains, old(db.rows.Keys), now)
    {
      var ids := db.GetAllChainIds();
      if ids.Failure? {
        return Fail(ids.error);
      }
      for i := 0 to |apiChains|
        invariant db.Valid()
        invariant db.Snapshot() == UpdateAll(old(db.Snapshot()), apiChains[..i], ids.value, now)
      {
        var chain := apiChains[i];
        assert apiChains[..i + 1][..i] == apiChains[..i];
        if chain.chain in ids.value {
          var _ := db.UpdateChain(chain, now);
        }
      }
      assert apiChains[..|apiChains|] == apiChains;
      r := Pass;
    }

    /** `processChains`: detect, save the new entries, update the stored ones, return the detections. */
    method ProcessChains(apiChains: seq<Chain>, now: Time, updatedAt: Time)
      returns (r: Result<seq<NewChainDetection>, DbError>)
      requires db.Valid()
      modifies db
      ensures db.Valid()
      ensures (db.Snapshot(), r) == Process(old(db.Snapshot()), apiChains, now, updatedAt)
    {
      var newChains := DetectNewChains(apiChains, now);
      if newChains.Failure? {
        return Failure(newChains.error);
      }
      if |newChains.value| > 0 {
        ProcessNewChains(newChains.value, now);
      }
      var updated := UpdateExistingChains(apiChains, updatedAt);
      if updated.Fail? {
        return Failure(updated.error);
      }
      r := Success(newChains.value);
    }
  }

  // ---------------------------------------------------------------------------
  // Properties of one reconciliation pass

  /**
   * The batch splits into new and existing entries relative to the snapshot:
   * together they are the whole batch, and no id is on both sides.
   */
  lemma {:induction false} Partition(batch: seq<Chain>, ids: set<int>)
    ensures multiset(NewIn(batch, ids)) + multiset(ExistingIn(batch, ids)) == multiset(batch)
    ensures |NewIn(batch, ids)| + |ExistingIn(batch, ids)| == |batch|
    ensures forall c :: c in NewIn(batch, ids) <==> c in batch && c.chain !in ids
    ensures forall c :: c in ExistingIn(batch, ids) <==> c in batch && c.chain in ids
  {
    PartitionCounts(batch, ids);
    forall c
      ensures c in NewIn(batch, ids) <==> c in batch && c.chain !in ids
      ensures c in ExistingIn(batch, ids) <==> c in batch && c.chain in ids
    {
      NewInMember(batch, ids, c);
      ExistingInMember(batch, ids, c);
    }
  }

  lemma {:induction false} PartitionCounts(batch: seq<Chain>, ids: set<int>)
    ensures multiset(NewIn(batch, ids)) + multiset(ExistingIn(batch, ids)) == multiset(batch)
    ensures |NewIn(batch, ids)| + |ExistingIn(batch, ids)| == |batch|
  {
    if batch != [] {
      var prefix := batch[..|batch| - 1];
      var c := batch[|batch| - 1];
      PartitionCounts(prefix, ids);
      assert batch == prefix + [c];
      assert multiset(batch) == multiset(prefix) + multiset{c};
    }
  }

  lemma {:induction false} NewInMember(batch: seq<Chain>, ids: set<int>, c: Chain)
    ensures c in NewIn(batch, ids) <==> c in batch && c.chain !in ids
  {
    if batch != [] {
      var prefix := batch[..|batch| - 1];
      NewInMember(prefix, ids, c);
      assert batch == prefix + [batch[|batch| - 1]];
    }
  }

  lemma {:induction false} ExistingInMember(batch: seq<Chain>, ids: set<int>, c: Chain)
    ensures c in ExistingIn(batch, ids) <==> c in batch && c.chain in ids
  {
    if batch != [] {
      var prefix := batch[..|batch| - 1];
      ExistingInMember(prefix, ids, c);
      assert batch == prefix + [batch[|batch| - 1]];
    }
  }

  /** When every batch id is already stored, nothing is new. */
  lemma {:induction false} NothingNew(batch: seq<Chain>, ids: set<int>)
    requires forall c :: c in batch ==> c.chain in ids
    ensures NewIn(batch, ids) == []
  {
    if batch != [] {
      NothingNew(batch[..|batch| - 1], ids);
    }
  }

  /**
   * Saving detections adds exactly the ids whose writes do not fail, leaves
   * every row already present as it was, and keeps the connection and oracle.
   */
  lemma {:induction false} SaveAllEffect(d: Db, dets: seq<NewChainDetection>, now: Time)
    requires d.open
    ensures var d' := SaveAll(d, dets, now);
      && d'.open && d'.faulty == d.faulty
      && d'.rows.Keys == d.rows.Keys + WritableIds(ChainsOf(dets), d.faulty)
      && (forall k :: k in d.rows ==> d'.rows[k] == d.rows[k])
      && (forall k :: k in d'.rows && k !in d.rows ==> d'.rows[k].createdAt == now)
  {
    if dets != [] {
      var prefix := dets[..|dets| - 1];
      var c := dets[|dets| - 1].chain;
      SaveAllEffect(d, prefix, now);
      var p := SaveAll(d, prefix, now);
      assert SaveAll(d, dets, now) == Save(p, c, now).0;
      var d' := Save(p, c, now).0;
      SaveStep(p, c, now);
      ChainsOfSnoc(dets);
      WritableIdsSnoc(ChainsOf(prefix), c, d.faulty);
      forall k | k in d.rows
        ensures d'.rows[k] == d.rows[k]
      {
        assert k in p.rows;
      }
      forall k | k in d'.rows && k !in d.rows
        ensures d'.rows[k].createdAt == now
      {
        if k in p.rows {
          assert d'.rows[k] == p.rows[k];
        }
      }
    }
  }

  lemma ChainsOfSnoc(dets: seq<NewChainDetection>)
    requires dets != []
    ensures ChainsOf(dets) == ChainsOf(dets[..|dets| - 1]) + [dets[|dets| - 1].chain]
  {
    var r := ChainsOf(dets[..|dets| - 1]) + [dets[|dets| - 1].chain];
    forall i | 0 <= i < |dets|
      ensures ChainsOf(dets)[i] == r[i]
    {
      if i < |dets| - 1 {
        assert r[i] == ChainsOf(dets[..|dets| - 1])[i];
      }
    }
  }

  /** One save on an open table adds its id unless the write fails, and touches no present row. */
  lemma SaveStep(d: Db, c: Chain, now: Time)
    requires d.open
    ensures var d' := Save(d, c, now).0;
      && d'.open && d'.faulty == d.faulty
      && d'.rows.Keys == d.rows.Keys + (if c.chain in d.faulty then {} else {c.chain})
      && (forall k :: k in d.rows ==> d'.rows[k] == d.rows[k])
      && (forall k :: k in d'.rows && k !in d.rows ==> d'.rows[k].createdAt == now)
  {
  }

  lemma WritableIdsSnoc(batch: seq<Chain>, c: Chain, faulty: set<int>)
    ensures WritableIds(batch + [c], faulty) == WritableIds(batch, faulty) + (if c.chain in faulty then {} else {c.chain})
  {
  }

  /**
   * The update pass keeps the set of ids, the connection and each row's id
   * and `createdAt`.
   */
  lemma {:induction false} UpdateAllKeeps(d: Db, batch: seq<Chain>, ids: set<int>, now: Time)
    ensures var d' := UpdateAll(d, batch, ids, now);
      && d'.rows.Keys == d.rows.Keys && d'.open == d.open && d'.faulty == d.faulty
      && d'.nextId == d.nextId
      && (forall k :: k in d.rows ==> d'.rows[k].id == d.rows[k].id && d'.rows[k].createdAt == d.rows[k].createdAt)
  {
    if batch != [] {
      UpdateAllKeeps(d, batch[..|batch| - 1], ids, now);
    }
  }

  /** The row of an updated id holds its last batch entry, stamped with the update time. */
  lemma {:induction false} UpdateAllLast(d: Db, batch: seq<Chain>, ids: set<int>, now: Time, i: int)
    requires d.open && 0 <= i < |batch|
    requires batch[i].chain in ids && batch[i].chain in d.rows && batch[i].chain !in d.faulty
    requires forall j :: i < j < |batch| ==> batch[j].chain != batch[i].chain
    ensures var k := batch[i].chain;
      && k in UpdateAll(d, batch, ids, now).rows
      && UpdateAll(d, batch, ids, now).rows[k] == ToRow(d.rows[k].id, batch[i], d.rows[k].createdAt, now)
  {
    var prefix := batch[..|batch| - 1];
    var k := batch[i].chain;
    UpdateAllKeeps(d, prefix, ids, now);
    if i < |batch| - 1 {
      UpdateAllLast(d, prefix, ids, now, i);
    }
  }

  /** The update pass leaves alone every row whose id no batch entry carries. */
  lemma {:induction false} UpdateAllFrame(d: Db, batch: seq<Chain>, ids: set<int>, now: Time, k: int)
    requires k in d.rows
    requires forall c :: c in batch ==> c.chain != k
    ensures k in UpdateAll(d, batch, ids, now).rows && UpdateAll(d, batch, ids, now).rows[k] == d.rows[k]
  {
    if batch != [] {
      var prefix := batch[..|batch| - 1];
      forall c | c in prefix
        ensures c.chain != k
      {
        assert c in batch;
      }
      UpdateAllFrame(d, prefix, ids, now, k);
      assert batch[|batch| - 1] in batch;
    }
  }

  /** `processChains` leaves every stored row whose id is absent from the batch exactly as it was. */
  lemma ProcessFrame(d: Db, batch: seq<Chain>, now: Time, updatedAt: Time, k: int)
    requires k in d.rows
    requires forall c :: c in batch ==> c.chain != k
    ensures k in Process(d, batch, now, updatedAt).0.rows
    ensures Process(d, batch, now, updatedAt).0.rows[k] == d.rows[k]
  {
    if d.open {
      var dets := Detections(NewIn(batch, d.rows.Keys), now);
      var saved := SaveAll(d, dets, now);
      SaveAllEffect(d, dets, now);
      UpdateAllFrame(saved, batch, saved.rows.Keys, updatedAt, k);
      assert Process(d, batch, now, updatedAt) == (UpdateAll(saved, batch, saved.rows.Keys, updatedAt), Success(dets));
    }
  }

  /**
   * Among detections sharing an unseen id whose writes succeed, the first one
   * is saved and its row survives the rest of the save loop.
   */
  lemma {:induction false} FirstSaveWins(d: Db, dets: seq<NewChainDetection>, now: Time, i: int)
    requires d.open && 0 <= i < |dets|
    requires dets[i].chain.chain !in d.rows && dets[i].chain.chain !in d.faulty
    requires forall j :: 0 <= j < i ==> dets[j].chain.chain != dets[i].chain.chain
    ensures var k := dets[i].chain.chain;
      var d' := SaveAll(d, dets, now);
      k in d'.rows && d'.rows[k] == ToRow(d'.rows[k].id, dets[i].chain, now, now)
    decreases |dets|
  {
    var k := dets[i].chain.chain;
    var prefix := dets[..|dets| - 1];
    var last := dets[|dets| - 1];
    var p := SaveAll(d, prefix, now);
    SaveAllEffect(d, prefix, now);
    assert SaveAll(d, dets, now) == Save(p, last.chain, now).0;
    if i == |dets| - 1 {
      forall c | c in ChainsOf(prefix)
        ensures c.chain != k
      {
        var j :| 0 <= j < |prefix| && ChainsOf(prefix)[j] == c;
        assert prefix[j] == dets[j];
      }
      assert k !in p.rows;
    } else {
      FirstSaveWins(d, prefix, now, i);
      assert prefix[i] == dets[i];
      SaveStep(p, last.chain, now);
    }
  }

  /** Every later save of an id the save loop has already stored is refused by the UNIQUE constraint and changes nothing. */
  lemma LaterSavesRefused(d: Db, dets: seq<NewChainDetection>, now: Time, i: int, j: int)
    requires d.open && 0 <= i < j < |dets|
    requires dets[i].chain.chain !in d.rows && dets[i].chain.chain !in d.faulty
    requires forall l :: 0 <= l < i ==> dets[l].chain.chain != dets[i].chain.chain
    requires dets[j].chain.chain == dets[i].chain.chain
    ensures var p := SaveAll(d, dets[..j], now);
      Save(p, dets[j].chain, now) == (p, Fail(UniqueViolation(dets[i].chain.chain)))
  {
    assert dets[..j][i] == dets[i];
    FirstSaveWins(d, dets[..j], now, i);
    SaveAllEffect(d, dets[..j], now);
  }

  /** `processChains` throws exactly when the id set cannot be read. */
  lemma ProcessFailsOnlyWhenClosed(d: Db, batch: seq<Chain>, now: Time, updatedAt: Time)
    ensures Process(d, batch, now, updatedAt).1.Failure? <==> !d.open
    ensures !d.open ==> Process(d, batch, now, updatedAt) == (d, Failure(ConnectionClosed))
  {
    if d.open {
      SaveAllEffect(d, Detections(NewIn(batch, d.rows.Keys), now), now);
    }
  }

  /**
   * The detections are exactly the batch entries absent from the table at the
   * start of the call, in batch order, whatever the saves do: the write
   * failure oracle plays no part in them.
   */
  lemma DetectionsIgnoreWrites(d: Db, faulty: set<int>, batch: seq<Chain>, now: Time, updatedAt: Time)
    requires d.open
    ensures Process(d, batch, now, updatedAt).1.Success?
    ensures Process(d.(faulty := faulty), batch, now, updatedAt).1.Success?
    ensures Process(d, batch, now, updatedAt).1.value == Process(d.(faulty := faulty), batch, now, updatedAt).1.value
    ensures ChainsOf(Process(d, batch, now, updatedAt).1.value) == NewIn(batch, d.rows.Keys)
  {
    ProcessFailsOnlyWhenClosed(d, batch, now, updatedAt);
    ProcessFailsOnlyWhenClosed(d.(faulty := faulty), batch, now, updatedAt);
    var dets := Process(d, batch, now, updatedAt).1.value;
    assert ChainsOf(dets) == NewIn(batch, d.rows.Keys);
  }

  /**
   * After a pass, the stored ids are the old ones plus every batch id whose
   * write does not fail: no id is removed, a failed write costs only its own
   * entry, and rows already present keep their id and `createdAt`.
   */
  lemma ProcessStores(d: Db, batch: seq<Chain>, now: Time, updatedAt: Time)
    requires d.open
    ensures Process(d, batch, now, updatedAt).1.Success?
    ensures var d' := Process(d, batch, now, updatedAt).0;
      && d'.open && d'.faulty == d.faulty
      && d'.rows.Keys == d.rows.Keys + WritableIds(batch, d.faulty)
      && (forall k :: k in d.rows ==> d'.rows[k].id == d.rows[k].id && d'.rows[k].createdAt == d.rows[k].createdAt)
  {
    var ids := d.rows.Keys;
    var found := NewIn(batch, ids);
    var dets := Detections(found, now);
    var saved := SaveAll(d, dets, now);
    SaveAllEffect(d, dets, now);
    UpdateAllKeeps(saved, batch, saved.rows.Keys, updatedAt);
    Partition(batch, ids);
    assert ChainsOf(dets) == found;
    assert ids + WritableIds(found, d.faulty) == ids + WritableIds(batch, d.faulty);
  }

  /**
   * Every batch entry whose id is stored once the saves are done, including
   * ids saved earlier in the same call, is written by the update pass: its
   * row holds the last entry with that id and the update time.
   */
  lemma ProcessUpdatesEveryStoredEntry(d: Db, batch: seq<Chain>, now: Time, updatedAt: Time, i: int)
    requires d.open && 0 <= i < |batch| && batch[i].chain !in d.faulty
    requires forall j :: i < j < |batch| ==> batch[j].chain != batch[i].chain
    ensures Process(d, batch, now, updatedAt).1.Success?
    ensures var k := batch[i].chain;
      var d' := Process(d, batch, now, updatedAt).0;
      && k in d'.rows
      && d'.rows[k].updatedAt == updatedAt
      && d'.rows[k] == ToRow(d'.rows[k].id, batch[i], d'.rows[k].createdAt, updatedAt)
      && d'.rows[k].createdAt == (if k in d.rows then d.rows[k].createdAt else now)
  {
    var k := batch[i].chain;
    var ids := d.rows.Keys;
    var dets := Detections(NewIn(batch, ids), now);
    var saved := SaveAll(d, dets, now);
    SaveAllEffect(d, dets, now);
    assert ChainsOf(dets) == NewIn(batch, ids);
    if k !in ids {
      NewInMember(batch, ids, batch[i]);
      assert batch[i] in ChainsOf(dets);
      assert k in WritableIds(ChainsOf(dets), d.faulty);
    }
    assert Process(d, batch, now, updatedAt) == (UpdateAll(saved, batch, saved.rows.Keys, updatedAt), Success(dets));
    UpdateAllLast(saved, batch, saved.rows.Keys, updatedAt, i);
  }

  /**
   * Re-processing: when every write of the first call succeeds, a second call
   * with the same batch detects nothing and leaves the stored ids unchanged.
   */
  lemma ProcessTwice(d: Db, batch: seq<Chain>, now: Time, updatedAt: Time, now2: Time, updatedAt2: Time)
    requires d.open
    requires forall c :: c in batch ==> c.chain !in d.faulty
    ensures Process(d, batch, now, updatedAt).1.Success?
    ensures var d1 := Process(d, batch, now, updatedAt).0;
      && Process(d1, batch, now2, updatedAt2).1.Success?
      && Process(d1, batch, now2, updatedAt2).1.value == []
      && Process(d1, batch, now2, updatedAt2).0.rows.Keys == d1.rows.Keys
  {
    ProcessStores(d, batch, now, updatedAt);
    var d1 := Process(d, batch, now, updatedAt).0;
    forall c | c in batch
      ensures c.chain in d1.rows
    {
      assert c.chain in WritableIds(batch, d.faulty);
    }
    NothingNew(batch, d1.rows.Keys);
    ProcessStores(d1, batch, now2, updatedAt2);
    assert WritableIds(batch, d1.faulty) <= d1.rows.Keys;
  }

  /**
   * Two batch entries sharing an id that is not stored: both are returned as
   * detections, only the first save succeeds (the second breaks the UNIQUE
   * constraint), and the update pass then writes the second entry over the
   * row the first one created.
   */
  lemma DuplicateIdInBatch(d: Db, c1: Chain, c2: Chain, now: Time, updatedAt: Time)
    requires WellFormed(d) && d.open
    requires c1.chain == c2.chain && c1.chain !in d.rows && c1.chain !in d.faulty
    ensures Process(d, [c1, c2], now, updatedAt)
         == (d.(rows := d.rows[c1.chain := ToRow(d.nextId, c2, now, updatedAt)], nextId := d.nextId + 1),
             Success([NewChainDetection(c1, now), NewChainDetection(c2, now)]))
  {
    var k := c1.chain;
    var once := d.(rows := d.rows[k := ToRow(d.nextId, c1, now, now)], nextId := d.nextId + 1);
    DuplicateSaves(d, c1, c2, now);
    DuplicateUpdates(once, c1, c2, updatedAt);
    assert once.rows[k].id == d.nextId && once.rows[k].createdAt == now;
    var last := d.(rows := d.rows[k := ToRow(d.nextId, c2, now, updatedAt)], nextId := d.nextId + 1);
    assert once.rows[k := ToRow(d.nextId, c1, now, updatedAt)][k := ToRow(d.nextId, c2, now, updatedAt)] == last.rows;
    assert UpdateAll(once, [c1, c2], once.rows.Keys, updatedAt) == last;
    var dets := Detections(NewIn([c1, c2], d.rows.Keys), now);
    assert dets == [NewChainDetection(c1, now), NewChainDetection(c2, now)];
    assert ChainIds(d) == Success(d.rows.Keys);
    assert SaveAll(d, dets, now) == once;
    assert ChainIds(once) == Success(once.rows.Keys);
  }

  lemma DuplicateSaves(d: Db, c1: Chain, c2: Chain, now: Time)
    requires d.open
    requires c1.chain == c2.chain && c1.chain !in d.rows && c1.chain !in d.faulty
    ensures NewIn([c1, c2], d.rows.Keys) == [c1, c2]
    ensures SaveAll(d, Detections([c1, c2], now), now)
         == d.(rows := d.rows[c1.chain := ToRow(d.nextId, c1, now, now)], nextId := d.nextId + 1)
  {
    NewInSnoc([], c1, d.rows.Keys);
    NewInSnoc([c1], c2, d.rows.Keys);
    var det1, det2 := NewChainDetection(c1, now), NewChainDetection(c2, now);
    assert Detections([c1, c2], now) == [det1] + [det2];
    SaveAllSnoc(d, [], det1, now);
    SaveAllSnoc(d, [det1], det2, now);
  }

  lemma DuplicateUpdates(d: Db, c1: Chain, c2: Chain, updatedAt: Time)
    requires d.open
    requires c1.chain == c2.chain && c1.chain in d.rows && c1.chain !in d.faulty
    ensures var row := d.rows[c1.chain];
      UpdateAll(d, [c1, c2], d.rows.Keys, updatedAt)
        == d.(rows := d.rows[c1.chain := ToRow(row.id, c1, row.createdAt, updatedAt)]
                            [c1.chain := ToRow(row.id, c2, row.createdAt, updatedAt)])
  {
    UpdateAllSnoc(d, [], c1, d.rows.Keys, updatedAt);
    UpdateAllSnoc(d, [c1], c2, d.rows.Keys, updatedAt);
  }

  lemma NewInSnoc(batch: seq<Chain>, c: Chain, ids: set<int>)
    ensures NewIn(batch + [c], ids) == NewIn(batch, ids) + (if c.chain in ids then [] else [c])
  {
    assert (batch + [c])[..|batch|] == batch;
  }

  lemma SaveAllSnoc(d: Db, dets: seq<NewChainDetection>, det: NewChainDetection, now: Time)
    ensures SaveAll(d, dets + [det], now) == Save(SaveAll(d, dets, now), det.chain, now).0
  {
    assert (dets + [det])[..|dets|] == dets;
  }

  lemma UpdateAllSnoc(d: Db, batch: seq<Chain>, c: Chain, ids: set<int>, now: Time)
    ensures UpdateAll(d, batch + [c], ids, now)
         == if c.chain in ids then Update(UpdateAll(d, batch, ids, now), c, now).0 else UpdateAll(d, batch, ids, now)
  {
    assert (batch + [c])[..|batch|] == batch;
  }
}
