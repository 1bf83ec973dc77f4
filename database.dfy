/**
 * The chain table: one row per chain id, kept unique by the UNIQUE
 * constraint on the `chain` column, with the service that reads and writes it.
 */
module Database {
  import opened Wrappers
  import opened ChainTypes
  import Json

  /** A row of the `chains` table: flags as 0/1, explorer nullable, `rpcs` as JSON text. */
  datatype Row = Row(
    id: int,
    chain: int,
    name: string,
    symbol: string,
    decimals: int,
    mainnet: int,
    price: Num,
    bal: string,
    gas: string,
    gwei: string,
    inbound: int,
    maxInbound: Num,
    maxInboundNative: string,
    maxOutbound: Num,
    maxOutboundNative: string,
    minOutbound: Num,
    minOutboundNative: string,
    explorer: Option<string>,
    rpcs: string,
    short: int,
    createdAt: Time,
    updatedAt: Time)

  /** What a database call throws. */
  datatype DbError =
    | ConnectionClosed        // any call after `close()`
    | UniqueViolation(chain: int)
    | WriteFailed(chain: int) // the engine failed to write this chain's row

  function ErrorMessage(e: DbError): string
  {
    match e
    case ConnectionClosed => "The database connection is not open"
    case UniqueViolation(_) => "UNIQUE constraint failed: chains.chain"
    case WriteFailed(_) => "disk I/O error"
  }

  /** `b ? 1 : 0`, read back with `=== 1`. */
  function Flag(b: bool): (v: int)
    ensures (v == 1) == b
  {
    if b then 1 else 0
  }

  /** `chain.explorer || null`: an absent or empty explorer is stored as NULL. */
  function StoredExplorer(e: Option<string>): (r: Option<string>)
    ensures r != Some("")
    ensures r.Some? <==> e.Some? && e.value != ""
    ensures r.Some? ==> r == e
  {
    match e
    case Some(s) => if s == "" then None else e
    case None => None
  }

  /** The row holding chain `c`; INSERT and UPDATE bind the same values. */
  function ToRow(id: int, c: Chain, createdAt: Time, updatedAt: Time): Row
  {
    Row(id, c.chain, c.name, c.symbol, c.decimals, Flag(c.mainnet), c.price, c.bal, c.gas, c.gwei,
        Flag(c.inbound), c.maxInbound, c.maxInboundNative, c.maxOutbound, c.maxOutboundNative,
        c.minOutbound, c.minOutboundNative, StoredExplorer(c.explorer), Json.Stringify(c.rpcs),
        c.short, createdAt, updatedAt)
  }

  /** `mapRowToChainRecord`; `None` when `JSON.parse` of the `rpcs` text throws. */
  function MapRowToChainRecord(row: Row): Option<ChainRecord>
  {
    match Json.Parse(row.rpcs)
    case None => None
    case Some(rpcs) =>
      Some(ChainRecord(
        Some(row.id),
        Chain(row.bal, row.chain, row.decimals, row.explorer, row.gas, row.gwei, row.inbound == 1,
              row.mainnet == 1, row.maxInbound, row.maxInboundNative, row.maxOutbound,
              row.maxOutboundNative, row.minOutbound, row.minOutboundNative, row.name, row.price,
              rpcs, row.short, row.symbol),
        row.createdAt, row.updatedAt))
  }

  /**
   * Reading a written row gives the chain back: flags and RPC list unchanged,
   * an empty explorer as NULL, and the row's id and timestamps.
   */
  lemma RowRoundTrip(id: int, c: Chain, createdAt: Time, updatedAt: Time)
    ensures MapRowToChainRecord(ToRow(id, c, createdAt, updatedAt))
         == Some(ChainRecord(Some(id), c.(explorer := StoredExplorer(c.explorer)), createdAt, updatedAt))
  {
    Json.ParseStringify(c.rpcs);
  }

  /** The whole state of the service: rows by chain id, the next AUTOINCREMENT id, the connection, the failure oracle. */
  datatype Db = Db(rows: map<int, Row>, nextId: int, open: bool, faulty: set<int>)

  /** Rows are keyed by their chain id, carry distinct ids below `nextId`, and hold parseable RPC lists. */
  predicate WellFormed(d: Db)
  {
    && d.nextId >= 1
    && (forall k :: k in d.rows ==>
          d.rows[k].chain == k && 1 <= d.rows[k].id < d.nextId && Json.Parse(d.rows[k].rpcs).Some?)
    && (forall k, j :: k in d.rows && j in d.rows && k != j ==> d.rows[k].id != d.rows[j].id)
  }

  /** `saveChain(c)` at time `now`: an INSERT, refused for an id already stored. */
  function Save(d: Db, c: Chain, now: Time): (Db, Outcome<DbError>)
  {
    if !d.open then (d, Fail(ConnectionClosed))
    else if c.chain in d.rows then (d, Fail(UniqueViolation(c.chain)))
    else if c.chain in d.faulty then (d, Fail(WriteFailed(c.chain)))
    else (d.(rows := d.rows[c.chain := ToRow(d.nextId, c, now, now)], nextId := d.nextId + 1), Pass)
  }

  /** `updateChain(c)` at time `now`: an UPDATE ... WHERE chain = c.chain, matching no row when absent. */
  function Update(d: Db, c: Chain, now: Time): (Db, Outcome<DbError>)
  {
    if !d.open then (d, Fail(ConnectionClosed))
    else if c.chain !in d.rows then (d, Pass)
    else if c.chain in d.faulty then (d, Fail(WriteFailed(c.chain)))
    else
      var row := d.rows[c.chain];
      (d.(rows := d.rows[c.chain := ToRow(row.id, c, row.createdAt, now)]), Pass)
  }

  /** `getAllChainIds()`. */
  function ChainIds(d: Db): Result<set<int>, DbError>
  {
    if d.open then Success(d.rows.Keys) else Failure(ConnectionClosed)
  }

  /** `chainExists(id)`. */
  function Exists(d: Db, id: int): Result<bool, DbError>
  {
    if d.open then Success(id in d.rows) else Failure(ConnectionClosed)
  }

  /** `getChainById(id)`, defined where every row parses. */
  function ChainById(d: Db, id: int): (r: Result<Option<ChainRecord>, DbError>)
    requires WellFormed(d)
  {
    if !d.open then Failure(ConnectionClosed)
    else if id !in d.rows then Success(None)
    else Success(MapRowToChainRecord(d.rows[id]))
  }

  lemma SaveWellFormed(d: Db, c: Chain, now: Time)
    requires WellFormed(d)
    ensures WellFormed(Save(d, c, now).0)
  {
    Json.ParseStringify(c.rpcs);
  }

  lemma UpdateWellFormed(d: Db, c: Chain, now: Time)
    requires WellFormed(d)
    ensures WellFormed(Update(d, c, now).0)
  {
    Json.ParseStringify(c.rpcs);
  }

  /**
   * A save of an id not yet stored adds exactly that row, readable back as
   * the chain with `createdAt == updatedAt == now`; every other row is kept.
   * A save of a stored id is refused by the UNIQUE constraint and changes
   * nothing; a write the engine fails changes nothing either.
   */
  lemma SaveEffect(d: Db, c: Chain, now: Time)
    requires WellFormed(d) && d.open
    ensures var (d', r) := Save(d, c, now);
      && (c.chain in d.rows ==> r == Fail(UniqueViolation(c.chain)) && d' == d)
      && (c.chain !in d.rows && c.chain in d.faulty ==> r == Fail(WriteFailed(c.chain)) && d' == d)
      && (c.chain !in d.rows && c.chain !in d.faulty ==>
            && r == Pass
            && WellFormed(d')
            && d'.rows.Keys == d.rows.Keys + {c.chain}
            && |d'.rows| == |d.rows| + 1
            && (forall k :: k in d.rows ==> d'.rows[k] == d.rows[k])
            && ChainById(d', c.chain)
               == Success(Some(ChainRecord(Some(d.nextId), c.(explorer := StoredExplorer(c.explorer)), now, now))))
  {
    if c.chain !in d.rows && c.chain !in d.faulty {
      RowRoundTrip(d.nextId, c, now, now);
      SaveWellFormed(d, c, now);
    }
  }

  /**
   * An update rewrites every descriptive field of the matching row and its
   * `updatedAt`, keeps its id and `createdAt`, never changes the set of ids,
   * and succeeds without effect when no row matches.
   */
  lemma UpdateEffect(d: Db, c: Chain, now: Time)
    requires WellFormed(d) && d.open && c.chain !in d.faulty
    ensures var (d', r) := Update(d, c, now);
      && r == Pass
      && d'.rows.Keys == d.rows.Keys
      && (c.chain !in d.rows ==> d' == d)
      && (c.chain in d.rows ==>
            && (forall k :: k in d.rows && k != c.chain ==> d'.rows[k] == d.rows[k])
            && WellFormed(d')
            && ChainById(d', c.chain)
               == Success(Some(ChainRecord(Some(d.rows[c.chain].id), c.(explorer := StoredExplorer(c.explorer)),
                                           d.rows[c.chain].createdAt, now))))
  {
    if c.chain in d.rows {
      RowRoundTrip(d.rows[c.chain].id, c, d.rows[c.chain].createdAt, now);
      UpdateWellFormed(d, c, now);
    }
  }

  /** On an open table, `chainExists(id)`, `getChainById(id) != null` and `id in getAllChainIds()` agree. */
  lemma LookupsAgree(d: Db, id: int)
    requires WellFormed(d) && d.open
    ensures Exists(d, id) == Success(id in d.rows)
    ensures ChainIds(d).Success? && (id in ChainIds(d).value <==> Exists(d, id).value)
    ensures ChainById(d, id).Success? && (ChainById(d, id).value.Some? <==> Exists(d, id).value)
    ensures ChainById(d, id).value.Some? ==> ChainById(d, id).value.value.data.chain == id
  {
  }

  /** Records ordered by `createdAt`, newest first (`ORDER BY createdAt DESC`). */
  predicate NewestFirst(s: seq<ChainRecord>)
  {
    forall i, j :: 0 <= i < j < |s| ==> s[i].createdAt >= s[j].createdAt
  }

  function KeysOf(s: seq<ChainRecord>): set<int>
  {
    set x | x in s :: x.data.chain
  }

  /** `s` holds the record of every row of `rows` exactly once, and nothing else. */
  predicate ListsExactly(s: seq<ChainRecord>, rows: map<int, Row>)
  {
    && |s| == |rows.Keys|
    && KeysOf(s) == rows.Keys
    && (forall x :: x in s ==> x.data.chain in rows && Some(x) == MapRowToChainRecord(rows[x.data.chain]))
  }

  /** Places `x` in a newest-first list, ahead of records created no later than it. */
  function InsertNewest(s: seq<ChainRecord>, x: ChainRecord): (r: seq<ChainRecord>)
    requires NewestFirst(s)
    ensures NewestFirst(r)
    ensures multiset(r) == multiset(s) + multiset{x}
  {
    if s == [] || x.createdAt >= s[0].createdAt then
      PrependNewest(x, s);
      [x] + s
    else
      NewestFirstTail(s);
      var rest := InsertNewest(s[1..], x);
      BelowHead(s, x, rest);
      PrependNewest(s[0], rest);
      assert s == [s[0]] + s[1..];
      [s[0]] + rest
  }

  lemma NewestFirstTail(s: seq<ChainRecord>)
    requires NewestFirst(s) && s != []
    ensures NewestFirst(s[1..])
  {
    forall i, j | 0 <= i < j < |s[1..]|
      ensures s[1..][i].createdAt >= s[1..][j].createdAt
    {
      assert s[1..][i] == s[i + 1] && s[1..][j] == s[j + 1];
    }
  }

  /** Whatever is inserted behind the head of a newest-first list is no newer than that head. */
  lemma BelowHead(s: seq<ChainRecord>, x: ChainRecord, rest: seq<ChainRecord>)
    requires NewestFirst(s) && s != [] && x.createdAt < s[0].createdAt
    requires multiset(rest) == multiset(s[1..]) + multiset{x}
    ensures forall y :: y in rest ==> s[0].createdAt >= y.createdAt
  {
    forall y | y in rest
      ensures s[0].createdAt >= y.createdAt
    {
      assert y in multiset(rest);
      if y != x {
        assert y in multiset(s[1..]);
        var j :| 0 <= j < |s[1..]| && s[1..][j] == y;
        assert s[j + 1] == y;
      }
    }
  }

  lemma PrependNewest(a: ChainRecord, s: seq<ChainRecord>)
    requires NewestFirst(s)
    requires forall y :: y in s ==> a.createdAt >= y.createdAt
    ensures NewestFirst([a] + s)
  {
    var r := [a] + s;
    forall i, j | 0 <= i < j < |r|
      ensures r[i].createdAt >= r[j].createdAt
    {
      if i == 0 {
        assert r[j] == s[j - 1];
      } else {
        assert r[i] == s[i - 1] && r[j] == s[j - 1];
      }
    }
  }

  /** `listed` holds, newest first, the records of exactly the rows whose ids are in `done`. */
  predicate ListsRows(listed: seq<ChainRecord>, rows: map<int, Row>, done: set<int>)
  {
    && NewestFirst(listed)
    && KeysOf(listed) == done
    && |listed| == |done|
    && (forall x :: x in listed ==> x.data.chain in rows && Some(x) == MapRowToChainRecord(rows[x.data.chain]))
  }

  lemma ListsRowsStep(listed: seq<ChainRecord>, rows: map<int, Row>, remaining: set<int>, k: int)
    requires remaining <= rows.Keys && k in remaining
    requires ListsRows(listed, rows, rows.Keys - remaining)
    requires rows[k].chain == k && MapRowToChainRecord(rows[k]).Some?
    ensures ListsRows(InsertNewest(listed, MapRowToChainRecord(rows[k]).value), rows, rows.Keys - (remaining - {k}))
  {
    var done := rows.Keys - remaining;
    var x := MapRowToChainRecord(rows[k]).value;
    var next := InsertNewest(listed, x);
    InsertNewestMembers(listed, x);
    forall key
      ensures key in KeysOf(next) <==> key in KeysOf(listed) || key == k
    {
      if key in KeysOf(next) {
        var y :| y in next && y.data.chain == key;
        assert y in listed || y == x;
      }
      if key in KeysOf(listed) {
        var y :| y in listed && y.data.chain == key;
        assert y in next;
      }
      if key == k {
        assert x in next;
      }
    }
    assert KeysOf(next) == done + {k};
    assert done + {k} == rows.Keys - (remaining - {k});
  }

  lemma InsertNewestMembers(s: seq<ChainRecord>, x: ChainRecord)
    requires NewestFirst(s)
    ensures forall y :: y in InsertNewest(s, x) <==> y in s || y == x
    ensures |InsertNewest(s, x)| == |s| + 1
  {
    var r := InsertNewest(s, x);
    forall y
      ensures y in r <==> y in s || y == x
    {
      assert y in r <==> y in multiset(r);
      assert y in s <==> y in multiset(s);
    }
    assert |r| == |multiset(r)|;
  }

  /** A member of a non-empty set of ids. */
  lemma Member(s: set<int>) returns (k: int)
    requires s != {}
    ensures k in s
  {
    if forall j :: j !in s {
      assert false;
    }
    k :| k in s;
  }

  /** Every row is keyed by its chain id and maps to a record. */
  predicate Readable(rows: map<int, Row>)
  {
    forall k :: k in rows ==> rows[k].chain == k && Json.Parse(rows[k].rpcs).Some?
  }

  /** `SELECT * FROM chains ORDER BY createdAt DESC`, each row mapped to its record. */
  method ListRows(rows: map<int, Row>) returns (listed: seq<ChainRecord>)
    requires Readable(rows)
    ensures NewestFirst(listed) && ListsExactly(listed, rows)
  {
    listed := [];
    var remaining := rows.Keys;
    while remaining != {}
      invariant remaining <= rows.Keys
      invariant ListsRows(listed, rows, rows.Keys - remaining)
      decreases remaining
    {
      ghost var some := Member(remaining);
      var k :| k in remaining;
      assert rows[k].chain == k && MapRowToChainRecord(rows[k]).Some?;
      ListsRowsStep(listed, rows, remaining, k);
      listed := InsertNewest(listed, MapRowToChainRecord(rows[k]).value);
      remaining := remaining - {k};
    }
    assert rows.Keys - remaining == rows.Keys;
  }

  /** The table behind `DatabaseService`, modelled as a map from chain id to row. */
  class DatabaseService {
    var rows: map<int, Row>
    var nextId: int
    var open: bool
    /** Chain ids whose INSERT or UPDATE the engine fails to carry out. */
    const faulty: set<int>

    function Snapshot(): Db
      reads this
    {
      Db(rows, nextId, open, faulty)
    }

    ghost predicate Valid()
      reads this
    {
      WellFormed(Snapshot())
    }

    /**
     * Opens the database file, whose table `stored` holds whatever earlier
     * runs wrote (empty for a new file): `CREATE TABLE IF NOT EXISTS` keeps
     * those rows and the AUTOINCREMENT counter.
     */
    constructor (stored: Db)
      requires WellFormed(stored)
      ensures Valid()
      ensures Snapshot() == stored.(open := true)
    {
      rows := stored.rows;
      nextId := stored.nextId;
      open := true;
      faulty := stored.faulty;
    }

    method SaveChain(c: Chain, now: Time) returns (r: Outcome<DbError>)
      requires Valid()
      modifies this
      ensures Valid()
      ensures (Snapshot(), r) == Save(old(Snapshot()), c, now)
    {
      SaveWellFormed(Snapshot(), c, now);
      if !open {
        return Fail(ConnectionClosed);
      }
      if c.chain in rows {
        return Fail(UniqueViolation(c.chain));
      }
      if c.chain in faulty {
        return Fail(WriteFailed(c.chain));
      }
      rows := rows[c.chain := ToRow(nextId, c, now, now)];
      nextId := nextId + 1;
      r := Pass;
    }

    method UpdateChain(c: Chain, now: Time) returns (r: Outcome<DbError>)
      requires Valid()
      modifies this
      ensures Valid()
      ensures (Snapshot(), r) == Update(old(Snapshot()), c, now)
    {
      UpdateWellFormed(Snapshot(), c, now);
      if !open {
        return Fail(ConnectionClosed);
      }
      if c.chain !in rows {
        return Pass;
      }
      if c.chain in faulty {
        return Fail(WriteFailed(c.chain));
      }
      var row := rows[c.chain];
      rows := rows[c.chain := ToRow(row.id, c, row.createdAt, now)];
      r := Pass;
    }

    method GetAllChainIds() returns (r: Result<set<int>, DbError>)
      ensures !open ==> r == Failure(ConnectionClosed)
      ensures r.Success? <==> open
      ensures r.Success? ==> r.value == rows.Keys
    {
      if !open {
        return Failure(ConnectionClosed);
      }
      r := Success(rows.Keys);
    }

    method ChainExists(id: int) returns (r: Result<bool, DbError>)
      ensures !open ==> r == Failure(ConnectionClosed)
      ensures r.Success? <==> open
      ensures r.Success? ==> (r.value <==> id in rows)
    {
      if !open {
        return Failure(ConnectionClosed);
      }
      r := Success(id in rows);
    }

    method GetChainById(id: int) returns (r: Result<Option<ChainRecord>, DbError>)
      requires Valid()
      ensures !open ==> r == Failure(ConnectionClosed)
      ensures r.Success? <==> open
      ensures r.Success? ==> (r.value.Some? <==> id in rows)
      ensures r.Success? && r.value.Some? ==>
        Some(r.value.value) == MapRowToChainRecord(rows[id]) && r.value.value.data.chain == id
    {
      if !open {
        return Failure(ConnectionClosed);
      }
      if id !in rows {
        return Success(None);
      }
      r := Success(MapRowToChainRecord(rows[id]));
    }

    method GetAllChains() returns (r: Result<seq<ChainRecord>, DbError>)
      requires Valid()
      ensures !open ==> r == Failure(ConnectionClosed)
      ensures r.Success? <==> open
      ensures r.Success? ==> NewestFirst(r.value) && ListsExactly(r.value, rows)
    {
      if !open {
        return Failure(ConnectionClosed);
      }
      assert Readable(rows) by {
        assert WellFormed(Snapshot());
      }
      var listed := ListRows(rows);
      r := Success(listed);
    }

    /** `close()`: every later call throws `ConnectionClosed`. */
    method Close()
      requires Valid()
      modifies this
      ensures Valid()
      ensures Snapshot() == old(Snapshot()).(open := false)
    {
      open := false;
    }
  }
}
