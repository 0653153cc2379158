/** The generic data-access object `Dao[T]`: the LastTime stamping rule and
    the way each operation turns the backend's raw answer (an error, a row
    count, the rows) into its own result. The backend is a function from
    what is sent to it (a record, or a query) to its answer. */
module Dao {
  import opened Wrappers

  /** `uint64`, the type of every primary key. */
  type Id = x: int | 0 <= x < 0x1_0000_0000_0000_0000

  /** A LastTime value, represented by its rendering `yyyy-MM-dd HH:mm:ss`:
      the stamping rule only ever looks at that rendering. */
  type DateTime = string

  /** The rendering of the zero time, which marks LastTime as unset. */
  const ZeroTime: DateTime := "0001-01-01 00:00:00"

  /** An entity: its key, its audit stamp and the rest of its fields. */
  datatype Record<F> = Record(id: Id, lastTime: DateTime, fields: F)

  /** The extra columns of `DbFull`. */
  datatype FullFields = FullFields(summary: string, fullInfo: string)

  /** The two record shapes the package declares. */
  type DbSimple = Record<()>
  type DbFull = Record<FullFields>

  /** Errors an operation returns: the driver's own, or the one `Update`
      makes up when nothing was changed. */
  datatype DbError = Driver(message: string) | UpdateRecordDoesNotExist

  /** The backend's answer to a write: its error and the affected-row count. */
  datatype Reply = Reply(error: Option<string>, rowsAffected: int)

  /** The backend's answer to a read: its error, the affected-row count and
      the value it filled in. */
  datatype Answer<X> = Answer(error: Option<string>, rowsAffected: int, value: X)

  /** The driver's error as the operation's error. */
  function AsError(e: Option<string>): (r: Option<DbError>)
    ensures r.None? <==> e.None?
    ensures r.Some? ==> r.value == Driver(e.value)
  {
    match e
    case None => None
    case Some(m) => Some(Driver(m))
  }

  // ---------------------------------------------------------------------
  // Stamping

  /** Set LastTime to `now` when it is unset; nothing else changes. */
  function Stamp<F>(m: Record<F>, now: DateTime): (r: Record<F>)
    ensures r.id == m.id && r.fields == m.fields
    ensures m.lastTime == ZeroTime ==> r.lastTime == now
    ensures m.lastTime != ZeroTime ==> r == m
  {
    if m.lastTime == ZeroTime then m.(lastTime := now) else m
  }

  /** Stamping twice with the same clock is stamping once. */
  lemma StampIdempotent<F>(m: Record<F>, now: DateTime)
    ensures Stamp(Stamp(m, now), now) == Stamp(m, now)
  {
  }

  /** After stamping with a real time, LastTime is no longer unset. */
  lemma StampSetsTime<F>(m: Record<F>, now: DateTime)
    requires now != ZeroTime
    ensures Stamp(m, now).lastTime != ZeroTime
    ensures Stamp(m, now).lastTime == now || Stamp(m, now).lastTime == m.lastTime
  {
  }

  // ---------------------------------------------------------------------
  // Single-record writes

  /** A write's result: the record handed to the backend (the caller's
      record after stamping, which happens in place), and the error
      returned. */
  datatype Written<F> = Written(submitted: Record<F>, error: Option<DbError>)

  /** `Create`: stamp, then insert; the insert's error is returned. */
  function Create<F>(m: Record<F>, now: DateTime, insert: Record<F> -> Reply): (r: Written<F>)
    ensures r.submitted == Stamp(m, now)
    ensures r.error == AsError(insert(Stamp(m, now)).error)
  {
    var stamped := Stamp(m, now);
    Written(stamped, AsError(insert(stamped).error))
  }

  /** `Save`: stamp, then upsert; the upsert's error is returned. */
  function Save<F>(m: Record<F>, now: DateTime, upsert: Record<F> -> Reply): (r: Written<F>)
    ensures r.submitted == Stamp(m, now)
    ensures r.error == AsError(upsert(Stamp(m, now)).error)
  {
    var stamped := Stamp(m, now);
    Written(stamped, AsError(upsert(stamped).error))
  }

  /** `Update`: stamp, then update by key. Any changed row is success, even
      next to a driver error; otherwise the driver error, and failing that
      the distinct "does not exist" error. */
  function Update<F>(m: Record<F>, now: DateTime, updates: Record<F> -> Reply): (r: Written<F>)
    ensures r.submitted == Stamp(m, now)
    ensures var a := updates(Stamp(m, now));
            && (r.error.None? <==> a.rowsAffected > 0)
            && (r.error == Some(UpdateRecordDoesNotExist) <==> a.rowsAffected <= 0 && a.error.None?)
            && (r.error.Some? && r.error.value.Driver? <==> a.rowsAffected <= 0 && a.error.Some?)
            && (a.rowsAffected <= 0 && a.error.Some? ==> r.error == Some(Driver(a.error.value)))
  {
    var stamped := Stamp(m, now);
    var a := updates(stamped);
    if a.rowsAffected > 0 then Written(stamped, None)
    else if a.error.Some? then Written(stamped, AsError(a.error))
    else Written(stamped, Some(UpdateRecordDoesNotExist))
  }

  /** All three single-record writes hand the backend the caller's record
      with only LastTime possibly replaced, and never with LastTime unset
      when the clock reads a real time. */
  lemma WritesSubmitStamped<F>(m: Record<F>, now: DateTime, backend: Record<F> -> Reply)
    requires now != ZeroTime
    ensures var sent := if m.lastTime == ZeroTime then m.(lastTime := now) else m;
            && sent.id == m.id && sent.fields == m.fields && sent.lastTime != ZeroTime
            && Create(m, now, backend) == Written(sent, AsError(backend(sent).error))
            && Save(m, now, backend) == Written(sent, AsError(backend(sent).error))
            && Update(m, now, backend).submitted == sent
            && (Update(m, now, backend).error.None? <==> backend(sent).rowsAffected > 0)
  {
  }

  // ---------------------------------------------------------------------
  // Queries

  /** Which rows a query selects: all, the one with a key, or those meeting
      a caller-supplied condition (the condition text and its arguments,
      kept opaque). */
  datatype Filter<C> = AllRows | KeyIs(id: Id) | Where(condition: C)

  /** A query: its filter, and the `LIMIT` and `OFFSET` it carries, if any. */
  datatype Query<C> = Query(filter: Filter<C>, limit: Option<int>, offset: Option<int>)

  /** A read's result: the value and the error returned with it. */
  datatype Fetched<X> = Fetched(value: X, error: Option<DbError>)

  /** Go's `int(u)` for a `uint64` on a 64-bit platform: two's complement
      reinterpretation. */
  function ToInt64(u: Id): (r: int)
    ensures -0x8000_0000_0000_0000 <= r < 0x8000_0000_0000_0000
    ensures r % 0x1_0000_0000_0000_0000 == u
    ensures r < 0 <==> u >= 0x8000_0000_0000_0000
  {
    if u < 0x8000_0000_0000_0000 then u else u - 0x1_0000_0000_0000_0000
  }

  /** The rule shared by `GetModel` and `GetCondition`: an error or no row
      gives no model, with the driver's error (none when simply absent). */
  function ReadOne<F>(a: Answer<Record<F>>): (r: Fetched<Option<Record<F>>>)
    ensures r.error == AsError(a.error)
    ensures r.value.Some? <==> a.error.None? && a.rowsAffected != 0
    ensures r.value.Some? ==> r.value.value == a.value
  {
    if a.error.Some? || a.rowsAffected == 0 then Fetched(None, AsError(a.error))
    else Fetched(Some(a.value), None)
  }

  /** The rule shared by the list reads: on an error or no row the list is
      returned with the error, otherwise with no error. */
  function ReadMany<X>(a: Answer<X>): (r: Fetched<X>)
    ensures r.value == a.value
    ensures r.error == AsError(a.error)
  {
    if a.error.Some? || a.rowsAffected == 0 then Fetched(a.value, AsError(a.error))
    else Fetched(a.value, None)
  }

  /** `GetModel(id)`: the record with that key, if any. */
  function GetModel<F, C>(id: Id, find: Query<C> -> Answer<Record<F>>): (r: Fetched<Option<Record<F>>>)
    ensures var a := find(Query(KeyIs(id), None, None));
            && (a.error.Some? ==> r == Fetched(None, Some(Driver(a.error.value))))
            && (a.error.None? && a.rowsAffected == 0 ==> r == Fetched(None, None))
            && (a.error.None? && a.rowsAffected != 0 ==> r == Fetched(Some(a.value), None))
  {
    ReadOne(find(Query(KeyIs(id), None, None)))
  }

  /** `CheckExist(id)`: true exactly when the key lookup succeeds with a row;
      a query error reads as "does not exist". */
  function CheckExist<F, C>(id: Id, find: Query<C> -> Answer<Record<F>>): (b: bool)
    ensures var a := find(Query(KeyIs(id), None, None));
            b <==> a.error.None? && a.rowsAffected != 0
  {
    var a := find(Query(KeyIs(id), None, None));
    !(a.error.Some? || a.rowsAffected == 0)
  }

  /** `CheckExist` agrees with `GetModel` on the same backend. */
  lemma CheckExistMatchesGetModel<F, C>(id: Id, find: Query<C> -> Answer<Record<F>>)
    ensures CheckExist(id, find) <==> GetModel(id, find).value.Some?
  {
  }

  /** `GetList(startId, maxCount)`: a page of `maxCount` rows from offset
      `startId`, which is converted to a signed `int` on the way. */
  function GetList<F, C>(startId: Id, maxCount: int, find: Query<C> -> Answer<seq<Record<F>>>): (r: Fetched<seq<Record<F>>>)
    ensures var a := find(Query(AllRows, Some(maxCount), Some(ToInt64(startId))));
            r.value == a.value && r.error == AsError(a.error)
  {
    ReadMany(find(Query(AllRows, Some(maxCount), Some(ToInt64(startId)))))
  }

  /** `GetAll()`: every row, with no limit or offset. */
  function GetAll<F, C>(find: Query<C> -> Answer<seq<Record<F>>>): (r: Fetched<seq<Record<F>>>)
    ensures var a := find(Query(AllRows, None, None));
            r.value == a.value && r.error == AsError(a.error)
  {
    ReadMany(find(Query(AllRows, None, None)))
  }

  /** `GetCondition(query, args)`: the first row meeting the condition. */
  function GetCondition<F, C>(cond: C, find: Query<C> -> Answer<Record<F>>): (r: Fetched<Option<Record<F>>>)
    ensures var a := find(Query(Where(cond), None, None));
            && r.error == AsError(a.error)
            && (r.value.Some? <==> a.error.None? && a.rowsAffected != 0)
            && (r.value.Some? ==> r.value.value == a.value)
  {
    ReadOne(find(Query(Where(cond), None, None)))
  }

  /** `GetConditions(query, args)`: every row meeting the condition. */
  function GetConditions<F, C>(cond: C, find: Query<C> -> Answer<seq<Record<F>>>): (r: Fetched<seq<Record<F>>>)
    ensures var a := find(Query(Where(cond), None, None));
            r.value == a.value && r.error == AsError(a.error)
  {
    ReadMany(find(Query(Where(cond), None, None)))
  }

  /** The query `GetConditionsLimit` sends: a limit is attached exactly when
      `maxCount` is positive. */
  function LimitedQuery<C>(maxCount: int, cond: C): (q: Query<C>)
    ensures q.filter == Where(cond) && q.offset.None?
    ensures q.limit.Some? <==> maxCount > 0
    ensures q.limit.Some? ==> q.limit.value == maxCount
  {
    if maxCount > 0 then Query(Where(cond), Some(maxCount), None)
    else Query(Where(cond), None, None)
  }

  /** `GetConditionsLimit(maxCount, query, args)`: at most `maxCount` rows
      meeting the condition, or all of them when `maxCount <= 0`. */
  function GetConditionsLimit<F, C>(maxCount: int, cond: C, find: Query<C> -> Answer<seq<Record<F>>>): (r: Fetched<seq<Record<F>>>)
    ensures var a := find(LimitedQuery(maxCount, cond));
            r.value == a.value && r.error == AsError(a.error)
  {
    ReadMany(find(LimitedQuery(maxCount, cond)))
  }

  /** Without a positive bound, `GetConditionsLimit` is `GetConditions`. */
  lemma UnboundedLimitIsConditions<F, C>(maxCount: int, cond: C, find: Query<C> -> Answer<seq<Record<F>>>)
    requires maxCount <= 0
    ensures GetConditionsLimit(maxCount, cond, find) == GetConditions(cond, find)
  {
  }

  /** `GetCount(query, args)`: the count the backend reports; its error is
      dropped. */
  function GetCount<C>(cond: C, count: Query<C> -> Answer<int>): (n: int)
    ensures n == count(Query(Where(cond), None, None)).value
  {
    count(Query(Where(cond), None, None)).value
  }

  /** The count does not depend on the backend's error or row count: two
      backends reporting the same count give the same result. */
  lemma GetCountIgnoresError<C>(cond: C, count: Query<C> -> Answer<int>, other: Query<C> -> Answer<int>)
    requires other(Query(Where(cond), None, None)).value == count(Query(Where(cond), None, None)).value
    ensures GetCount(cond, other) == GetCount(cond, count)
    ensures count(Query(Where(cond), None, None)).error.Some? ==>
              GetCount(cond, count) == count(Query(Where(cond), None, None)).value
  {
  }

  // ---------------------------------------------------------------------
  // Deletes

  /** `Delete(id)`: only the driver's error is returned, so deleting a key
      that is not there succeeds. */
  function Delete<C>(id: Id, remove: Filter<C> -> Reply): (e: Option<DbError>)
    ensures e.None? <==> remove(KeyIs(id)).error.None?
    ensures e.Some? ==> e.value == Driver(remove(KeyIs(id)).error.value)
  {
    AsError(remove(KeyIs(id)).error)
  }

  /** `DeleteCondition(query, args)`: likewise for a condition. */
  function DeleteCondition<C>(cond: C, remove: Filter<C> -> Reply): (e: Option<DbError>)
    ensures e.None? <==> remove(Where(cond)).error.None?
    ensures e.Some? ==> e.value == Driver(remove(Where(cond)).error.value)
  {
    AsError(remove(Where(cond)).error)
  }

  /** Reads and deletes treat "no row" as success, `Update` as an error:
      the same error-free, zero-row answer gives no model and no error to
      `GetModel`, no error to `Delete`, and "does not exist" to `Update`. */
  lemma MissingRowAsymmetry<F, C>(m: Record<F>, now: DateTime, reply: Reply, v: Record<F>)
    requires reply == Reply(None, 0)
    ensures Update(m, now, (_: Record<F>) => reply).error == Some(UpdateRecordDoesNotExist)
    ensures Delete(m.id, (_: Filter<C>) => reply).None?
    ensures GetModel(m.id, (_: Query<C>) => Answer(reply.error, reply.rowsAffected, v)) == Fetched(None, None)
  {
  }

  // ---------------------------------------------------------------------
  // Batches

  /** The loop inside each `*List` transaction: submit the elements in order
      and stop at the first one whose submission fails, returning its error.
      `attempted` counts the elements submitted. */
  method RunBatch<X>(list: seq<X>, submit: X -> Option<DbError>) returns (err: Option<DbError>, attempted: nat)
    ensures attempted <= |list|
    ensures forall j :: 0 <= j < |list| && (j < attempted - 1 || (err.None? && j < attempted)) ==> submit(list[j]).None?
    ensures err.None? <==> forall j :: 0 <= j < |list| ==> submit(list[j]).None?
    ensures err.None? ==> attempted == |list|
    ensures err.Some? ==> 0 < attempted && err == submit(list[attempted - 1])
  {
    var i := 0;
    while i < |list|
      invariant 0 <= i <= |list|
      invariant forall j :: 0 <= j < i ==> submit(list[j]).None?
    {
      var e := submit(list[i]);
      if e.Some? {
        return e, i + 1;
      }
      i := i + 1;
    }
    return None, |list|;
  }

  /** The errors GORM's transaction wrapper itself reports: on starting the
      transaction, and on committing it. */
  datatype TxEnds = TxEnds(begin: Option<string>, commit: Option<string>)

  /** One `*List` transaction: a failed start is returned before any element
      is submitted; otherwise the loop runs, and its first failure is
      returned (the transaction is rolled back); if every element succeeds,
      the commit's error is returned. */
  method RunTransaction<X>(list: seq<X>, tx: TxEnds, submit: X -> Option<DbError>) returns (err: Option<DbError>, attempted: nat)
    ensures tx.begin.Some? ==> err == AsError(tx.begin) && attempted == 0
    ensures tx.begin.None? ==>
              (err.None? <==> tx.commit.None? && forall j :: 0 <= j < |list| ==> submit(list[j]).None?)
    ensures tx.begin.None? && (forall j :: 0 <= j < |list| ==> submit(list[j]).None?) ==>
              err == AsError(tx.commit) && attempted == |list|
    ensures tx.begin.None? && (exists j :: 0 <= j < |list| && submit(list[j]).Some?) ==>
              && 0 < attempted <= |list|
              && err == submit(list[attempted - 1]) && err.Some?
              && forall j :: 0 <= j < attempted - 1 ==> submit(list[j]).None?
  {
    if tx.begin.Some? {
      return AsError(tx.begin), 0;
    }
    err, attempted := RunBatch(list, submit);
    if err.None? {
      err := AsError(tx.commit);
    }
  }

  /** `CreateList`: insert every element in one transaction. A failed start
      is returned as is; otherwise the first failing insert's error is
      returned and the batch is rolled back; if all inserts succeed, the
      commit's error is returned. */
  method CreateList<F>(list: seq<Record<F>>, tx: TxEnds, insert: Record<F> -> Reply) returns (err: Option<DbError>)
    ensures tx.begin.Some? ==> err == AsError(tx.begin)
    ensures tx.begin.None? ==>
              (err.None? <==> tx.commit.None? && forall j :: 0 <= j < |list| ==> insert(list[j]).error.None?)
    ensures tx.begin.None? && (forall j :: 0 <= j < |list| ==> insert(list[j]).error.None?) ==>
              err == AsError(tx.commit)
    ensures tx.begin.None? && (exists j :: 0 <= j < |list| && insert(list[j]).error.Some?) ==>
              exists k :: 0 <= k < |list| && err == AsError(insert(list[k]).error) && err.Some?
                          && forall j :: 0 <= j < k ==> insert(list[j]).error.None?
  {
    var attempted;
    err, attempted := RunTransaction(list, tx, (x: Record<F>) => AsError(insert(x).error));
  }

  /** `UpdateList`: update every element in one transaction, with the same
      start, rollback and commit rules as `CreateList`. Unlike `Update`, only
      the driver's error counts: an element that changes no row does not
      stop the batch. */
  method UpdateList<F>(list: seq<Record<F>>, tx: TxEnds, updates: Record<F> -> Reply) returns (err: Option<DbError>)
    ensures tx.begin.Some? ==> err == AsError(tx.begin)
    ensures tx.begin.None? ==>
              (err.None? <==> tx.commit.None? && forall j :: 0 <= j < |list| ==> updates(list[j]).error.None?)
    ensures tx.begin.None? && (forall j :: 0 <= j < |list| ==> updates(list[j]).error.None?) ==>
              err == AsError(tx.commit)
    ensures tx.begin.None? && (exists j :: 0 <= j < |list| && updates(list[j]).error.Some?) ==>
              exists k :: 0 <= k < |list| && err == AsError(updates(list[k]).error) && err.Some?
                          && forall j :: 0 <= j < k ==> updates(list[j]).error.None?
  {
    var attempted;
    err, attempted := RunTransaction(list, tx, (x: Record<F>) => AsError(updates(x).error));
  }

  /** `SaveList`: upsert every element in one transaction, with the same
      start, rollback and commit rules as `CreateList`. */
  method SaveList<F>(list: seq<Record<F>>, tx: TxEnds, upsert: Record<F> -> Reply) returns (err: Option<DbError>)
    ensures tx.begin.Some? ==> err == AsError(tx.begin)
    ensures tx.begin.None? ==>
              (err.None? <==> tx.commit.None? && forall j :: 0 <= j < |list| ==> upsert(list[j]).error.None?)
    ensures tx.begin.None? && (forall j :: 0 <= j < |list| ==> upsert(list[j]).error.None?) ==>
              err == AsError(tx.commit)
    ensures tx.begin.None? && (exists j :: 0 <= j < |list| && upsert(list[j]).error.Some?) ==>
              exists k :: 0 <= k < |list| && err == AsError(upsert(list[k]).error) && err.Some?
                          && forall j :: 0 <= j < k ==> upsert(list[j]).error.None?
  {
    var attempted;
    err, attempted := RunTransaction(list, tx, (x: Record<F>) => AsError(upsert(x).error));
  }

  // ---------------------------------------------------------------------
  // Provisioning

  /** A data-access object over a connection handle. */
  datatype DataAccess<D> = DataAccess(db: D)

  /** What `NewDao` did: whether it migrated, and the object, if any. */
  datatype Provisioned<D> = Provisioned(migrated: bool, dao: Option<DataAccess<D>>)

  /** `NewDao`: an existing table is used as is; otherwise the table is
      migrated, and a failed migration gives no object. */
  function NewDao<D>(db: D, hasTable: bool, migrate: Option<string>): (r: Provisioned<D>)
    ensures r.migrated <==> !hasTable
    ensures r.dao.None? <==> !hasTable && migrate.Some?
    ensures r.dao.Some? ==> r.dao.value.db == db
  {
    if hasTable then Provisioned(false, Some(DataAccess(db)))
    else if migrate.Some? then Provisioned(true, None)
    else Provisioned(true, Some(DataAccess(db)))
  }
}
