/**
 * src/device/mod.rs: `DeviceManager` over the `devices` table, whose schema makes `id`
 * the primary key and `fingerprint` UNIQUE NOT NULL (src/db/schema.rs:17-23).
 *
 * The machine fingerprint and hardware description (src/device/fingerprint.rs), the
 * fresh UUID and the clock readings are inputs of each call.
 */
module Devices {
  import opened Errors
  import Ordering
  import Table

  /** `Device`: one row of `devices`. */
  datatype Device = Device(id: string, fingerprint: string, hardwareInfo: Option<string>, createdAt: Int64, lastSeen: Int64)

  type Rows = map<string, Device>

  /** What the schema enforces: rows stored under their id, and no fingerprint twice. */
  ghost predicate WellFormed(rows: Rows) {
    && (forall id | id in rows :: rows[id].id == id)
    && (forall a, b | a in rows && b in rows && rows[a].fingerprint == rows[b].fingerprint :: a == b)
  }

  /** `SELECT … FROM devices WHERE fingerprint = ?1`: the one row with this fingerprint, if any. */
  function FindByFingerprint(rows: Rows, fingerprint: string): (r: Option<Device>)
    requires WellFormed(rows)
    ensures r.None? <==> forall id | id in rows :: rows[id].fingerprint != fingerprint
    ensures r.Some? ==> r.value.fingerprint == fingerprint && r.value.id in rows && rows[r.value.id] == r.value
  {
    if exists id | id in rows :: rows[id].fingerprint == fingerprint then
      var id :| id in rows && rows[id].fingerprint == fingerprint;
      Some(rows[id])
    else
      None
  }

  /** A plain INSERT: refused when the id or the fingerprint is already present. */
  function Insert(rows: Rows, device: Device): (r: Result<Rows>)
    ensures r.Ok? <==> device.id !in rows && forall id | id in rows :: rows[id].fingerprint != device.fingerprint
    ensures r.Ok? ==> r.value == rows[device.id := device]
  {
    if device.id in rows then Err(Database(UniqueConstraint("id")))
    else if exists id | id in rows :: rows[id].fingerprint == device.fingerprint then
      Err(Database(UniqueConstraint("fingerprint")))
    else Ok(rows[device.id := device])
  }

  /**
   * `get_or_create_fingerprint` as a function of its inputs: the returned device and the
   * table afterwards. `now` is the clock reading of the update branch, and of `created_at`
   * in the insert branch; `later` is the second reading, for `last_seen` there.
   */
  function GetOrCreate(rows: Rows, fingerprint: Result<string>, hardwareInfo: Result<string>, newId: string,
                       now: Int64, later: Int64): (r: Result<(Device, Rows)>)
    requires WellFormed(rows)
    ensures fingerprint.Err? ==> r == Err(fingerprint.error)
    ensures r.Ok? ==> r.value.0.fingerprint == fingerprint.value
    ensures r.Ok? ==> r.value.0.id in r.value.1 && r.value.1[r.value.0.id] == r.value.0
  {
    var fp :- fingerprint;
    match FindByFingerprint(rows, fp)
    case Some(existing) =>
      var device := existing.(lastSeen := now);
      Ok((device, rows[device.id := device]))
    case None =>
      var hw :- hardwareInfo;
      var device := Device(newId, fp, Some(hw), now, later);
      var inserted :- Insert(rows, device);
      Ok((device, inserted))
  }

  /** A stored fingerprint gives back that row, with only its `last_seen` changed. */
  lemma GetOrCreateExisting(rows: Rows, fp: string, hardwareInfo: Result<string>, newId: string, now: Int64, later: Int64)
    requires WellFormed(rows)
    requires exists id | id in rows :: rows[id].fingerprint == fp
    ensures var r := GetOrCreate(rows, Ok(fp), hardwareInfo, newId, now, later);
            && r.Ok?
            && r.value.0.id in rows && rows[r.value.0.id].fingerprint == fp
            && r.value.0 == rows[r.value.0.id].(lastSeen := now)
            && r.value.1 == rows[r.value.0.id := r.value.0]
  {
  }

  /** A new fingerprint adds exactly one row, carrying that fingerprint and `Some` hardware info. */
  lemma GetOrCreateNew(rows: Rows, fp: string, hw: string, newId: string, now: Int64, later: Int64)
    requires WellFormed(rows)
    requires forall id | id in rows :: rows[id].fingerprint != fp
    requires newId !in rows
    ensures var r := GetOrCreate(rows, Ok(fp), Ok(hw), newId, now, later);
            && r.Ok?
            && r.value.0 == Device(newId, fp, Some(hw), now, later)
            && r.value.1 == rows[newId := r.value.0]
            && |r.value.1| == |rows| + 1
  {
  }

  /** No step of `get_or_create_fingerprint` breaks the schema's guarantees. */
  lemma GetOrCreatePreserves(rows: Rows, fingerprint: Result<string>, hardwareInfo: Result<string>, newId: string,
                             now: Int64, later: Int64)
    requires WellFormed(rows)
    requires GetOrCreate(rows, fingerprint, hardwareInfo, newId, now, later).Ok?
    ensures WellFormed(GetOrCreate(rows, fingerprint, hardwareInfo, newId, now, later).value.1)
    ensures GetOrCreate(rows, fingerprint, hardwareInfo, newId, now, later).value.1.Keys >= rows.Keys
  {
    var fp := fingerprint.value;
    var after := GetOrCreate(rows, fingerprint, hardwareInfo, newId, now, later).value.1;
    match FindByFingerprint(rows, fp)
    case Some(existing) =>
      assert after == rows[existing.id := existing.(lastSeen := now)];
    case None =>
      assert after == rows[newId := Device(newId, fp, Some(hardwareInfo.value), now, later)];
  }

  /**
   * test_device_manager: on an empty table, two calls with the same fingerprint return the
   * same id and leave exactly one row.
   */
  lemma TwoCallsOneRow(fp: string, hw1: Result<string>, hw2: Result<string>, id1: string, id2: string,
                       now1: Int64, later1: Int64, now2: Int64, later2: Int64)
    requires GetOrCreate(map[], Ok(fp), hw1, id1, now1, later1).Ok?
    ensures var first := GetOrCreate(map[], Ok(fp), hw1, id1, now1, later1).value;
            WellFormed(first.1) &&
            var second := GetOrCreate(first.1, Ok(fp), hw2, id2, now2, later2);
            && second.Ok?
            && second.value.0.id == first.0.id
            && |second.value.1| == 1
  {
    var first := GetOrCreate(map[], Ok(fp), hw1, id1, now1, later1).value;
    GetOrCreatePreserves(map[], Ok(fp), hw1, id1, now1, later1);
    assert first.1 == map[id1 := first.0];
    assert first.1[id1].fingerprint == fp;
    GetOrCreateExisting(first.1, fp, hw2, id2, now2, later2);
    var second := GetOrCreate(first.1, Ok(fp), hw2, id2, now2, later2).value;
    assert second.1.Keys == {id1};
  }

  /** The `devices` table. */
  class DevicesTable {
    var rows: Rows

    constructor (rows: Rows)
      ensures this.rows == rows
    {
      this.rows := rows;
    }
  }

  class DeviceManager {
    const db: DevicesTable

    ghost predicate Valid()
      reads db
    {
      WellFormed(db.rows)
    }

    /** `DeviceManager::new`. */
    constructor (db: DevicesTable)
      requires WellFormed(db.rows)
      ensures this.db == db && Valid()
    {
      this.db := db;
    }

    /** `get_or_create_fingerprint`: look up by fingerprint, then UPDATE `last_seen` or INSERT. */
    method GetOrCreateFingerprint(fingerprint: Result<string>, hardwareInfo: Result<string>, newId: string,
                                  now: Int64, later: Int64) returns (r: Result<Device>)
      requires Valid()
      modifies db
      ensures Valid()
      ensures var g := GetOrCreate(old(db.rows), fingerprint, hardwareInfo, newId, now, later);
              && (r.Ok? <==> g.Ok?)
              && (r.Ok? ==> r.value == g.value.0 && db.rows == g.value.1)
              && (r.Err? ==> r.error == g.error && db.rows == old(db.rows))
    {
      var fp :- fingerprint;
      var existing := FindByFingerprint(db.rows, fp);
      if existing.Some? {
        var device := existing.value;
        device := device.(lastSeen := now);
        db.rows := db.rows[device.id := device];
        GetOrCreatePreserves(old(db.rows), fingerprint, hardwareInfo, newId, now, later);
        return Ok(device);
      } else {
        var hw :- hardwareInfo;
        var device := Device(newId, fp, Some(hw), now, later);
        var inserted :- Insert(db.rows, device);
        db.rows := inserted;
        GetOrCreatePreserves(old(db.rows), fingerprint, hardwareInfo, newId, now, later);
        return Ok(device);
      }
    }

    /** `get_device`: the row with this id, `None` when there is none. */
    function GetDevice(id: string): (r: Result<Option<Device>>)
      reads db
      requires Valid()
      ensures r.Ok?
      ensures r.value.Some? <==> id in db.rows
      ensures r.value.Some? ==> r.value.value == db.rows[id] && r.value.value.id == id
    {
      Ok(Table.Lookup(db.rows, id))
    }

    /** `list_devices`: every row once, latest `last_seen` first. */
    method ListDevices() returns (r: Result<seq<Device>>)
      requires Valid()
      ensures r.Ok?
      ensures |r.value| == |db.rows|
      ensures forall i | 0 <= i < |r.value| :: r.value[i].id in db.rows && db.rows[r.value[i].id] == r.value[i]
      ensures forall id | id in db.rows :: db.rows[id] in r.value
      ensures forall i, j | 0 <= i < j < |r.value| :: r.value[i].id != r.value[j].id
      ensures forall i, j | 0 <= i < j < |r.value| :: r.value[i].lastSeen >= r.value[j].lastSeen
    {
      var ids, devices := Ordering.RowsByRankDesc(db.rows, (d: Device) => d.lastSeen);
      return Ok(devices);
    }
  }
}
