/**
 * The three tables the change tracker writes, with the semantics of the SQL
 * statements it issues against them, and the Database object that executes
 * those statements one at a time.
 */
module Datastore {
  import opened Types

  /** Which touch table an entity's row goes to: ChangelistsApps or ChangelistsSubs. */
  datatype EntityKind = App | Sub

  /** Changelists (ChangeID -> Date), ChangelistsApps and ChangelistsSubs
      (sets of (ChangeID, entity ID) rows), and the clock that
      CURRENT_TIMESTAMP() and the Date column's default read. */
  datatype Tables = Tables(
    changelists: map<ChangeID, Date>,
    changelistsApps: set<(ChangeID, AppID)>,
    changelistsSubs: set<(ChangeID, PackageID)>,
    now: Date)

  function OtherKind(kind: EntityKind): EntityKind {
    if kind == App then Sub else App
  }

  function Touches(t: Tables, kind: EntityKind): set<(ChangeID, nat)> {
    match kind
    case App => t.changelistsApps
    case Sub => t.changelistsSubs
  }

  /** INSERT INTO Changelists (ChangeID) VALUES (id)
      ON DUPLICATE KEY UPDATE Date = CURRENT_TIMESTAMP():
      the row exists afterwards and carries the current time, new or not. */
  function UpsertChangelist(t: Tables, id: ChangeID): (r: Tables)
    ensures r.changelists.Keys == t.changelists.Keys + {id}
    ensures r.changelists[id] == t.now
    ensures forall k :: k in t.changelists && k != id ==> r.changelists[k] == t.changelists[k]
    ensures r.changelistsApps == t.changelistsApps && r.changelistsSubs == t.changelistsSubs
    ensures r.now == t.now
  {
    t.(changelists := t.changelists[id := t.now])
  }

  /** INSERT INTO Changelists (ChangeID) VALUES (id) ON DUPLICATE KEY UPDATE Date = Date:
      a missing row is created with the current time, an existing row is left as it is. */
  function InsertChangelistKeepingDate(t: Tables, id: ChangeID): (r: Tables)
    ensures r.changelists.Keys == t.changelists.Keys + {id}
    ensures forall k :: k in t.changelists ==> r.changelists[k] == t.changelists[k]
    ensures id !in t.changelists ==> r.changelists[id] == t.now
    ensures r.changelistsApps == t.changelistsApps && r.changelistsSubs == t.changelistsSubs
    ensures r.now == t.now
  {
    if id in t.changelists then t else t.(changelists := t.changelists[id := t.now])
  }

  /** INSERT IGNORE INTO ChangelistsApps/ChangelistsSubs (ChangeID, ID) VALUES (change, id). */
  function InsertIgnoreTouch(t: Tables, kind: EntityKind, change: ChangeID, id: nat): (r: Tables)
    ensures Touches(r, kind) == Touches(t, kind) + {(change, id)}
    ensures Touches(r, OtherKind(kind)) == Touches(t, OtherKind(kind))
    ensures r.changelists == t.changelists && r.now == t.now
  {
    match kind
    case App => t.(changelistsApps := t.changelistsApps + {(change, id)})
    case Sub => t.(changelistsSubs := t.changelistsSubs + {(change, id)})
  }

  /** The largest element of a non-empty set of change numbers. */
  ghost function MaxOf(s: set<ChangeID>): (m: ChangeID)
    requires s != {}
    ensures m in s
    ensures forall k :: k in s ==> k <= m
    decreases s
  {
    var x :| x in s;
    assert forall k :: k in s ==> k == x || k in s - {x};
    if s - {x} == {} then x
    else
      var rest := MaxOf(s - {x});
      if x < rest then rest else x
  }

  /** SELECT ChangeID FROM Changelists ORDER BY ChangeID DESC LIMIT 1. */
  ghost function Latest(t: Tables): Option<ChangeID> {
    if t.changelists.Keys == {} then None else Some(MaxOf(t.changelists.Keys))
  }

  /** The MySQL database as the tracker sees it (DbWorker). Every statement
      runs on its own; there is no transaction around several of them. */
  class Database {
    var changelists: map<ChangeID, Date>
    var changelistsApps: set<(ChangeID, AppID)>
    var changelistsSubs: set<(ChangeID, PackageID)>
    var now: Date

    function Contents(): Tables
      reads this
    {
      Tables(changelists, changelistsApps, changelistsSubs, now)
    }

    constructor (initial: Tables)
      ensures Contents() == initial
    {
      changelists := initial.changelists;
      changelistsApps := initial.changelistsApps;
      changelistsSubs := initial.changelistsSubs;
      now := initial.now;
    }

    /** The newest changelist on record, or None when the table is empty. */
    method LatestChangeId() returns (r: Option<ChangeID>)
      ensures r.None? <==> changelists.Keys == {}
      ensures r.Some? ==> r.value in changelists && forall k :: k in changelists ==> k <= r.value
    {
      r := None;
      var remaining := changelists.Keys;
      while remaining != {}
        invariant remaining <= changelists.Keys
        invariant r.None? ==> remaining == changelists.Keys
        invariant r.Some? ==> r.value in changelists
        invariant r.Some? ==> forall k :: k in changelists && k !in remaining ==> k <= r.value
        decreases remaining
      {
        var k :| k in remaining;
        if r.None? || r.value < k {
          r := Some(k);
        }
        remaining := remaining - {k};
      }
    }

    method UpsertChangelistRow(id: ChangeID)
      modifies this
      ensures Contents() == UpsertChangelist(old(Contents()), id)
    {
      changelists := changelists[id := now];
    }

    method InsertChangelistRow(id: ChangeID)
      modifies this
      ensures Contents() == InsertChangelistKeepingDate(old(Contents()), id)
    {
      if id !in changelists {
        changelists := changelists[id := now];
      }
    }

    method InsertTouchRow(kind: EntityKind, change: ChangeID, id: nat)
      modifies this
      ensures Contents() == InsertIgnoreTouch(old(Contents()), kind, change, id)
    {
      match kind
      case App => changelistsApps := changelistsApps + {(change, id)};
      case Sub => changelistsSubs := changelistsSubs + {(change, id)};
    }
  }
}
