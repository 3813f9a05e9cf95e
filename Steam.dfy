/**
 * The Steam class of the backend: its state fields, the datastore it writes
 * and the log of commands it issues, with one method per callback handler.
 * Each method is proved to leave the object in the state the corresponding
 * function of module Handlers describes.
 */
module Backend {
  import opened Types
  import opened Datastore
  import opened Requests
  import Handlers

  /** One of the foreach loops of OnPICSProductInfo: queue one work unit per
      element, in order. */
  method QueueWork<T>(xs: seq<T>, unit: T -> Command) returns (queued: seq<Command>)
    ensures queued == Handlers.MapCommands(xs, unit)
  {
    queued := [];
    for i := 0 to |xs|
      invariant queued == Handlers.MapCommands(xs[..i], unit)
    {
      queued := queued + [unit(xs[i])];
      assert xs[..i + 1][..i] == xs[..i];
    }
    assert xs[..|xs|] == xs;
  }

  class Steam {
    /** Settings.Current: the FullRun mode and the login. */
    const config: Config
    /** The database behind DbWorker. */
    const db: Database

    var previousChange: ChangeID
    var fullRun: bool
    var isRunning: bool
    /** Whether the one-second poll timer is started. */
    var timerRunning: bool
    /** Program.ircSteam.IRCRequests, as job IDs. */
    var pendingRequests: seq<JobID>
    /** Every command issued so far, oldest first. */
    var log: seq<Command>

    ghost function Snapshot(): Handlers.State
      reads this, db
    {
      Handlers.State(previousChange, fullRun, isRunning, timerRunning, pendingRequests, db.Contents(), log)
    }

    constructor (config: Config, db: Database)
      ensures this.config == config && this.db == db
      ensures Snapshot() == Handlers.Initial(db.Contents())
    {
      this.config := config;
      this.db := db;
      previousChange := 0;
      fullRun := false;
      isRunning := true;
      timerRunning := false;
      pendingRequests := [];
      log := [];
    }

    method GetPICSChanges()
      modifies this
      ensures Snapshot() == Handlers.GetPICSChanges(old(Snapshot()))
    {
      log := log + [RequestChangesSince(previousChange)];
    }

    method GetLastChangeNumber()
      modifies this
      ensures Snapshot() == Handlers.GetLastChangeNumber(old(Snapshot()), config)
    {
      if !fullRun && config.fullRun > 0 {
        previousChange := Handlers.FullRunStart;
        return;
      }
      var latest := db.LatestChangeId();
      if latest.Some? {
        previousChange := latest.value;
      }
    }

    /** Run, lines 98-100: everything before the callback loop that is not wiring. */
    method Start()
      modifies this
      ensures Snapshot() == Handlers.Start(old(Snapshot()), config)
    {
      GetLastChangeNumber();
      log := log + [Connect];
    }

    method OnTimer()
      modifies this
      ensures Snapshot() == Handlers.GetPICSChanges(old(Snapshot()))
    {
      GetPICSChanges();
    }

    method OnConnected(result: EResult) returns (outcome: Outcome)
      modifies this
      ensures outcome == Handlers.ConnectOutcome(result)
      ensures Snapshot() == Handlers.OnConnected(old(Snapshot()), config, result)
    {
      if result != OK {
        return CouldNotConnect(result);
      }
      log := log + [LogOn(config.credentials)];
      return Continue;
    }

    method OnDisconnected()
      modifies this
      ensures Snapshot() == Handlers.OnDisconnected(old(Snapshot()))
    {
      timerRunning := false;
      log := log + [StopTimer];
      if !isRunning {
        return;
      }
      log := log + [Sleep(Handlers.RetryDelay)];
      log := log + [Connect];
    }

    method OnLoggedOn(result: EResult)
      modifies this
      ensures Snapshot() == Handlers.OnLoggedOn(old(Snapshot()), config, result)
    {
      if result != OK {
        log := log + [Sleep(Handlers.LoginFailurePause)];
        return;
      }
      if fullRun {
        return;
      }
      if config.fullRun > 0 {
        fullRun := true;
        GetPICSChanges();
      } else {
        timerRunning := true;
        log := log + [StartTimer];
      }
    }

    /** The body of the task spawned at line 253, for one of its two loops:
        the rows every changed entity of one kind causes. */
    method PersistEntities(kind: EntityKind, current: ChangeID, entries: seq<ChangeData>)
      modifies db
      ensures db.Contents() == Handlers.RecordEntries(old(db.Contents()), kind, current, entries)
    {
      for i := 0 to |entries|
        invariant db.Contents() == Handlers.RecordEntries(old(db.Contents()), kind, current, entries[..i])
      {
        var e := entries[i];
        if current != e.changeNumber {
          db.InsertChangelistRow(e.changeNumber);
        }
        db.InsertTouchRow(kind, e.changeNumber, e.id);
        assert entries[..i + 1][..i] == entries[..i];
      }
      assert entries[..|entries|] == entries;
    }

    method OnPICSChanges(changes: PICSChanges)
      modifies this, db
      ensures Snapshot() == Handlers.OnPICSChanges(old(Snapshot()), changes)
    {
      if fullRun {
        if previousChange == Handlers.FullRunStart {
          previousChange := Handlers.FullRunIssued;
          log := log + [RequestProductInfo(Handlers.Ids(changes.appChanges), Handlers.Ids(changes.packageChanges))];
        }
        return;
      } else if previousChange == changes.currentChangeNumber {
        return;
      }
      var current := changes.currentChangeNumber;
      previousChange := current;
      log := log + [AnnounceChanges(current, changes)];
      db.UpsertChangelistRow(current);
      if |changes.appChanges| == 0 && |changes.packageChanges| == 0 {
        return;
      }
      PersistEntities(App, current, changes.appChanges);
      PersistEntities(Sub, current, changes.packageChanges);
      log := log + [RequestProductInfo(Handlers.Ids(changes.appChanges), Handlers.Ids(changes.packageChanges))];
    }

    method OnPICSProductInfo(reply: PICSProductInfo, job: JobID)
      modifies this
      ensures Snapshot() == Handlers.OnPICSProductInfo(old(Snapshot()), config, reply, job)
    {
      var request := IndexOfJob(pendingRequests, job);
      if request.Some? {
        pendingRequests := RemoveAt(pendingRequests, request.value);
        log := log + [RouteToRequest(job, reply)];
        return;
      }
      var apps := QueueWork(reply.apps, Handlers.AppCommand);
      var subs := QueueWork(reply.packages, Handlers.SubCommand);
      var unknown: seq<Command> := [];
      if config.fullRun != 1 {
        unknown := QueueWork(reply.unknownApps, Handlers.UnknownAppCommand);
      }
      assert apps + subs + unknown == Handlers.BulkDispatch(reply, config.fullRun);
      log := log + (apps + subs + unknown);
    }
  }
}
