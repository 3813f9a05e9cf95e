/**
 * What the change tracker promises, proved about the handler functions of
 * module Handlers (and so, through their contracts, about Backend.Steam).
 */
module Properties {
  import opened Types
  import opened Datastore
  import opened Requests
  import opened Handlers

  // ---------------------------------------------------------------------
  // Sequences of commands
  // ---------------------------------------------------------------------

  lemma {:induction false} CountAppend(a: seq<Command>, b: seq<Command>, p: Command -> bool)
    ensures Count(a + b, p) == Count(a, p) + Count(b, p)
    decreases |b|
  {
    if |b| == 0 {
      assert a + b == a;
    } else {
      var init := b[..|b| - 1];
      CountAppend(a, init, p);
      assert (a + b)[..|a + b| - 1] == a + init;
      assert (a + b)[|a + b| - 1] == b[|b| - 1];
    }
  }

  /** Appending commands none of which satisfies p leaves the count of p. */
  lemma AppendNone(log: seq<Command>, added: seq<Command>, p: Command -> bool)
    requires forall i :: 0 <= i < |added| ==> !p(added[i])
    ensures Count(log + added, p) == Count(log, p)
  {
    CountNone(added, p);
    CountAppend(log, added, p);
  }

  lemma {:induction false} CountNone(log: seq<Command>, p: Command -> bool)
    requires forall i :: 0 <= i < |log| ==> !p(log[i])
    ensures Count(log, p) == 0
    decreases |log|
  {
    if |log| > 0 {
      CountNone(log[..|log| - 1], p);
    }
  }

  /** The i-th command is the one for the i-th element, and there are no others. */
  lemma {:induction false} MapCommandsAt<T>(xs: seq<T>, f: T -> Command)
    ensures |MapCommands(xs, f)| == |xs|
    ensures forall i :: 0 <= i < |xs| ==> MapCommands(xs, f)[i] == f(xs[i])
    decreases |xs|
  {
    if |xs| > 0 {
      MapCommandsAt(xs[..|xs| - 1], f);
    }
  }

  lemma AppsQueued(xs: seq<ProductEntry>)
    ensures var q := MapCommands(xs, AppCommand);
      |q| == |xs| && forall i :: 0 <= i < |xs| ==> q[i] == ProcessApp(xs[i].id, xs[i].payload)
  {
    MapCommandsAt(xs, AppCommand);
  }

  lemma SubsQueued(xs: seq<ProductEntry>)
    ensures var q := MapCommands(xs, SubCommand);
      |q| == |xs| && forall i :: 0 <= i < |xs| ==> q[i] == ProcessSub(xs[i].id, xs[i].payload)
  {
    MapCommandsAt(xs, SubCommand);
  }

  lemma UnknownAppsQueued(xs: seq<AppID>)
    ensures var q := MapCommands(xs, UnknownAppCommand);
      |q| == |xs| && forall i :: 0 <= i < |xs| ==> q[i] == ProcessUnknownApp(xs[i])
  {
    MapCommandsAt(xs, UnknownAppCommand);
  }

  // ---------------------------------------------------------------------
  // Baseline selection and the session
  // ---------------------------------------------------------------------

  /** A configured full run that has not started starts from 1; otherwise the
      baseline is the newest stored changelist, or stays as it was when the
      table is empty. Nothing but the baseline changes. */
  lemma BaselineSelection(s: State, cfg: Config)
    ensures var t := GetLastChangeNumber(s, cfg);
      && t == s.(previousChange := t.previousChange)
      && (!s.fullRun && cfg.fullRun > 0 ==> t.previousChange == FullRunStart)
      && (s.fullRun || cfg.fullRun == 0 ==>
            && (s.tables.changelists.Keys == {} ==> t.previousChange == s.previousChange)
            && (s.tables.changelists.Keys != {} ==>
                  && t.previousChange in s.tables.changelists
                  && forall k :: k in s.tables.changelists ==> k <= t.previousChange))
  {
  }

  /** A failed connect ends the process without logging on; a successful one
      logs on exactly once, with the configured credentials. */
  lemma ConnectResult(s: State, cfg: Config, result: EResult)
    ensures result != OK ==>
      ConnectOutcome(result) == CouldNotConnect(result) && OnConnected(s, cfg, result) == s
    ensures result == OK ==>
      ConnectOutcome(result) == Continue
      && OnConnected(s, cfg, result) == s.(log := s.log + [LogOn(cfg.credentials)])
  {
  }

  /** A disconnect always stops the timer; it reconnects, once and after the
      retry delay, only while the process is meant to be running. */
  lemma DisconnectReconnects(s: State)
    ensures var t := OnDisconnected(s);
      && t == s.(timerRunning := false, log := t.log)
      && !t.timerRunning
      && (!s.isRunning ==> t.log == s.log + [StopTimer])
      && (s.isRunning ==> t.log == s.log + [StopTimer, Sleep(RetryDelay), Connect])
  {
  }

  /** A failed login changes nothing but pauses; no request is issued. */
  lemma LoginFailureIssuesNothing(s: State, cfg: Config, result: EResult)
    requires result != OK
    ensures OnLoggedOn(s, cfg, result) == s.(log := s.log + [Sleep(LoginFailurePause)])
  {
  }

  /** Once the full run has started, a later successful login does nothing. */
  lemma LoginLatched(s: State, cfg: Config)
    requires s.fullRun
    ensures OnLoggedOn(s, cfg, OK) == s
  {
  }

  /** The first successful login arms the poller: the one-shot changes
      request of a full run, or the poll timer. */
  lemma LoginArmsPoller(s: State, cfg: Config)
    requires !s.fullRun
    ensures cfg.fullRun > 0 ==>
      OnLoggedOn(s, cfg, OK) == s.(fullRun := true, log := s.log + [RequestChangesSince(s.previousChange)])
    ensures cfg.fullRun == 0 ==>
      OnLoggedOn(s, cfg, OK) == s.(timerRunning := true, log := s.log + [StartTimer])
  {
  }

  // ---------------------------------------------------------------------
  // Changes-since replies
  // ---------------------------------------------------------------------

  /** In a full run the first diff becomes one product-info request for exactly
      its keys and moves the baseline from 1 to 2; any other diff is dropped.
      Neither writes to the datastore. */
  lemma FullRunDiff(s: State, c: PICSChanges)
    requires s.fullRun
    ensures OnPICSChanges(s, c).tables == s.tables
    ensures s.previousChange == FullRunStart ==>
      OnPICSChanges(s, c) == s.(previousChange := FullRunIssued,
                                log := s.log + [RequestProductInfo(Ids(c.appChanges), Ids(c.packageChanges))])
    ensures s.previousChange != FullRunStart ==> OnPICSChanges(s, c) == s
  {
  }

  /** A diff whose change number is the baseline is a no-op. */
  lemma DuplicateDiffIsNoOp(s: State, c: PICSChanges)
    requires !s.fullRun && s.previousChange == c.currentChangeNumber
    ensures OnPICSChanges(s, c) == s
  {
  }

  /** Delivering the same diff again right after it was handled changes nothing. */
  lemma RedeliveredDiffIsNoOp(s: State, c: PICSChanges)
    ensures OnPICSChanges(OnPICSChanges(s, c), c) == OnPICSChanges(s, c)
  {
  }

  /** The (change number, ID) rows a list of changed entities touches. */
  ghost function TouchRows(entries: seq<ChangeData>): set<(ChangeID, nat)> {
    set e | e in entries :: (e.changeNumber, e.id)
  }

  /** The change numbers of entities that changed at another changelist than
      the polled one. */
  ghost function IndirectChanges(entries: seq<ChangeData>, current: ChangeID): set<ChangeID> {
    set e | e in entries && e.changeNumber != current :: e.changeNumber
  }

  /** The touch rows the per-entity loop writes: exactly the old rows plus
      (own change number, ID) of every entry, in the table of its kind; the
      other touch table and the clock are left alone. */
  lemma {:induction false} RecordEntriesTouches(t: Tables, kind: EntityKind, current: ChangeID, entries: seq<ChangeData>)
    ensures var r := RecordEntries(t, kind, current, entries);
      && r.now == t.now
      && Touches(r, kind) == Touches(t, kind) + TouchRows(entries)
      && Touches(r, OtherKind(kind)) == Touches(t, OtherKind(kind))
    decreases |entries|
  {
    if |entries| > 0 {
      var init := entries[..|entries| - 1];
      var e := entries[|entries| - 1];
      RecordEntriesTouches(t, kind, current, init);
      assert entries == init + [e];
      assert TouchRows(entries) == TouchRows(init) + {(e.changeNumber, e.id)};
    }
  }

  /** The Changelists rows the per-entity loop writes: a row for every entry
      change number other than the polled one, no existing date altered, new
      rows dated now. */
  lemma {:induction false} RecordEntriesChangelists(t: Tables, kind: EntityKind, current: ChangeID, entries: seq<ChangeData>)
    ensures var r := RecordEntries(t, kind, current, entries);
      && r.changelists.Keys == t.changelists.Keys + IndirectChanges(entries, current)
      && (forall k :: k in t.changelists ==> r.changelists[k] == t.changelists[k])
      && (forall k :: k in r.changelists && k !in t.changelists ==> r.changelists[k] == t.now)
    decreases |entries|
  {
    if |entries| > 0 {
      var init := entries[..|entries| - 1];
      var e := entries[|entries| - 1];
      RecordEntriesChangelists(t, kind, current, init);
      RecordEntriesTouches(t, kind, current, init);
      assert entries == init + [e];
      assert IndirectChanges(entries, current)
          == IndirectChanges(init, current) + (if e.changeNumber != current then {e.changeNumber} else {});
    }
  }

  /** Writing the rows for the same entities twice leaves the tables as
      writing them once: every statement is an insert-ignore or keeps dates. */
  lemma RecordEntriesIdempotent(t: Tables, kind: EntityKind, current: ChangeID, entries: seq<ChangeData>)
    ensures RecordEntries(RecordEntries(t, kind, current, entries), kind, current, entries)
         == RecordEntries(t, kind, current, entries)
  {
    var r := RecordEntries(t, kind, current, entries);
    var r2 := RecordEntries(r, kind, current, entries);
    RecordEntriesTouches(t, kind, current, entries);
    RecordEntriesTouches(r, kind, current, entries);
    RecordEntriesChangelists(t, kind, current, entries);
    RecordEntriesChangelists(r, kind, current, entries);
    assert r2.changelists == r.changelists;
    match kind
    case App => assert r2.changelistsApps == r.changelistsApps;
    case Sub => assert r2.changelistsSubs == r.changelistsSubs;
  }

  /** A new incremental diff: the baseline becomes its change number, whose
      Changelists row is dated now whether or not it existed; an empty diff
      writes nothing else and requests nothing, a non-empty one ends with
      exactly one product-info request for exactly its keys. */
  lemma NewDiff(s: State, c: PICSChanges)
    requires !s.fullRun && s.previousChange != c.currentChangeNumber
    ensures var t := OnPICSChanges(s, c);
      && t == s.(previousChange := c.currentChangeNumber, tables := t.tables, log := t.log)
      && c.currentChangeNumber in t.tables.changelists
      && t.tables.changelists[c.currentChangeNumber] == s.tables.now
      && (|c.appChanges| == 0 && |c.packageChanges| == 0 ==>
            && t.tables == UpsertChangelist(s.tables, c.currentChangeNumber)
            && t.log == s.log + [AnnounceChanges(c.currentChangeNumber, c)])
      && (|c.appChanges| > 0 || |c.packageChanges| > 0 ==>
            t.log == s.log + [AnnounceChanges(c.currentChangeNumber, c),
                              RequestProductInfo(Ids(c.appChanges), Ids(c.packageChanges))])
  {
    var current := c.currentChangeNumber;
    var t1 := UpsertChangelist(s.tables, current);
    var t2 := RecordEntries(t1, App, current, c.appChanges);
    RecordEntriesChangelists(t1, App, current, c.appChanges);
    RecordEntriesChangelists(t2, Sub, current, c.packageChanges);
  }

  /** The per-entity rows of a non-empty incremental diff: a touch row
      (the entity's own change number, its ID) for every app and package, a
      Changelists row for every entity change number other than the polled
      one, and no date of an existing row other than the polled one altered. */
  lemma EntityWrites(s: State, c: PICSChanges)
    requires !s.fullRun && s.previousChange != c.currentChangeNumber
    requires |c.appChanges| > 0 || |c.packageChanges| > 0
    ensures var t := OnPICSChanges(s, c).tables;
      && t.changelistsApps == s.tables.changelistsApps + TouchRows(c.appChanges)
      && t.changelistsSubs == s.tables.changelistsSubs + TouchRows(c.packageChanges)
      && t.changelists.Keys == s.tables.changelists.Keys + {c.currentChangeNumber}
                               + IndirectChanges(c.appChanges, c.currentChangeNumber)
                               + IndirectChanges(c.packageChanges, c.currentChangeNumber)
      && (forall k :: k in s.tables.changelists && k != c.currentChangeNumber ==>
            t.changelists[k] == s.tables.changelists[k])
      && (forall k :: k in t.changelists && k !in s.tables.changelists ==> t.changelists[k] == s.tables.now)
  {
    var current := c.currentChangeNumber;
    var t1 := UpsertChangelist(s.tables, current);
    var t2 := RecordEntries(t1, App, current, c.appChanges);
    RecordEntriesTouches(t1, App, current, c.appChanges);
    RecordEntriesTouches(t2, Sub, current, c.packageChanges);
    RecordEntriesChangelists(t1, App, current, c.appChanges);
    RecordEntriesChangelists(t2, Sub, current, c.packageChanges);
  }

  // ---------------------------------------------------------------------
  // Product-info replies
  // ---------------------------------------------------------------------

  /** A reply nobody waits for becomes, in order, one ProcessApp per app, one
      ProcessSub per package and, unless FullRun is 1, one ProcessUnknownApp
      per unknown app, and nothing more. */
  lemma BulkDispatchCoversReply(reply: PICSProductInfo, fullRunSetting: nat)
    ensures var d := BulkDispatch(reply, fullRunSetting);
      var a := |reply.apps|;
      var p := |reply.packages|;
      && |d| == a + p + (if fullRunSetting != 1 then |reply.unknownApps| else 0)
      && (forall i :: 0 <= i < a ==> d[i] == ProcessApp(reply.apps[i].id, reply.apps[i].payload))
      && (forall i :: 0 <= i < p ==> d[a + i] == ProcessSub(reply.packages[i].id, reply.packages[i].payload))
      && (fullRunSetting != 1 ==>
            forall i :: 0 <= i < |reply.unknownApps| ==> d[a + p + i] == ProcessUnknownApp(reply.unknownApps[i]))
  {
    DispatchLength(reply, fullRunSetting);
    DispatchApps(reply, fullRunSetting);
    DispatchSubs(reply, fullRunSetting);
    if fullRunSetting != 1 {
      DispatchUnknownApps(reply, fullRunSetting);
    }
  }

  lemma DispatchLength(reply: PICSProductInfo, fullRunSetting: nat)
    ensures |BulkDispatch(reply, fullRunSetting)|
      == |reply.apps| + |reply.packages| + (if fullRunSetting != 1 then |reply.unknownApps| else 0)
  {
    AppsQueued(reply.apps);
    SubsQueued(reply.packages);
    UnknownAppsQueued(reply.unknownApps);
  }

  lemma DispatchApps(reply: PICSProductInfo, fullRunSetting: nat)
    ensures |BulkDispatch(reply, fullRunSetting)|
      == |reply.apps| + |reply.packages| + (if fullRunSetting != 1 then |reply.unknownApps| else 0)
    ensures var d := BulkDispatch(reply, fullRunSetting);
      forall i :: 0 <= i < |reply.apps| ==> d[i] == ProcessApp(reply.apps[i].id, reply.apps[i].payload)
  {
    DispatchLength(reply, fullRunSetting);
    var apps := MapCommands(reply.apps, AppCommand);
    var rest := MapCommands(reply.packages, SubCommand)
      + (if fullRunSetting != 1 then MapCommands(reply.unknownApps, UnknownAppCommand) else []);
    assert BulkDispatch(reply, fullRunSetting) == apps + rest;
    AppsQueued(reply.apps);
  }

  lemma DispatchSubs(reply: PICSProductInfo, fullRunSetting: nat)
    ensures |BulkDispatch(reply, fullRunSetting)|
      == |reply.apps| + |reply.packages| + (if fullRunSetting != 1 then |reply.unknownApps| else 0)
    ensures var d := BulkDispatch(reply, fullRunSetting);
      forall i :: 0 <= i < |reply.packages| ==>
        d[|reply.apps| + i] == ProcessSub(reply.packages[i].id, reply.packages[i].payload)
  {
    DispatchLength(reply, fullRunSetting);
    var apps := MapCommands(reply.apps, AppCommand);
    var subs := MapCommands(reply.packages, SubCommand);
    var unknown := if fullRunSetting != 1 then MapCommands(reply.unknownApps, UnknownAppCommand) else [];
    var d := apps + subs + unknown;
    assert BulkDispatch(reply, fullRunSetting) == d;
    AppsQueued(reply.apps);
    SubsQueued(reply.packages);
    forall i | 0 <= i < |reply.packages|
      ensures d[|reply.apps| + i] == ProcessSub(reply.packages[i].id, reply.packages[i].payload)
    {
      assert d[|apps| + i] == subs[i];
    }
  }

  lemma DispatchUnknownApps(reply: PICSProductInfo, fullRunSetting: nat)
    requires fullRunSetting != 1
    ensures |BulkDispatch(reply, fullRunSetting)| == |reply.apps| + |reply.packages| + |reply.unknownApps|
    ensures var d := BulkDispatch(reply, fullRunSetting);
      forall i :: 0 <= i < |reply.unknownApps| ==>
        d[|reply.apps| + |reply.packages| + i] == ProcessUnknownApp(reply.unknownApps[i])
  {
    var apps := MapCommands(reply.apps, AppCommand);
    var subs := MapCommands(reply.packages, SubCommand);
    var unknown := MapCommands(reply.unknownApps, UnknownAppCommand);
    var d := apps + subs + unknown;
    assert BulkDispatch(reply, fullRunSetting) == d;
    AppsQueued(reply.apps);
    SubsQueued(reply.packages);
    UnknownAppsQueued(reply.unknownApps);
    forall i | 0 <= i < |reply.unknownApps|
      ensures d[|reply.apps| + |reply.packages| + i] == ProcessUnknownApp(reply.unknownApps[i])
    {
      assert d[|apps + subs| + i] == unknown[i];
    }
  }

  /** Every command of a bulk dispatch is a work unit for a processor; with
      FullRun 1 none of them is for an unknown app, and unknown packages never
      get one. */
  lemma BulkDispatchOnlyWork(reply: PICSProductInfo, fullRunSetting: nat)
    ensures var d := BulkDispatch(reply, fullRunSetting);
      && (forall i :: 0 <= i < |d| ==> IsDispatch(d[i]))
      && (fullRunSetting == 1 ==> forall i :: 0 <= i < |d| ==> !d[i].ProcessUnknownApp?)
  {
    var d := BulkDispatch(reply, fullRunSetting);
    var a := |reply.apps|;
    var p := |reply.packages|;
    BulkDispatchCoversReply(reply, fullRunSetting);
    forall i | 0 <= i < |d|
      ensures IsDispatch(d[i]) && (fullRunSetting == 1 ==> !d[i].ProcessUnknownApp?)
    {
      if i < a {
        assert d[i] == ProcessApp(reply.apps[i].id, reply.apps[i].payload);
      } else if i < a + p {
        assert d[a + (i - a)] == ProcessSub(reply.packages[i - a].id, reply.packages[i - a].payload);
      } else if fullRunSetting != 1 {
        assert d[a + p + (i - a - p)] == ProcessUnknownApp(reply.unknownApps[i - a - p]);
      }
    }
  }

  /** A reply whose job an IRC request waits for goes to that request only:
      the first such request leaves the list, the others stay in order, and
      no work unit is queued. Any other reply leaves the list as it is and is
      dispatched in bulk. Nothing else changes. */
  lemma ProductInfoRouting(s: State, cfg: Config, reply: PICSProductInfo, job: JobID)
    ensures var t := OnPICSProductInfo(s, cfg, reply, job);
      && t == s.(pending := t.pending, log := t.log)
      && (job in s.pending ==>
            && t.log == s.log + [RouteToRequest(job, reply)]
            && |t.pending| == |s.pending| - 1
            && multiset(t.pending) == multiset(s.pending) - multiset{job}
            && exists i :: 0 <= i < |s.pending| && s.pending[i] == job && job !in s.pending[..i]
                           && t.pending == s.pending[..i] + s.pending[i + 1..])
      && (job !in s.pending ==>
            t.pending == s.pending && t.log == s.log + BulkDispatch(reply, cfg.fullRun))
  {
    var found := IndexOfJob(s.pending, job);
    if found.Some? {
      var i := found.value;
      var t := OnPICSProductInfo(s, cfg, reply, job);
      assert t.pending == s.pending[..i] + s.pending[i + 1..];
    }
  }

  // ---------------------------------------------------------------------
  // Whole runs of the callback loop
  // ---------------------------------------------------------------------

  /** One callback, once the full-run request is out: the baseline, the full
      run flag and the datastore stay, and no product-info request is added. */
  lemma FullRunStepDiscards(s: State, cfg: Config, ev: Event)
    requires s.fullRun && s.previousChange != FullRunStart
    ensures var t := Handle(s, cfg, ev);
      && t.fullRun && t.previousChange == s.previousChange && t.tables == s.tables
      && Count(t.log, IsInfoRequest) == Count(s.log, IsInfoRequest)
  {
    match ev {
      case Connected(result) =>
        AppendNone(s.log, [LogOn(cfg.credentials)], IsInfoRequest);
      case Disconnected =>
        AppendNone(s.log, [StopTimer], IsInfoRequest);
        AppendNone(s.log + [StopTimer], [Sleep(RetryDelay), Connect], IsInfoRequest);
      case LoggedOn(result) =>
        AppendNone(s.log, [Sleep(LoginFailurePause)], IsInfoRequest);
      case TimerElapsed =>
        AppendNone(s.log, [RequestChangesSince(s.previousChange)], IsInfoRequest);
      case Changes(c) =>
      case ProductInfo(reply, job) =>
        if job in s.pending {
          AppendNone(s.log, [RouteToRequest(job, reply)], IsInfoRequest);
        } else {
          BulkDispatchOnlyWork(reply, cfg.fullRun);
          AppendNone(s.log, BulkDispatch(reply, cfg.fullRun), IsInfoRequest);
        }
    }
  }

  /** Full-run latch: once the first full-run diff has been handled, no
      later callback, whatever its kind or number, moves the baseline,
      writes to the datastore or issues another product-info request. */
  lemma {:induction false} LateDiffsDiscarded(s: State, cfg: Config, events: seq<Event>)
    requires s.fullRun && s.previousChange != FullRunStart
    ensures var t := Replay(s, cfg, events);
      && t.fullRun && t.previousChange == s.previousChange && t.tables == s.tables
      && Count(t.log, IsInfoRequest) == Count(s.log, IsInfoRequest)
    decreases |events|
  {
    if |events| > 0 && !Halts(events[0]) {
      FullRunStepDiscards(s, cfg, events[0]);
      LateDiffsDiscarded(Handle(s, cfg, events[0]), cfg, events[1..]);
    }
  }

  /** Neither a changes-since reply nor a product-info reply issues a changes
      request, starts the timer or touches the full-run flag. */
  lemma RepliesIssueNoChangesRequest(s: State, cfg: Config, ev: Event)
    requires ev.Changes? || ev.ProductInfo?
    ensures var t := Handle(s, cfg, ev);
      && t.timerRunning == s.timerRunning && t.fullRun == s.fullRun
      && Count(t.log, IsChangesRequest) == Count(s.log, IsChangesRequest)
  {
    if ev.Changes? {
      var c := ev.changes;
      if s.fullRun {
        if s.previousChange == FullRunStart {
          AppendNone(s.log, [RequestProductInfo(Ids(c.appChanges), Ids(c.packageChanges))], IsChangesRequest);
        }
      } else if s.previousChange != c.currentChangeNumber {
        var s1 := s.log + [AnnounceChanges(c.currentChangeNumber, c)];
        AppendNone(s.log, [AnnounceChanges(c.currentChangeNumber, c)], IsChangesRequest);
        AppendNone(s1, [RequestProductInfo(Ids(c.appChanges), Ids(c.packageChanges))], IsChangesRequest);
      }
    } else if ev.job in s.pending {
      AppendNone(s.log, [RouteToRequest(ev.job, ev.reply)], IsChangesRequest);
    } else {
      BulkDispatchOnlyWork(ev.reply, cfg.fullRun);
      AppendNone(s.log, BulkDispatch(ev.reply, cfg.fullRun), IsChangesRequest);
    }
  }

  /** One callback with FullRun configured and the timer stopped: the timer
      stays stopped, the latch stays set, and a changes request is only added
      by the callback that sets the latch. */
  lemma ArmingStep(s: State, cfg: Config, ev: Event)
    requires cfg.fullRun > 0 && !s.timerRunning
    ensures var t := Handle(s, cfg, ev);
      && !t.timerRunning
      && (s.fullRun ==> t.fullRun)
      && Count(t.log, IsChangesRequest) + (if t.fullRun then 0 else 1)
         <= Count(s.log, IsChangesRequest) + (if s.fullRun then 0 else 1)
  {
    match ev {
      case Connected(result) =>
        AppendNone(s.log, [LogOn(cfg.credentials)], IsChangesRequest);
      case Disconnected =>
        AppendNone(s.log, [StopTimer], IsChangesRequest);
        AppendNone(s.log + [StopTimer], [Sleep(RetryDelay), Connect], IsChangesRequest);
      case LoggedOn(result) =>
        AppendNone(s.log, [Sleep(LoginFailurePause)], IsChangesRequest);
        CountAppend(s.log, [RequestChangesSince(s.previousChange)], IsChangesRequest);
        assert Count([RequestChangesSince(s.previousChange)], IsChangesRequest) == 1;
      case TimerElapsed =>
      case Changes(c) =>
        RepliesIssueNoChangesRequest(s, cfg, ev);
      case ProductInfo(reply, job) =>
        RepliesIssueNoChangesRequest(s, cfg, ev);
    }
  }

  /** The full-run latch fires at most once: with FullRun configured and the
      timer stopped, however many connects, logins and disconnects follow, at
      most one changes request is issued, and none once the latch is set. */
  lemma {:induction false} ChangesRequestedAtMostOnce(s: State, cfg: Config, events: seq<Event>)
    requires cfg.fullRun > 0 && !s.timerRunning
    ensures var t := Replay(s, cfg, events);
      && (s.fullRun ==> t.fullRun)
      && Count(t.log, IsChangesRequest) <= Count(s.log, IsChangesRequest) + (if s.fullRun then 0 else 1)
    decreases |events|
  {
    if |events| > 0 && !Halts(events[0]) {
      var s1 := Handle(s, cfg, events[0]);
      ArmingStep(s, cfg, events[0]);
      ChangesRequestedAtMostOnce(s1, cfg, events[1..]);
    }
  }
}
