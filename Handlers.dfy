/**
 * The decision logic of the change tracker as functions on its state: one
 * function per callback handler of Steam.cs, each giving the state and the
 * command log after the handler ran. The class Backend.Steam is proved to
 * follow these functions step by step.
 */
module Handlers {
  import opened Types
  import opened Datastore
  import opened Requests

  /** PreviousChange value meaning "full run requested from the beginning". */
  const FullRunStart: ChangeID := 1
  /** PreviousChange value meaning "full-run product-info request already issued". */
  const FullRunIssued: ChangeID := 2
  /** Seconds to wait before reconnecting after a disconnect. */
  const RetryDelay: nat := 15
  /** Seconds to pause after a failed login. */
  const LoginFailurePause: nat := 2

  /** The tracker's fields, the datastore's tables and the command log. */
  datatype State = State(
    previousChange: ChangeID,
    fullRun: bool,
    isRunning: bool,
    timerRunning: bool,
    pending: seq<JobID>,
    tables: Tables,
    log: seq<Command>)

  /** A freshly constructed tracker over the given tables. */
  function Initial(tables: Tables): State {
    State(0, false, true, false, [], tables, [])
  }

  /** The keys of a changes-since dictionary, in enumeration order. */
  function Ids(entries: seq<ChangeData>): (r: seq<nat>)
    ensures |r| == |entries|
    ensures forall i :: 0 <= i < |entries| ==> r[i] == entries[i].id
  {
    seq(|entries|, i requires 0 <= i < |entries| => entries[i].id)
  }

  /** The rows one changed entity causes (lines 257-267 for apps, 272-282 for
      packages): a Changelists row for the entity's own change number unless
      that is the polled one, then its touch row. */
  function RecordEntry(t: Tables, kind: EntityKind, current: ChangeID, e: ChangeData): Tables {
    var t1 := if current != e.changeNumber then InsertChangelistKeepingDate(t, e.changeNumber) else t;
    InsertIgnoreTouch(t1, kind, e.changeNumber, e.id)
  }

  /** The rows the foreach over a dictionary of changes writes, entry by entry. */
  function RecordEntries(t: Tables, kind: EntityKind, current: ChangeID, entries: seq<ChangeData>): Tables
    decreases |entries|
  {
    if |entries| == 0 then t
    else RecordEntry(RecordEntries(t, kind, current, entries[..|entries| - 1]), kind, current, entries[|entries| - 1])
  }

  /** One command per element, in order: the commands a foreach that queues
      one work unit per element issues. */
  function MapCommands<T>(xs: seq<T>, f: T -> Command): seq<Command>
    decreases |xs|
  {
    if |xs| == 0 then []
    else MapCommands(xs[..|xs| - 1], f) + [f(xs[|xs| - 1])]
  }

  function AppCommand(e: ProductEntry): Command {
    ProcessApp(e.id, e.payload)
  }

  function SubCommand(e: ProductEntry): Command {
    ProcessSub(e.id, e.payload)
  }

  function UnknownAppCommand(id: AppID): Command {
    ProcessUnknownApp(id)
  }

  /** The work units a reply that no IRC request claimed gives rise to
      (lines 305-346): every app, every package, and the unknown apps unless
      the FullRun setting is 1. Unknown packages are only logged. */
  function BulkDispatch(reply: PICSProductInfo, fullRunSetting: nat): seq<Command> {
    MapCommands(reply.apps, AppCommand)
    + MapCommands(reply.packages, SubCommand)
    + (if fullRunSetting != 1 then MapCommands(reply.unknownApps, UnknownAppCommand) else [])
  }

  /** How many commands of the log satisfy p. */
  function Count(log: seq<Command>, p: Command -> bool): nat
    decreases |log|
  {
    if |log| == 0 then 0
    else Count(log[..|log| - 1], p) + (if p(log[|log| - 1]) then 1 else 0)
  }

  // ---------------------------------------------------------------------
  // The handlers
  // ---------------------------------------------------------------------

  /** GetPICSChanges (lines 35-38): ask for every change since PreviousChange. */
  function GetPICSChanges(s: State): State {
    s.(log := s.log + [RequestChangesSince(s.previousChange)])
  }

  /** GetLastChangeNumber (lines 40-65): the baseline is 1 when a full run is
      configured and has not started; otherwise the newest stored changelist,
      or the old value when there is none. */
  ghost function GetLastChangeNumber(s: State, cfg: Config): State {
    if !s.fullRun && cfg.fullRun > 0 then s.(previousChange := FullRunStart)
    else
      match Latest(s.tables)
      case Some(c) => s.(previousChange := c)
      case None => s
  }

  /** The part of Run (lines 98-100) after the callbacks are wired:
      pick the baseline, then connect. */
  ghost function Start(s: State, cfg: Config): State {
    var s1 := GetLastChangeNumber(s, cfg);
    s1.(log := s1.log + [Connect])
  }

  /** OnConnected (lines 113-129): log on with the configured credentials, or
      throw when the connection failed. */
  function OnConnected(s: State, cfg: Config, result: EResult): State {
    if result != OK then s
    else s.(log := s.log + [LogOn(cfg.credentials)])
  }

  function ConnectOutcome(result: EResult): Outcome {
    if result != OK then CouldNotConnect(result) else Continue
  }

  /** OnDisconnected (lines 131-150): stop the timer; reconnect after the
      retry delay unless the process is shutting down. */
  function OnDisconnected(s: State): State {
    var stopped := s.(timerRunning := false, log := s.log + [StopTimer]);
    if !s.isRunning then stopped
    else stopped.(log := stopped.log + [Sleep(RetryDelay), Connect])
  }

  /** OnLoggedOn (lines 152-193): after a failed login only pause; after a
      successful one, arm the poller once: the one-shot full-run request when
      FullRun is set, the poll timer otherwise. */
  function OnLoggedOn(s: State, cfg: Config, result: EResult): State {
    if result != OK then s.(log := s.log + [Sleep(LoginFailurePause)])
    else if s.fullRun then s
    else if cfg.fullRun > 0 then
      GetPICSChanges(s.(fullRun := true))
    else s.(timerRunning := true, log := s.log + [StartTimer])
  }

  /** OnPICSChanges (lines 212-287). */
  function OnPICSChanges(s: State, c: PICSChanges): State {
    if s.fullRun then
      if s.previousChange == FullRunStart then
        s.(previousChange := FullRunIssued,
           log := s.log + [RequestProductInfo(Ids(c.appChanges), Ids(c.packageChanges))])
      else s
    else if s.previousChange == c.currentChangeNumber then s
    else
      var current := c.currentChangeNumber;
      var s1 := s.(previousChange := current,
                   log := s.log + [AnnounceChanges(current, c)],
                   tables := UpsertChangelist(s.tables, current));
      if |c.appChanges| == 0 && |c.packageChanges| == 0 then s1
      else
        var apps := RecordEntries(s1.tables, App, current, c.appChanges);
        s1.(tables := RecordEntries(apps, Sub, current, c.packageChanges),
            log := s1.log + [RequestProductInfo(Ids(c.appChanges), Ids(c.packageChanges))])
  }

  /** OnPICSProductInfo (lines 289-347): a reply whose job an IRC request is
      waiting for goes to that request alone, and the request is removed;
      any other reply is processed in bulk. */
  function OnPICSProductInfo(s: State, cfg: Config, reply: PICSProductInfo, job: JobID): State {
    match IndexOfJob(s.pending, job)
    case Some(i) =>
      s.(pending := RemoveAt(s.pending, i), log := s.log + [RouteToRequest(job, reply)])
    case None =>
      s.(log := s.log + BulkDispatch(reply, cfg.fullRun))
  }

  // ---------------------------------------------------------------------
  // The callback loop
  // ---------------------------------------------------------------------

  /** The callbacks RunWaitCallbacks delivers, one at a time, in order. */
  datatype Event =
    | Connected(connectResult: EResult)
    | Disconnected
    | LoggedOn(logOnResult: EResult)
    | TimerElapsed
    | Changes(changes: PICSChanges)
    | ProductInfo(reply: PICSProductInfo, job: JobID)

  /** The handler an event reaches. The timer only raises its event while it
      is started. */
  function Handle(s: State, cfg: Config, ev: Event): State {
    match ev
    case Connected(result) => OnConnected(s, cfg, result)
    case Disconnected => OnDisconnected(s)
    case LoggedOn(result) => OnLoggedOn(s, cfg, result)
    case TimerElapsed => if s.timerRunning then GetPICSChanges(s) else s
    case Changes(c) => OnPICSChanges(s, c)
    case ProductInfo(reply, job) => OnPICSProductInfo(s, cfg, reply, job)
  }

  /** A failed connect throws out of the callback loop and ends the process. */
  predicate Halts(ev: Event) {
    ev.Connected? && ev.connectResult != OK
  }

  /** The state after the callback loop has delivered the given events. */
  function Replay(s: State, cfg: Config, events: seq<Event>): State
    decreases |events|
  {
    if |events| == 0 || Halts(events[0]) then s
    else Replay(Handle(s, cfg, events[0]), cfg, events[1..])
  }
}
