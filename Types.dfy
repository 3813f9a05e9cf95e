/**
 * Values exchanged between the change tracker and its collaborators: the
 * session layer's callbacks, the configuration, and the commands the tracker
 * issues (session calls, timer control, spawned work units).
 */
module Types {

  /** Platform-assigned identifiers; all are unsigned 32-bit in the source and
      are only compared and copied, never computed with. */
  type ChangeID = nat
  type AppID = nat
  type PackageID = nat
  type JobID = nat

  /** A value of the datastore's clock (CURRENT_TIMESTAMP()). */
  type Date = nat

  /** The metadata tree a product-info reply carries for one entity; it is
      only forwarded to the per-entity processor. */
  type Payload = string

  datatype Option<T> = None | Some(value: T)

  /** The session layer's result code; only OK is told apart. */
  datatype EResult = OK | Failed(code: nat)

  datatype Credentials = Credentials(username: string, password: string)

  /** The settings the tracker reads: the FullRun mode (0 off, 1 full run of
      known entities, 2 full run that also sweeps unknown apps) and the login. */
  datatype Config = Config(fullRun: nat, credentials: Credentials)

  /** One entry of a changes-since reply: the entity and the change number at
      which that entity last changed. */
  datatype ChangeData = ChangeData(id: nat, changeNumber: ChangeID)

  /** A changes-since reply. The source holds the entries in dictionaries keyed
      by entity ID; here they are listed in enumeration order. */
  datatype PICSChanges = PICSChanges(
    currentChangeNumber: ChangeID,
    appChanges: seq<ChangeData>,
    packageChanges: seq<ChangeData>)

  datatype ProductEntry = ProductEntry(id: nat, payload: Payload)

  /** A product-info reply: resolved apps and packages, and the IDs the
      platform could not resolve. */
  datatype PICSProductInfo = PICSProductInfo(
    apps: seq<ProductEntry>,
    packages: seq<ProductEntry>,
    unknownApps: seq<AppID>,
    unknownPackages: seq<PackageID>)

  /** Everything the tracker does to the outside world, in the order it does it. */
  datatype Command =
    | Connect
    | LogOn(credentials: Credentials)
    | RequestChangesSince(since: ChangeID)
    | RequestProductInfo(apps: seq<AppID>, packages: seq<PackageID>)
    | AnnounceChanges(change: ChangeID, diff: PICSChanges)
    | ProcessApp(app: AppID, appPayload: Payload)
    | ProcessSub(sub: PackageID, subPayload: Payload)
    | ProcessUnknownApp(unknownApp: AppID)
    | RouteToRequest(job: JobID, reply: PICSProductInfo)
    | StartTimer
    | StopTimer
    | Sleep(seconds: nat)

  /** A unit of bulk work handed to a per-entity processor. */
  predicate IsDispatch(c: Command) {
    c.ProcessApp? || c.ProcessSub? || c.ProcessUnknownApp?
  }

  predicate IsChangesRequest(c: Command) {
    c.RequestChangesSince?
  }

  predicate IsInfoRequest(c: Command) {
    c.RequestProductInfo?
  }

  /** How a handler ends: normally, or with the exception that stops the
      process when the connection could not be made. */
  datatype Outcome = Continue | CouldNotConnect(result: EResult)
}
