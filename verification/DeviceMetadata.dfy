/** What a device list knows about a device besides its state, and when it is older than what a
    telegram has said. */
module DeviceMetadata {
  import opened Options

  /** What every list replaces: the name of the device, who made it and when it was first seen. */
  datatype Names = Names(friendlyId: string, manufacturer: string, physicalDevice: string, firstSeen: string)

  /** What a list replaces only if it names it. */
  datatype Versions = Versions(productId: string, software: string, hardware: string)

  /** A device and how it is linked. */
  datatype LinkedDevice = LinkedDevice(device: string, eep: string, parameters: seq<(string, string)>)

  datatype LinkTables = LinkTables(inbound: seq<LinkedDevice>, outbound: seq<LinkedDevice>)

  /** `telegramAt` is when the last telegram of the device was received; `eeps` are the names of
      the announced profiles and `profile` says whether what was read for them is known. */
  datatype Metadata = Metadata(names: Names, versions: Versions, links: Option<LinkTables>,
                               dbm: Option<int>, lastSeen: string, telegramAt: Option<real>, remanState: Option<string>,
                               settingsReadAt: Option<real>, reportedSettings: Option<set<string>>,
                               eeps: seq<string>, profile: bool)

  /** An entry of a device list. */
  datatype Listed = Listed(names: Names, versions: Versions, links: Option<LinkTables>,
                           dbm: Option<int>, lastSeen: string, remanState: Option<string>,
                           settingsReadAt: Option<real>, reportedSettings: Option<set<string>>, eeps: seq<string>)

  function Later(a: Option<real>, b: Option<real>): Option<real> {
    if b.None? || (a.Some? && b.value <= a.value) then a else b
  }

  function AfterReported(known: Option<set<string>>, keys: set<string>): Option<set<string>> {
    if keys != {} || known.None? || known.value == {} then Some(keys) else known
  }

  function Newer(known: string, listed: string): string { if listed != "" then listed else known }

  function AfterVersions(known: Versions, listed: Versions): Versions {
    Versions(Newer(known.productId, listed.productId), Newer(known.software, listed.software),
             Newer(known.hardware, listed.hardware))
  }

  function AfterListed(m: Metadata, l: Listed, keepSignal: bool): Metadata {
    m.(dbm := if l.dbm.Some? && !keepSignal then l.dbm else m.dbm,
       lastSeen := if l.lastSeen != "" && !keepSignal then l.lastSeen else m.lastSeen,
       names := l.names,
       versions := AfterVersions(m.versions, l.versions),
       links := if l.links.Some? then l.links else m.links,
       remanState := if l.remanState.Some? then l.remanState else m.remanState,
       settingsReadAt := Later(m.settingsReadAt, l.settingsReadAt),
       reportedSettings := if l.reportedSettings.Some? then AfterReported(m.reportedSettings, l.reportedSettings.value)
                           else m.reportedSettings,
       eeps := l.eeps,
       profile := m.profile && l.eeps == m.eeps)
  }

  predicate NewerTelegram(m: Metadata, requestedAt: Option<real>) {
    requestedAt.Some? && m.telegramAt.Some? && m.telegramAt.value >= requestedAt.value
  }

  class DeviceRecord {
    var names: Names
    var versions: Versions
    var links: Option<LinkTables>
    var dbm: Option<int>
    var lastSeen: string
    var telegramAt: Option<real>
    var remanState: Option<string>
    var settingsReadAt: Option<real>
    var reportedSettings: Option<set<string>>
    var eeps: seq<string>
    var profile: bool

    ghost function State(): Metadata
      reads this
    {
      Metadata(names, versions, links, dbm, lastSeen, telegramAt, remanState, settingsReadAt, reportedSettings, eeps,
               profile)
    }

    method UpdateReportedSettings(keys: set<string>)
      modifies this`reportedSettings
      ensures reportedSettings == AfterReported(old(reportedSettings), keys)
    {
      if keys != {} || reportedSettings.None? || reportedSettings.value == {} {
        reportedSettings := Some(keys);
      }
    }

    method ApplySignal(listed: Listed, keepSignal: bool)
      modifies this`lastSeen, this`dbm
      ensures lastSeen == if listed.lastSeen != "" && !keepSignal then listed.lastSeen else old(lastSeen)
      ensures dbm == if listed.dbm.Some? && !keepSignal then listed.dbm else old(dbm)
    {
      if listed.lastSeen != "" && !keepSignal {
        lastSeen := listed.lastSeen;
      }
      if listed.dbm.Some? && !keepSignal {
        dbm := listed.dbm;
      }
    }

    /** The age of the settings never moves back past a read made since. */
    method AdvanceSettingsRead(at: Option<real>)
      modifies this`settingsReadAt
      ensures settingsReadAt == Later(old(settingsReadAt), at)
    {
      if at.Some? && (settingsReadAt.None? || at.value > settingsReadAt.value) {
        settingsReadAt := at;
      }
    }

    /** What needs no comparison with what is known. */
    method TakeNames(listed: Listed)
      modifies this`names, this`versions, this`links, this`remanState, this`eeps, this`profile
      ensures names == listed.names && versions == AfterVersions(old(versions), listed.versions) && eeps == listed.eeps
      ensures links == (if listed.links.Some? then listed.links else old(links))
      ensures remanState == (if listed.remanState.Some? then listed.remanState else old(remanState))
      ensures profile == (old(profile) && listed.eeps == old(eeps))
    {
      hide AfterVersions;
      names := listed.names;
      profile := profile && listed.eeps == eeps;
      eeps := listed.eeps;
      versions := AfterVersions(versions, listed.versions);
      links := if listed.links.Some? then listed.links else links;
      remanState := if listed.remanState.Some? then listed.remanState else remanState;
    }

    method ApplyListedMetadata(listed: Listed, keepSignal: bool)
      modifies this
      ensures State() == AfterListed(old(State()), listed, keepSignal)
    {
      hide Later, AfterReported, AfterVersions;
      TakeNames(listed);
      ApplySignal(listed, keepSignal);
      AdvanceSettingsRead(listed.settingsReadAt);
      if listed.reportedSettings.Some? {
        UpdateReportedSettings(listed.reportedSettings.value);
      }
    }
  }

  // ---------------------------------------------------------------------------------------
  // Lists and telegrams in any order
  // ---------------------------------------------------------------------------------------

  /** A telegram of the device, or a list; only a refresh knows when it was requested. */
  datatype Event =
    | Telegram(at: real, dbm: Option<int>, seen: Option<string>)
    | List(requestedAt: Option<real>, listed: Listed)

  function Happens(m: Metadata, e: Event): Metadata {
    match e
    case Telegram(at, dbm, seen) =>
      m.(telegramAt := Some(at), dbm := if dbm.Some? then dbm else m.dbm,
         lastSeen := if seen.Some? then seen.value else m.lastSeen)
    case List(requestedAt, listed) => AfterListed(m, listed, NewerTelegram(m, requestedAt))
  }

  function After(m: Metadata, events: seq<Event>): Metadata {
    if events == [] then m else Happens(After(m, events[..|events| - 1]), events[|events| - 1])
  }

  /** The event comes after a telegram received at `at` without being newer: a list requested
      before, or a telegram that tells nothing about the signal. */
  predicate Older(e: Event, at: real) {
    match e
    case Telegram(later, dbm, seen) => at <= later && dbm.None? && seen.None?
    case List(requestedAt, _) => requestedAt.Some? && requestedAt.value <= at
  }

  /** A list requested before a telegram was received never replaces the signal strength or the
      last-seen time the telegram brought, however many lists arrive late. */
  lemma {:induction false} NewerTelegramWins(m: Metadata, at: real, dbm: int, seen: string, events: seq<Event>)
    requires forall e <- events :: Older(e, at)
    ensures
      var after := After(Happens(m, Telegram(at, Some(dbm), Some(seen))), events);
      after.dbm == Some(dbm) && after.lastSeen == seen && after.telegramAt.Some? && after.telegramAt.value >= at
  {
    if events != [] {
      NewerTelegramWins(m, at, dbm, seen, events[..|events| - 1]);
      assert Older(events[|events| - 1], at);
    }
  }

  /** The age of the settings never moves back, known settings are never replaced by none, and a
      known product or management state is never forgotten. */
  lemma {:induction false} NothingIsForgotten(m: Metadata, events: seq<Event>)
    ensures
      var after := After(m, events);
      && (m.settingsReadAt.Some? ==> after.settingsReadAt.Some? && after.settingsReadAt.value >= m.settingsReadAt.value)
      && (forall e <- events :: e.List? && e.listed.settingsReadAt.Some? ==>
            after.settingsReadAt.Some? && after.settingsReadAt.value >= e.listed.settingsReadAt.value)
      && (m.reportedSettings.Some? ==> after.reportedSettings.Some?)
      && (m.reportedSettings.Some? && m.reportedSettings.value != {} ==> after.reportedSettings.value != {})
      && (m.versions.productId != "" ==> after.versions.productId != "")
      && (m.versions.software != "" ==> after.versions.software != "")
      && (m.versions.hardware != "" ==> after.versions.hardware != "")
      && (m.links.Some? ==> after.links.Some?) && (m.remanState.Some? ==> after.remanState.Some?)
  {
    if events != [] {
      var before, last := events[..|events| - 1], events[|events| - 1];
      NothingIsForgotten(m, before);
      assert forall e :: e in events <==> e in before || e == last;
    }
  }
}
