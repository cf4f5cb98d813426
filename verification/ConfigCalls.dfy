/** The store calls an import makes (internal/store). Any of them can fail, and one that fails has no
    effect; deleting an object just created, to take it back, does not fail. A call that normalises what
    it is given asks here that it be in that form already. */
module ConfigCalls {
  import opened Prelude
  import opened MonitorRules
  import opened ConfigModel
  import opened ConfigChannels
  import opened ConfigRules
  import opened ConfigPages
  import opened ConfigStore

  class Store {
    var db: Db

    constructor (db: Db)
      ensures this.db == db
    {
      this.db := db;
    }

    // ------------------------------------------------------------------------ channels

    method CreateChannel(c: Channel) returns (id: Option<Id>)
      modifies this
      ensures id.None? ==> db == old(db)
      ensures id.Some? ==> id.value == old(db).Fresh()
      ensures id.Some? ==> db == old(db).(channels := old(db).channels[id.value := c], nextId := old(db).nextId + 1)
    {
      var fails: bool := *;
      if fails { return None; }
      id := Some(db.Fresh());
      db := db.(channels := db.channels[db.Fresh() := c], nextId := db.nextId + 1);
    }

    method SetChannelKey(id: Id, k: Key) returns (ok: bool)
      requires k !in db.channelKeys.idOf && id !in db.channelKeys.keyOf
      modifies this
      ensures db == if ok then old(db).(channelKeys := old(db).channelKeys.Add(k, id)) else old(db)
    {
      ok := *;
      if ok { db := db.(channelKeys := db.channelKeys.Add(k, id)); }
    }

    method DeleteChannel(id: Id)
      requires id in db.channels && id !in db.channelKeys.keyOf
      modifies this
      ensures db == old(db).(channels := old(db).channels - {id})
    {
      db := db.(channels := db.channels - {id});
    }

    method UpdateChannel(id: Id, c: Channel) returns (ok: bool)
      requires id in db.channels
      modifies this
      ensures db == if ok then old(db).(channels := old(db).channels[id := c]) else old(db)
    {
      ok := *;
      if ok { db := db.(channels := db.channels[id := c]); }
    }

    method SetQuietHours(p: Platform, id: Id, q: Quiet) returns (ok: bool)
      requires id in db.channels && NormalQuiet(p, q) == Some(q)
      modifies this
      ensures db == if ok then old(db).(quiet := old(db).quiet[id := q]) else old(db)
    {
      ok := *;
      if ok { db := db.(quiet := db.quiet[id := q]); }
    }

    method ClearQuietHours(id: Id) returns (ok: bool)
      modifies this
      ensures db == if ok then old(db).(quiet := old(db).quiet - {id}) else old(db)
    {
      ok := *;
      if ok { db := db.(quiet := db.quiet - {id}); }
    }

    method SetDefaultChannel(id: Id) returns (ok: bool)
      requires id in db.channels
      modifies this
      ensures db == if ok then old(db).(defaultId := Some(id)) else old(db)
    {
      ok := *;
      if ok { db := db.(defaultId := Some(id)); }
    }

    // ------------------------------------------------------------------------ monitors

    method CreateMonitor(m: Monitor) returns (id: Option<Id>)
      modifies this
      ensures id.None? ==> db == old(db)
      ensures id.Some? ==> id.value == old(db).Fresh()
      ensures id.Some? ==> db == old(db).(monitors := old(db).monitors[id.value := Stored(m)], nextId := old(db).nextId + 1)
    {
      var fails: bool := *;
      if fails { return None; }
      id := Some(db.Fresh());
      db := db.(monitors := db.monitors[db.Fresh() := Stored(m)], nextId := db.nextId + 1);
    }

    method SetMonitorKey(id: Id, k: Key) returns (ok: bool)
      requires k !in db.monitorKeys.idOf && id !in db.monitorKeys.keyOf
      modifies this
      ensures db == if ok then old(db).(monitorKeys := old(db).monitorKeys.Add(k, id)) else old(db)
    {
      ok := *;
      if ok { db := db.(monitorKeys := db.monitorKeys.Add(k, id)); }
    }

    method DeleteMonitor(id: Id)
      requires id in db.monitors && id !in db.monitorKeys.keyOf
      modifies this
      ensures db == old(db).(monitors := old(db).monitors - {id})
    {
      db := db.(monitors := db.monitors - {id});
    }

    method UpdateMonitor(id: Id, m: Monitor) returns (ok: bool)
      requires id in db.monitors
      modifies this
      ensures db == if ok then old(db).(monitors := old(db).monitors[id := Stored(m)]) else old(db)
    {
      ok := *;
      if ok { db := db.(monitors := db.monitors[id := Stored(m)]); }
    }

    method SetMonitorChannels(id: Id, channels: set<Id>) returns (ok: bool)
      requires id in db.monitors && channels <= db.channels.Keys
      modifies this
      ensures db == if ok then old(db).(attached := old(db).attached[id := channels]) else old(db)
    {
      ok := *;
      if ok { db := db.(attached := db.attached[id := channels]); }
    }

    // ------------------------------------------------------------------- routing rules

    method CreateRoutingRule(t: TagPair, channels: set<Id>) returns (ok: bool)
      requires t !in db.rules && channels <= db.channels.Keys
      modifies this
      ensures db == if ok then old(db).(rules := old(db).rules[t := RuleRow(channels, {})]) else old(db)
    {
      ok := *;
      if ok { db := db.(rules := db.rules[t := RuleRow(channels, {})]); }
    }

    method UpdateRoutingRule(t: TagPair, channels: set<Id>) returns (ok: bool)
      requires t in db.rules && channels <= db.channels.Keys
      modifies this
      ensures db == if ok then old(db).(rules := old(db).rules[t := old(db).rules[t].(channels := channels)]) else old(db)
    {
      ok := *;
      if ok { db := db.(rules := db.rules[t := db.rules[t].(channels := channels)]); }
    }

    method ExcludeMonitor(t: TagPair, m: Id) returns (ok: bool)
      requires t in db.rules && m in db.monitors
      modifies this
      ensures db == if ok then old(db).(rules := old(db).rules[t := old(db).rules[t].(excluded := old(db).rules[t].excluded + {m})]) else old(db)
    {
      ok := *;
      if ok { db := db.(rules := db.rules[t := db.rules[t].(excluded := db.rules[t].excluded + {m})]); }
    }

    method IncludeMonitor(t: TagPair, m: Id) returns (ok: bool)
      requires t in db.rules
      modifies this
      ensures db == if ok then old(db).(rules := old(db).rules[t := old(db).rules[t].(excluded := old(db).rules[t].excluded - {m})]) else old(db)
    {
      ok := *;
      if ok { db := db.(rules := db.rules[t := db.rules[t].(excluded := db.rules[t].excluded - {m})]); }
    }

    // --------------------------------------------------------------- maintenance windows

    method CreateMaintenance(p: Platform, w: WindowRow) returns (ok: bool)
      requires Storable(p, WindowSeen(w, db.monitorKeys)) && |db.windows| < WindowLimit
      requires w.monitor.Some? ==> w.monitor.value in db.monitors
      modifies this
      ensures db == if ok then old(db).(windows := old(db).windows + [w]) else old(db)
    {
      ok := *;
      if ok { db := db.(windows := db.windows + [w]); }
    }

    // ---------------------------------------------------------------------- status pages

    method CreateStatusPage(p: Platform, slug: string, page: Page) returns (ok: bool)
      requires slug !in db.pages && NormalPage(p, page, None) == Some(page)
      modifies this
      ensures db == if ok then old(db).(pages := old(db).pages[slug := PageRow(page, [])]) else old(db)
    {
      ok := *;
      if ok { db := db.(pages := db.pages[slug := PageRow(page, [])]); }
    }

    method UpdateStatusPage(p: Platform, slug: string, page: Page) returns (ok: bool)
      requires slug in db.pages && NormalPage(p, page, Some(db.pages[slug].page)) == Some(page)
      modifies this
      ensures db == if ok then old(db).(pages := old(db).pages[slug := old(db).pages[slug].(page := page)]) else old(db)
    {
      ok := *;
      if ok { db := db.(pages := db.pages[slug := db.pages[slug].(page := page)]); }
    }

    method SetStatusPageEntries(slug: string, entries: seq<EntryRow>) returns (ok: bool)
      requires slug in db.pages && |entries| <= MaxEntries
      requires forall i, j :: 0 <= i < j < |entries| ==> entries[i].monitor != entries[j].monitor
      requires forall i :: 0 <= i < |entries| ==>
        && TrimSpaceFixed(entries[i].name) && DisplayNameOk(entries[i].name, entries[i] in db.pages[slug].entries)
        && entries[i].monitor in db.monitors
      modifies this
      ensures db == if ok then old(db).(pages := old(db).pages[slug := old(db).pages[slug].(entries := entries)]) else old(db)
    {
      ok := *;
      if ok { db := db.(pages := db.pages[slug := db.pages[slug].(entries := entries)]); }
    }
  }
}
