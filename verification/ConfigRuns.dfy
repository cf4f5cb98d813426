/** Importing one file as often as it takes: each attempt plans on the instance as it is and writes until
    a store call fails. */
module ConfigRuns {
  import opened Prelude
  import opened ConfigModel
  import opened ConfigSpec
  import S = ConfigStore
  import opened ConfigCalls
  import opened ConfigSteps
  import opened ConfigImport
  import opened ConfigPlan

  datatype Attempt = Refused | Stopped | Complete

  /** One import, plan and writes. */
  method Import(store: Store, p: Platform, doc: Document, now: int) returns (a: Attempt)
    requires S.Valid(store.db) && Dependable(p) && Parsed(p, doc)
    modifies store
    ensures S.Valid(store.db)
    ensures a == Refused <==> !Accepts(p, old(S.Seen(store.db)), doc)
    ensures a == Refused ==> store.db == old(store.db)
    ensures a == Complete ==> S.Seen(store.db) == Target(p, old(S.Seen(store.db)), doc)
    ensures a == Stopped ==> Interrupted(p, old(S.Seen(store.db)), S.Seen(store.db), doc)
  {
    hide S.Valid, S.Seen, Dependable, Parsed, Accepts, Target, Interrupted, PlanFits;
    var plan := PlanImport(p, store.db, doc, now);
    if plan.None? { return Refused; }
    var ok := ApplyImport(store, p, plan.value, doc);
    return if ok then Complete else Stopped;
  }

  /** Importing the same file again completes it: whatever the attempts before it failed at, and whenever
      they ran, an attempt that runs through leaves the configuration the first one would have left, and
      until one does the file can still be imported. */
  method ImportAgainUntilComplete(store: Store, p: Platform, doc: Document, clock: seq<int>) returns (done: bool)
    requires S.Valid(store.db) && Dependable(p) && Parsed(p, doc)
    requires Proper(p, S.Seen(store.db)) && Accepts(p, S.Seen(store.db), doc)
    modifies store
    ensures S.Valid(store.db)
    ensures done ==> SameConfig(S.Seen(store.db), Target(p, old(S.Seen(store.db)), doc))
    ensures !done ==> CanComplete(p, old(S.Seen(store.db)), S.Seen(store.db), doc)
  {
    hide S.Valid, S.Seen, Dependable, Parsed, Accepts, Proper, Target, Interrupted;
    ghost var start := S.Seen(store.db);
    for i := 0 to |clock|
      invariant S.Valid(store.db) && CanComplete(p, start, S.Seen(store.db), doc)
    {
      ghost var before := S.Seen(store.db);
      var a := Import(store, p, doc, clock[i]);
      match a {
        case Complete =>
          return true;
        case Stopped =>
          OneMoreAttempt(p, start, before, S.Seen(store.db), doc);
        case Refused =>
          assert false;
      }
    }
    return false;
  }
}
