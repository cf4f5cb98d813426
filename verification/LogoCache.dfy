/** The cache of published logo files, guarded by a generation, under concurrent requests and administrators. */
module LogoCache {
  import opened Prelude

  const CACHE_FOR: nat := 30

  datatype File = File(contentType: string, data: seq<bv8>)

  datatype Cached = Cached(file: File, expires: int)

  /** The fields of publicLogos. */
  datatype Cache = Cache(files: map<string, Cached>, generation: nat)

  function Held(c: Cache, name: string, now: int): Option<File> {
    if name in c.files && now < c.files[name].expires then Some(c.files[name].file) else None
  }

  function Stored(c: Cache, name: string, f: Cached, generation: nat): Cache {
    if generation != c.generation then c else c.(files := c.files[name := f])
  }

  function Forgotten(c: Cache): Cache { Cache(map[], c.generation + 1) }

  datatype PutCall = PutCall(name: string, f: Cached, generation: nat)

  /** The cache after the first n of some puts. */
  function AfterPuts(c: Cache, puts: seq<PutCall>, n: nat): Cache
    requires n <= |puts|
  {
    if n == 0 then c else Stored(AfterPuts(c, puts, n - 1), puts[n - 1].name, puts[n - 1].f, puts[n - 1].generation)
  }

  /** A file put under the current generation is served until it expires or a forget comes, whatever other names are
      put after it, and whatever a request that took an older generation puts under its own. */
  lemma {:induction false} KeptUntilForgotten(c: Cache, name: string, f: Cached, puts: seq<PutCall>, n: nat, now: int)
    requires n <= |puts| && forall i :: 0 <= i < n ==> puts[i].name != name || puts[i].generation != c.generation
    ensures var kept := AfterPuts(Stored(c, name, f, c.generation), puts, n);
      && kept.generation == c.generation && name in kept.files && kept.files[name] == f
      && Held(kept, name, now) == (if now < f.expires then Some(f.file) else None)
      && Held(Forgotten(kept), name, now) == None
  {
    if n > 0 { KeptUntilForgotten(c, name, f, puts, n - 1, now); }
  }

  /** After a forget, no request that took its generation before it puts anything. */
  lemma {:induction false} ForgottenStaysEmpty(c: Cache, puts: seq<PutCall>, n: nat)
    requires n <= |puts| && forall i :: 0 <= i < n ==> puts[i].generation <= c.generation
    ensures AfterPuts(Forgotten(c), puts, n) == Forgotten(c)
  {
    if n > 0 { ForgottenStaysEmpty(c, puts, n - 1); }
  }

  class PublicLogos {
    var files: map<string, Cached>
    var generation: nat

    function State(): Cache
      reads this
    {
      Cache(files, generation)
    }

    constructor ()
      ensures State() == Cache(map[], 0)
    {
      files, generation := map[], 0;
    }

    method Current() returns (g: nat)
      ensures g == State().generation
    {
      g := generation;
    }

    method Get(name: string, now: int) returns (f: Option<File>)
      ensures f == Held(State(), name, now)
    {
      if name !in files || now >= files[name].expires { return None; }
      f := Some(files[name].file);
    }

    /** Keeps the file unless a forget came between taking the generation and now. */
    method Put(name: string, f: Cached, taken: nat)
      modifies this
      ensures State() == Stored(old(State()), name, f, taken)
    {
      if taken != generation { return; }
      files := files[name := f];
    }

    method Forget()
      modifies this
      ensures State() == Forgotten(old(State()))
    {
      files := map[];
      generation := generation + 1;
    }

    /** A visitor's request that nobody disturbs. admitted is what the rate limits say, database what is published,
        or None when it fails. */
    method Serve(name: string, now: int, admitted: bool, database: Option<map<string, File>>) returns (a: Answer)
      modifies this
      ensures Held(old(State()), name, now).Some? ==> a == Shown(Held(old(State()), name, now).value)
      ensures Held(old(State()), name, now).None? ==>
        a == if !admitted then TooMany else if database.None? then Unavailable
             else if name in database.value then Shown(database.value[name]) else NotFound
      ensures State() == if admitted && database.Some? then Served(old(State()), name, now, database.value) else old(State())
    {
      var cached := Get(name, now);
      if cached.Some? { return Shown(cached.value); }
      if !admitted { return TooMany; }
      var taken := Current();
      if database.None? { return Unavailable; }
      if name !in database.value { return NotFound; }
      Put(name, Cached(database.value[name], now + CACHE_FOR), taken);
      a := Shown(database.value[name]);
    }
  }

  datatype Answer = Shown(file: File) | TooMany | NotFound | Unavailable

  /** The cache an undisturbed request leaves. */
  function Served(c: Cache, name: string, now: int, published: map<string, File>): Cache {
    if Held(c, name, now).None? && name in published
    then c.(files := c.files[name := Cached(published[name], now + CACHE_FOR)])
    else c
  }

  // Requests and administrators, one atomic step at a time.

  /** A request that missed the cache: it takes the generation, reads the database, and puts what it read. */
  datatype Request =
    | Idle
    | Missed(name: string, at: int)
    | Taken(name: string, at: int, generation: nat)
    | Read(name: string, at: int, generation: nat, file: File)

  /** published is what the database publishes under each name; between is one flag per administrator who has written. */
  datatype System = System(
    cache: Cache,
    published: map<string, File>,
    requests: seq<Request>,
    between: seq<bool>)

  datatype Step =
    | Ask(request: nat, name: string, at: int)
    | Take(request: nat)
    | Look(request: nat)
    | Keep(request: nat)
    | Write(admin: nat, published: map<string, File>)
    | Forget(admin: nat)

  function Start(published: map<string, File>, requests: nat, admins: nat): System {
    System(Cache(map[], 0), published, seq(requests, _ => Idle), seq(admins, _ => false))
  }

  /** One step; a step whose turn it is not changes nothing. */
  function Next(s: System, e: Step): System {
    match e
    case Ask(r, name, at) =>
      if r < |s.requests| && s.requests[r].Idle? && Held(s.cache, name, at).None?
      then s.(requests := s.requests[r := Missed(name, at)]) else s
    case Take(r) =>
      if r < |s.requests| && s.requests[r].Missed?
      then var q := s.requests[r]; s.(requests := s.requests[r := Taken(q.name, q.at, s.cache.generation)]) else s
    case Look(r) =>
      if r < |s.requests| && s.requests[r].Taken? then
        var q := s.requests[r];
        s.(requests := s.requests[r :=
          if q.name in s.published then Read(q.name, q.at, q.generation, s.published[q.name]) else Idle])
      else s
    case Keep(r) =>
      if r < |s.requests| && s.requests[r].Read? then
        var q := s.requests[r];
        s.(requests := s.requests[r := Idle],
           cache := Stored(s.cache, q.name, Cached(q.file, q.at + CACHE_FOR), q.generation))
      else s
    case Write(a, published) =>
      if a < |s.between| && !s.between[a] then s.(published := published, between := s.between[a := true]) else s
    case Forget(a) =>
      if a < |s.between| && s.between[a] then s.(cache := Forgotten(s.cache), between := s.between[a := false]) else s
  }

  /** Run without an interruption, the steps of a request are what a request does on its own. */
  lemma StepsAreServe(s: System, r: nat, name: string, at: int)
    requires r < |s.requests| && s.requests[r].Idle?
    ensures RunOf(Next, s, [Ask(r, name, at), Take(r), Look(r), Keep(r)], 4) == s.(cache := Served(s.cache, name, at, s.published))
  {
    hide Next;
    var steps := [Ask(r, name, at), Take(r), Look(r), Keep(r)];
    assert RunOf(Next, s, steps, 0) == s;
    assert RunOf(Next, s, steps, 1) == Next(s, Ask(r, name, at));
    assert RunOf(Next, s, steps, 2) == Next(RunOf(Next, s, steps, 1), Take(r));
    assert RunOf(Next, s, steps, 3) == Next(RunOf(Next, s, steps, 2), Look(r));
    assert RunOf(Next, s, steps, 4) == Next(RunOf(Next, s, steps, 3), Keep(r));
    FourSteps(s, r, name, at);
  }

  lemma FourSteps(s: System, r: nat, name: string, at: int)
    requires r < |s.requests| && s.requests[r].Idle?
    ensures Next(Next(Next(Next(s, Ask(r, name, at)), Take(r)), Look(r)), Keep(r)) == s.(cache := Served(s.cache, name, at, s.published))
  {
    var end := Next(Next(Next(Next(s, Ask(r, name, at)), Take(r)), Look(r)), Keep(r));
    assert end.requests == s.requests;
  }

  /** Some administrator has written to the database and not yet emptied the cache. */
  ghost predicate Changing(s: System) {
    exists a :: 0 <= a < |s.between| && s.between[a]
  }

  predicate Publishes(s: System, name: string, f: File) {
    name in s.published && s.published[name] == f
  }

  /** Every cached file is what the database publishes under its name. */
  ghost predicate Coherent(s: System) {
    forall name :: name in s.cache.files ==> Publishes(s, name, s.cache.files[name].file)
  }

  /** Nothing a request will still put under the current generation is out of date. */
  ghost predicate ReadsAreFresh(s: System) {
    forall r :: 0 <= r < |s.requests| && s.requests[r].Read? && s.requests[r].generation == s.cache.generation ==>
      Publishes(s, s.requests[r].name, s.requests[r].file)
  }

  /** No request holds a generation from the future. */
  ghost predicate PastGenerations(s: System) {
    forall r :: 0 <= r < |s.requests| && (s.requests[r].Taken? || s.requests[r].Read?) ==>
      s.requests[r].generation <= s.cache.generation
  }

  ghost predicate Guarded(s: System) {
    PastGenerations(s) && (Changing(s) || (Coherent(s) && ReadsAreFresh(s)))
  }

  lemma WriteKeepsGuarded(s: System, a: nat, published: map<string, File>)
    requires Guarded(s)
    ensures Guarded(Next(s, Write(a, published)))
  {
    var t := Next(s, Write(a, published));
    if t != s { assert t.between[a]; }
  }

  lemma ForgetKeepsGuarded(s: System, a: nat)
    requires Guarded(s)
    ensures Guarded(Next(s, Step.Forget(a)))
  {
  }

  lemma RequestKeepsGuarded(s: System, e: Step)
    requires Guarded(s) && !e.Write? && !e.Forget?
    ensures Guarded(Next(s, e))
  {
    var t := Next(s, e);
    assert t.between == s.between;
    assert Changing(s) <==> Changing(t);
  }

  lemma GuardedKept(s: System, e: Step)
    requires Guarded(s)
    ensures Guarded(Next(s, e))
  {
    hide Guarded, Next;
    match e
    case Write(a, published) => WriteKeepsGuarded(s, a, published);
    case Forget(a) => ForgetKeepsGuarded(s, a);
    case _ => RequestKeepsGuarded(s, e);
  }

  lemma GuardedSteps()
    ensures forall s, e :: Guarded(s) ==> Guarded(Next(s, e))
  {
    hide Guarded, Next;
    forall s, e | Guarded(s) ensures Guarded(Next(s, e)) { GuardedKept(s, e); }
  }

  /** After every interleaving: unless somebody is between a write and its forget, the cache is coherent. */
  lemma EveryRunIsCoherent(published: map<string, File>, requests: nat, admins: nat, steps: seq<Step>, n: nat)
    requires n <= |steps|
    ensures var s := RunOf(Next, Start(published, requests, admins), steps, n);
      Changing(s) || Coherent(s)
  {
    var start := Start(published, requests, admins);
    assert Guarded(start);
    GuardedSteps();
    RunKeeps(Next, s => Guarded(s), start, steps, n);
  }

  /** A visitor answered from the cache sees what is published, unless a change is just being made. */
  lemma CachedAnswersArePublished(
    published: map<string, File>, requests: nat, admins: nat, steps: seq<Step>, n: nat, name: string, now: int)
    requires n <= |steps|
    ensures var s := RunOf(Next, Start(published, requests, admins), steps, n);
      !Changing(s) && Held(s.cache, name, now).Some? ==> Publishes(s, name, Held(s.cache, name, now).value)
  {
    EveryRunIsCoherent(published, requests, admins, steps, n);
  }

  /** Put without looking at the generation. */
  function Unguarded(s: System, r: nat): System
    requires r < |s.requests| && s.requests[r].Read?
  {
    var q := s.requests[r];
    s.(requests := s.requests[r := Idle],
       cache := s.cache.(files := s.cache.files[q.name := Cached(q.file, q.at + CACHE_FOR)]))
  }

  /** The guard is what does it: without it a request that straddles a change leaves a removed file behind. */
  lemma GenerationIsNeeded(f: File)
    ensures var steps := [Ask(0, "a.png", 0), Take(0), Look(0), Write(0, map[]), Step.Forget(0)];
      var s := RunOf(Next, Start(map["a.png" := f], 1, 1), steps, 5);
      s.requests[0].Read? && !Changing(s) && Coherent(Next(s, Keep(0))) && !Coherent(Unguarded(s, 0))
  {
    var steps := [Ask(0, "a.png", 0), Take(0), Look(0), Write(0, map[]), Step.Forget(0)];
    var start := Start(map["a.png" := f], 1, 1);
    assert RunOf(Next, start, steps, 1).requests == [Missed("a.png", 0)];
    assert RunOf(Next, start, steps, 2).requests == [Taken("a.png", 0, 0)];
    assert RunOf(Next, start, steps, 3).requests == [Read("a.png", 0, 0, f)];
    assert RunOf(Next, start, steps, 4).between == [true];
    var s := RunOf(Next, start, steps, 5);
    assert s == System(Cache(map[], 1), map[], [Read("a.png", 0, 0, f)], [false]);
    assert "a.png" in Unguarded(s, 0).cache.files;
  }
}
