/** Scheduled backups in object storage: upload, then delete the oldest beyond the number to keep. */
module Retention {
  import opened Prelude
  import opened BackupNames
  import opened Lexical

  // Sets of names, and which of them are the newest.

  function Newer(names: set<string>, n: string): set<string> {
    set m | m in names && Before(n, m)
  }

  /** There are at least keep newer ones. */
  predicate Expired(names: set<string>, keep: nat, n: string) {
    |Newer(names, n)| >= keep
  }

  lemma {:induction false} SubsetSize(a: set<string>, b: set<string>)
    requires a <= b
    ensures |a| <= |b|
  {
    if a != {} {
      var x :| x in a;
      SubsetSize(a - {x}, b - {x});
    }
  }

  /** Among fewer names a name expires later. */
  lemma ExpiresLater(few: set<string>, many: set<string>, keep: nat, n: string)
    requires few <= many
    ensures Expired(few, keep, n) ==> Expired(many, keep, n)
  {
    SubsetSize(Newer(few, n), Newer(many, n));
  }

  function Elements(s: seq<string>): set<string> { set x | x in s }

  ghost predicate Distinct(s: seq<string>) {
    forall i, j :: 0 <= i < j < |s| ==> s[i] != s[j]
  }

  /** Oldest first, each name once. */
  ghost predicate Ascending(s: seq<string>) {
    forall i, j :: 0 <= i < j < |s| ==> Before(s[i], s[j])
  }

  lemma {:induction false} ElementsSize(s: seq<string>)
    requires Distinct(s)
    ensures |Elements(s)| == |s|
  {
    if s != [] {
      ElementsSize(s[1..]);
      assert Elements(s) == Elements(s[1..]) + {s[0]};
    }
  }

  lemma AscendingIsDistinct(s: seq<string>)
    requires Ascending(s)
    ensures Distinct(s)
  {
    forall i, j | 0 <= i < j < |s| ensures s[i] != s[j] { BeforeTotal(s[i], s[j]); }
  }

  /** In a sorted listing, position tells how many are newer. */
  lemma NewerByPosition(s: seq<string>, i: nat)
    requires Ascending(s) && i < |s|
    ensures |Newer(Elements(s), s[i])| == |s| - 1 - i
  {
    var t := s[i + 1..];
    forall x ensures x in Newer(Elements(s), s[i]) <==> x in Elements(t) {
      if x in Newer(Elements(s), s[i]) {
        var j :| 0 <= j < |s| && s[j] == x;
        BeforeTotal(s[i], x);
        assert i < j;
        assert t[j - i - 1] == x;
      }
      if x in t {
        var j :| 0 <= j < |t| && t[j] == x;
        assert s[j + i + 1] == x;
      }
    }
    assert Newer(Elements(s), s[i]) == Elements(t);
    AscendingIsDistinct(t);
    ElementsSize(t);
  }

  /** Puts one name where it belongs. */
  function Insert(s: seq<string>, x: string): (r: seq<string>)
    ensures multiset(r) == multiset(s) + multiset{x}
  {
    if s == [] then [x]
    else if Before(x, s[0]) then [x] + s
    else (assert s == [s[0]] + s[1..]; [s[0]] + Insert(s[1..], x))
  }

  /** The library's sort. */
  function Sorted(s: seq<string>): (r: seq<string>)
    ensures multiset(r) == multiset(s)
  {
    if s == [] then [] else (assert s == s[..|s| - 1] + [s[|s| - 1]]; Insert(Sorted(s[..|s| - 1]), s[|s| - 1]))
  }

  lemma {:induction false} InsertAscending(s: seq<string>, x: string)
    requires Ascending(s) && x !in s
    ensures Ascending(Insert(s, x))
  {
    if s != [] {
      BeforeTotal(s[0], x);
      assert s[0] in s;
      if Before(x, s[0]) {
        forall j | 0 <= j < |s| ensures Before(x, s[j]) { BeforeTransitive(x, s[0], s[j]); }
      } else {
        var rest := Insert(s[1..], x);
        InsertAscending(s[1..], x);
        forall j | 0 <= j < |rest| ensures Before(s[0], rest[j]) {
          assert rest[j] in multiset(rest);
          assert rest[j] == x || rest[j] in s[1..];
        }
      }
    }
  }

  lemma {:induction false} SortedAscending(s: seq<string>)
    requires Distinct(s)
    ensures Ascending(Sorted(s)) && Elements(Sorted(s)) == Elements(s) && |Sorted(s)| == |s|
  {
    forall x ensures x in Sorted(s) <==> x in s { assert x in multiset(Sorted(s)) <==> x in multiset(s); }
    assert |multiset(Sorted(s))| == |multiset(s)|;
    if s != [] {
      var front, last := s[..|s| - 1], s[|s| - 1];
      SortedAscending(front);
      assert last !in Elements(front);
      assert last !in Sorted(front) by { assert last in Sorted(front) ==> last in Elements(Sorted(front)); }
      InsertAscending(Sorted(front), last);
    }
  }

  /** What is not expired is exactly the newest keep, or all of them when there are fewer. */
  lemma KeptAreNewest(s: seq<string>, keep: nat)
    requires Ascending(s)
    ensures var names := Elements(s);
      var kept := set n | n in names && !Expired(names, keep, n);
      && |kept| == (if |names| < keep then |names| else keep)
      && (forall a, b :: a in kept && b in names - kept ==> Before(b, a))
  {
    var names := Elements(s);
    var kept := set n | n in names && !Expired(names, keep, n);
    var from := if |s| < keep then 0 else |s| - keep;
    forall i | 0 <= i < |s| ensures Expired(names, keep, s[i]) <==> i < from { NewerByPosition(s, i); }
    assert kept == Elements(s[from..]);
    AscendingIsDistinct(s);
    ElementsSize(s);
    ElementsSize(s[from..]);
    forall a, b | a in kept && b in names - kept ensures Before(b, a) {
      var i :| 0 <= i < |s| && s[i] == a;
      var j :| 0 <= j < |s| && s[j] == b;
    }
  }

  // The bucket.

  /** The backups among the keys under the prefix. */
  function BackupsIn(keys: set<string>, prefix: string): set<string> {
    set k | k in keys && prefix <= k && IsBackupName(k[|prefix|..]) :: k[|prefix|..]
  }

  lemma InBackups(keys: set<string>, prefix: string, n: string)
    ensures n in BackupsIn(keys, prefix) <==> IsBackupName(n) && prefix + n in keys
  {
    if IsBackupName(n) && prefix + n in keys {
      assert (prefix + n)[|prefix|..] == n;
    }
    if n in BackupsIn(keys, prefix) {
      var k :| k in keys && prefix <= k && IsBackupName(k[|prefix|..]) && k[|prefix|..] == n;
      assert k == prefix + n;
    }
  }

  datatype Outcome = Busy | NotUploaded | NotPruned(deleted: nat) | Done(deleted: nat)

  /** Only expired backups are gone. */
  ghost predicate OnlyExpired(before: set<string>, after: set<string>, prefix: string, keep: nat) {
    after <= before &&
    forall k :: k in before && k !in after ==>
      prefix <= k && IsBackupName(k[|prefix|..]) && Expired(BackupsIn(before, prefix), keep, k[|prefix|..])
  }

  /** Every expired backup is gone. */
  ghost predicate AllExpired(before: set<string>, after: set<string>, prefix: string, keep: nat) {
    forall n :: n in BackupsIn(before, prefix) && Expired(BackupsIn(before, prefix), keep, n) ==> prefix + n !in after
  }

  /** What one run does to the bucket. */
  ghost predicate Ran(before: set<string>, after: set<string>, prefix: string, keep: nat, name: string, outcome: Outcome) {
    var uploaded := before + {prefix + name};
    match outcome
    case Busy => after == before
    case NotUploaded => after == before
    case NotPruned(_) => OnlyExpired(uploaded, after, prefix, keep)
    case Done(_) => OnlyExpired(uploaded, after, prefix, keep) && AllExpired(uploaded, after, prefix, keep)
  }

  /** The service: every call either does its work or fails and changes nothing. */
  class Bucket {
    var keys: set<string>

    constructor (keys: set<string>)
      ensures this.keys == keys
    {
      this.keys := keys;
    }

    method Put(key: string) returns (ok: bool)
      modifies this
      ensures keys == if ok then old(keys) + {key} else old(keys)
    {
      ok := *;
      if ok { keys := keys + {key}; }
    }

    method Delete(key: string) returns (ok: bool)
      modifies this
      ensures keys == if ok then old(keys) - {key} else old(keys)
    {
      ok := *;
      if ok { keys := keys - {key}; }
    }

    /** The keys with a prefix, each once, in no particular order. */
    method List(prefix: string) returns (listed: Option<seq<string>>)
      ensures listed.Some? ==>
        Distinct(listed.value) && forall k :: k in listed.value <==> k in keys && prefix <= k
    {
      var fails: bool := *;
      if fails { return None; }
      var left, found: seq<string> := keys, [];
      while left != {}
        invariant left <= keys && Distinct(found)
        invariant forall k :: k in found <==> k in keys && k !in left && prefix <= k
        decreases |left|
      {
        var k :| k in left;
        left := left - {k};
        if prefix <= k { found := found + [k]; }
      }
      listed := Some(found);
    }
  }

  datatype Status = Status(lastObject: Option<string>, failing: bool, failures: nat)

  class Backups {
    const bucket: Bucket
    const prefix: string
    const keep: nat
    var running: bool
    var status: Status

    constructor (bucket: Bucket, prefix: string, keep: nat)
      requires keep >= 1
      ensures this.bucket == bucket && this.prefix == prefix && this.keep == keep && !running
      ensures status == Status(None, false, 0)
    {
      this.bucket, this.prefix, this.keep := bucket, prefix, keep;
      running, status := false, Status(None, false, 0);
    }

    /** The backups under the prefix, oldest first. */
    method List() returns (names: Option<seq<string>>)
      ensures names.Some? ==> Ascending(names.value) && Elements(names.value) == BackupsIn(bucket.keys, prefix)
    {
      var listed := bucket.List(prefix + HEAD);
      if listed.None? { return None; }
      var objs, out: seq<string> := listed.value, [];
      for i := 0 to |objs|
        invariant Distinct(out)
        invariant forall n :: n in out <==> IsBackupName(n) && prefix + n in objs[..i]
      {
        assert objs[i] in objs;
        var name := objs[i][|prefix|..];
        assert objs[i] == prefix + name;
        assert objs[..i + 1] == objs[..i] + [objs[i]];
        if IsBackupName(name) {
          assert prefix + name !in objs[..i];
          out := out + [name];
        }
      }
      assert objs[..|objs|] == objs;
      names := Some(Sorted(out));
      SortedAscending(out);
      forall n ensures n in Elements(out) <==> n in BackupsIn(bucket.keys, prefix) {
        InBackups(bucket.keys, prefix, n);
        if IsBackupName(n) { HeadOfKey(prefix, n); }
      }
    }

    /** Deletes the oldest backups beyond keep, and stops at the first that cannot be deleted. */
    method Prune() returns (ok: bool, deleted: nat)
      modifies bucket
      ensures OnlyExpired(old(bucket.keys), bucket.keys, prefix, keep)
      ensures ok ==> AllExpired(old(bucket.keys), bucket.keys, prefix, keep)
    {
      deleted := 0;
      var names := List();
      if names.None? { return false, 0; }
      ghost var all := BackupsIn(bucket.keys, prefix);
      var excess := |names.value| - keep;
      var i := 0;
      while i < excess
        invariant 0 <= i <= |names.value| && (i > 0 ==> i <= excess) && deleted == i
        invariant bucket.keys == old(bucket.keys) - Prefixed(prefix, names.value[..i])
      {
        ok := bucket.Delete(prefix + names.value[i]);
        if !ok {
          PrunedSoFar(old(bucket.keys), prefix, names.value, keep, i);
          return false, deleted;
        }
        PrefixedStep(prefix, names.value, i);
        deleted := deleted + 1;
        i := i + 1;
      }
      PrunedSoFar(old(bucket.keys), prefix, names.value, keep, i);
      ok := true;
    }

    /** One backup now: snapshot, compress, upload, prune. A second run beside it is refused. */
    method RunOnce(name: string) returns (outcome: Outcome)
      modifies this, bucket
      ensures old(running) <==> outcome == Busy
      ensures running == old(running)
      ensures Ran(old(bucket.keys), bucket.keys, prefix, keep, name, outcome)
      ensures status == Recorded(old(status), name, outcome)
    {
      if running { return Busy; }
      running := true;
      outcome := RunAlone(name);
      status := Recorded(status, name, outcome);
      running := false;
    }

    method RunAlone(name: string) returns (outcome: Outcome)
      modifies bucket
      ensures outcome != Busy
      ensures Ran(old(bucket.keys), bucket.keys, prefix, keep, name, outcome)
    {
      var snapshot: bool, compressed: bool := *, *;
      if !snapshot || !compressed { return NotUploaded; }
      var uploaded := bucket.Put(prefix + name);
      if !uploaded { return NotUploaded; }
      var ok, deleted := Prune();
      outcome := if ok then Done(deleted) else NotPruned(deleted);
    }
  }

  /** What a run leaves in the status: an upload counts as a success even when pruning failed. */
  function Recorded(s: Status, name: string, outcome: Outcome): Status {
    match outcome
    case Busy => s
    case NotUploaded => s.(failing := true, failures := s.failures + 1)
    case NotPruned(_) => Status(Some(name), true, s.failures + 1)
    case Done(_) => Status(Some(name), false, s.failures)
  }

  function Prefixed(prefix: string, names: seq<string>): set<string> {
    set n | n in names :: prefix + n
  }

  lemma PrefixedStep(prefix: string, names: seq<string>, i: nat)
    requires i < |names|
    ensures Prefixed(prefix, names[..i + 1]) == Prefixed(prefix, names[..i]) + {prefix + names[i]}
  {
    assert names[..i + 1] == names[..i] + [names[i]];
  }

  lemma HeadOfKey(prefix: string, n: string)
    requires IsBackupName(n)
    ensures prefix + HEAD <= prefix + n
  {
    assert (prefix + n)[..|prefix + HEAD|] == prefix + n[..10];
  }

  /** Deleting the first i of a sorted listing, no more than the excess, deletes only what has expired. */
  lemma PrunedSoFar(keys: set<string>, prefix: string, names: seq<string>, keep: nat, i: nat)
    requires Ascending(names) && Elements(names) == BackupsIn(keys, prefix)
    requires i <= |names| && (i > 0 ==> i <= |names| - keep)
    ensures OnlyExpired(keys, keys - Prefixed(prefix, names[..i]), prefix, keep)
    ensures i >= |names| - keep ==> AllExpired(keys, keys - Prefixed(prefix, names[..i]), prefix, keep)
  {
    var all := BackupsIn(keys, prefix);
    forall j | 0 <= j < |names| ensures Expired(all, keep, names[j]) <==> j < |names| - keep {
      NewerByPosition(names, j);
    }
    forall k | k in Prefixed(prefix, names[..i])
      ensures prefix <= k && IsBackupName(k[|prefix|..]) && Expired(all, keep, k[|prefix|..])
    {
      var j :| 0 <= j < i && prefix + names[j] == k;
      assert names[j] in Elements(names);
      InBackups(keys, prefix, names[j]);
      assert k[|prefix|..] == names[j];
    }
    if i >= |names| - keep {
      forall n | n in all && Expired(all, keep, n) ensures prefix + n in Prefixed(prefix, names[..i]) {
        assert n in Elements(names);
        var j :| 0 <= j < |names| && names[j] == n;
        assert names[..i][j] == n;
      }
    }
  }

  // Any history of runs.

  /** The bucket, and every backup that was in it at the start or was ever uploaded. */
  datatype History = History(keys: set<string>, ever: set<string>)

  ghost predicate Uploads(outcome: Outcome) { outcome.NotPruned? || outcome.Done? }

  ghost predicate Step(a: History, b: History, prefix: string, keep: nat) {
    exists taken: Moment, outcome: Outcome ::
      && Ran(a.keys, b.keys, prefix, keep, NameOf(taken), outcome)
      && b.ever == a.ever + (if Uploads(outcome) then {NameOf(taken)} else {})
  }

  /** The newest keep of all backups there ever were are still there. */
  ghost predicate KeepsNewest(h: History, prefix: string, keep: nat) {
    && BackupsIn(h.keys, prefix) <= h.ever
    && (forall n :: n in h.ever && !Expired(h.ever, keep, n) ==> n in BackupsIn(h.keys, prefix))
  }

  lemma StepKeepsNewest(a: History, b: History, prefix: string, keep: nat)
    requires keep >= 1 && KeepsNewest(a, prefix, keep) && Step(a, b, prefix, keep)
    ensures KeepsNewest(b, prefix, keep)
  {
    var taken: Moment, outcome: Outcome :|
      && Ran(a.keys, b.keys, prefix, keep, NameOf(taken), outcome)
      && b.ever == a.ever + (if Uploads(outcome) then {NameOf(taken)} else {});
    if Uploads(outcome) {
      NameHasShape(taken);
      UploadKeepsNewest(a, b, prefix, keep, NameOf(taken));
    } else {
      assert b.ever == a.ever;
    }
  }

  lemma UploadKeepsNewest(a: History, b: History, prefix: string, keep: nat, name: string)
    requires KeepsNewest(a, prefix, keep) && IsBackupName(name)
    requires OnlyExpired(a.keys + {prefix + name}, b.keys, prefix, keep) && b.ever == a.ever + {name}
    ensures KeepsNewest(b, prefix, keep)
  {
    hide IsBackupName, Expired;
    var uploaded := a.keys + {prefix + name};
    var there := BackupsIn(uploaded, prefix);
    forall n
      ensures n in there <==> n in BackupsIn(a.keys, prefix) || n == name
      ensures n in BackupsIn(b.keys, prefix) ==> n in there
      ensures n in there && !Expired(there, keep, n) ==> n in BackupsIn(b.keys, prefix)
    {
      InBackups(uploaded, prefix, n);
      InBackups(a.keys, prefix, n);
      InBackups(b.keys, prefix, n);
      assert (prefix + n)[|prefix|..] == n;
    }
    forall n | n in b.ever && !Expired(b.ever, keep, n)
      ensures n in BackupsIn(b.keys, prefix)
    {
      ExpiresLater(a.ever, b.ever, keep, n);
      ExpiresLater(there, b.ever, keep, n);
    }
  }

  /** After any history of runs, failing anywhere, the newest keep backups ever taken are in the bucket. */
  lemma {:induction false} NewestAlwaysThere(states: seq<History>, n: nat, prefix: string, keep: nat)
    requires keep >= 1 && n < |states| && states[0].ever == BackupsIn(states[0].keys, prefix)
    requires forall i :: 0 <= i < n ==> Step(states[i], states[i + 1], prefix, keep)
    ensures KeepsNewest(states[n], prefix, keep)
  {
    hide Step, KeepsNewest;
    if n == 0 {
      StartsWithAll(states[0], prefix, keep);
    } else {
      NewestAlwaysThere(states, n - 1, prefix, keep);
      StepKeepsNewest(states[n - 1], states[n], prefix, keep);
    }
  }

  lemma StartsWithAll(h: History, prefix: string, keep: nat)
    requires h.ever == BackupsIn(h.keys, prefix)
    ensures KeepsNewest(h, prefix, keep)
  {
  }

  /** A key that is not shaped like a backup is never deleted. */
  lemma {:induction false} OthersAlwaysThere(states: seq<History>, n: nat, prefix: string, keep: nat, key: string)
    requires n < |states| && key in states[0].keys && !(prefix <= key && IsBackupName(key[|prefix|..]))
    requires forall i :: 0 <= i < n ==> Step(states[i], states[i + 1], prefix, keep)
    ensures key in states[n].keys
  {
    hide Step, IsBackupName;
    if n > 0 {
      OthersAlwaysThere(states, n - 1, prefix, keep, key);
      OtherStays(states[n - 1], states[n], prefix, keep, key);
    }
  }

  lemma OtherStays(a: History, b: History, prefix: string, keep: nat, key: string)
    requires key in a.keys && !(prefix <= key && IsBackupName(key[|prefix|..])) && Step(a, b, prefix, keep)
    ensures key in b.keys
  {
    hide IsBackupName, Expired;
  }

  /** A clean run leaves exactly the newest of what was there and the new one. */
  lemma CleanRunLeavesNewest(before: set<string>, after: set<string>, prefix: string, keep: nat, name: string, deleted: nat)
    requires Ran(before, after, prefix, keep, name, Done(deleted))
    ensures var there := BackupsIn(before + {prefix + name}, prefix);
      var left := BackupsIn(after, prefix);
      && left <= there
      && |left| == (if |there| < keep then |there| else keep)
      && (forall a, b :: a in left && b in there - left ==> Before(b, a))
  {
    hide IsBackupName, Expired;
    var uploaded := before + {prefix + name};
    var there := BackupsIn(uploaded, prefix);
    var kept := set n | n in there && !Expired(there, keep, n);
    forall n ensures n in BackupsIn(after, prefix) <==> n in kept {
      InBackups(uploaded, prefix, n);
      InBackups(after, prefix, n);
      assert (prefix + n)[|prefix|..] == n;
    }
    assert BackupsIn(after, prefix) == kept;
    var s := Listing(there);
    KeptAreNewest(s, keep);
  }

  /** Every set of names has a sorted listing. */
  lemma {:induction false} Listing(names: set<string>) returns (s: seq<string>)
    ensures Ascending(s) && Elements(s) == names
    decreases |names|
  {
    if names == {} {
      s := [];
    } else {
      var x :| x in names;
      var rest := Listing(names - {x});
      assert x !in Elements(rest);
      s := Insert(rest, x);
      InsertAscending(rest, x);
      forall y ensures y in s <==> y in names {
        assert y in multiset(s) <==> y in multiset(rest) || y == x;
        assert y in rest <==> y in Elements(rest);
      }
    }
  }
}
