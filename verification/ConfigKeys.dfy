/** Configuration keys for the objects that have none (assignKeys, internal/api/config_export.go;
    DeriveKey, internal/configfile/parse.go). */
module ConfigKeys {
  import opened Prelude
  import Decimal
  import opened ConfigModel
  import opened ConfigStore

  function Numbered(base: Key, n: nat): Key { base + "-" + Decimal.Format(n) }

  lemma NumberedDiffer(base: Key, a: nat, b: nat)
    requires Numbered(base, a) == Numbered(base, b)
    ensures a == b
  {
    assert Numbered(base, a)[|base| + 1..] == Decimal.Format(a);
    assert Numbered(base, b)[|base| + 1..] == Decimal.Format(b);
    Decimal.FormatInjective(a, b);
  }

  /** The next key tried is none of those before it. */
  lemma NextIsNew(base: Key, n: nat, tried: set<Key>, key: Key)
    requires n >= 2 && (if n == 2 then key == base && tried == {} else key == Numbered(base, n - 1))
    requires forall k :: k in tried ==> k == base || exists m :: 2 <= m < n - 1 && k == Numbered(base, m)
    ensures Numbered(base, n) !in tried + {key}
  {
    var next := Numbered(base, n);
    assert |next| > |base|;
    if n > 2 && key == next { NumberedDiffer(base, n - 1, n); }
    if next in tried {
      var m :| 2 <= m < n - 1 && next == Numbered(base, m);
      NumberedDiffer(base, m, n);
    }
  }

  /** The base, or the base with the first number that is free: the loop ends because every key it passes
      over is another taken one. */
  method DeriveKey(base: Key, taken: set<Key>) returns (key: Key)
    ensures key !in taken && (base !in taken ==> key == base)
    ensures base in taken ==> exists n :: n >= 2 && key == Numbered(base, n) && forall m :: 2 <= m < n ==> Numbered(base, m) in taken
  {
    hide Numbered;
    key := base;
    var n := 2;
    ghost var tried: set<Key> := {};
    while key in taken
      invariant n >= 2 && tried <= taken && key !in tried
      invariant if n == 2 then key == base && tried == {} else key == Numbered(base, n - 1) && base in taken
      invariant forall m :: 2 <= m < n - 1 ==> Numbered(base, m) in taken
      invariant forall k :: k in tried ==> k == base || exists m :: 2 <= m < n - 1 && k == Numbered(base, m)
      decreases |taken - tried|
    {
      FewerLeft(taken, tried, key);
      NextIsNew(base, n, tried, key);
      tried := tried + {key};
      key := Numbered(base, n);
      n := n + 1;
    }
  }

  lemma FewerLeft(taken: set<Key>, tried: set<Key>, k: Key)
    requires k in taken && k !in tried
    ensures |taken - (tried + {k})| < |taken - tried|
  {
    assert taken - tried == (taken - (tried + {k})) + {k};
  }

  /** An object and the key its name suggests. */
  datatype Named = Named(id: Id, base: Key)

  /** Storing a key can fail; the ones stored before it stay. Objects that have a key keep it, and no two
      objects are given the same one. */
  method AssignKeys(ring: Keyring, objects: seq<Named>) returns (ok: bool, out: Keyring)
    requires ring.Valid()
    ensures out.Valid() && (forall i :: i in ring.keyOf ==> i in out.keyOf && out.keyOf[i] == ring.keyOf[i])
    ensures ok ==> forall o :: o in objects ==> o.id in out.keyOf
    ensures forall i :: i in out.keyOf ==> i in ring.keyOf || exists o :: o in objects && o.id == i
  {
    out := ring;
    for n := 0 to |objects|
      invariant out.Valid() && (forall i :: i in ring.keyOf ==> i in out.keyOf && out.keyOf[i] == ring.keyOf[i])
      invariant forall m :: 0 <= m < n ==> objects[m].id in out.keyOf
      invariant forall i :: i in out.keyOf ==> i in ring.keyOf || exists o :: o in objects && o.id == i
    {
      if objects[n].id !in out.keyOf {
        var key := DeriveKey(objects[n].base, out.idOf.Keys);
        ok := *;
        if !ok { return; }
        AddValid(out, key, objects[n].id);
        out := out.Add(key, objects[n].id);
      }
    }
    ok := true;
  }
}
