/** The metadata a master persists, and what reloading it gives back. */
module Snapshots {
  import opened Types
  import opened Objects
  import opened Master
  import opened MasterRuns

  datatype Snapshot = Snapshot(objects: seq<ObjectMeta>, quotas: seq<(string, Quota)>, evictionsTotal: u64)

  /** `values` lists the values of a table, each entry once, in some order. */
  ghost predicate ListsValues<K(!new), V>(table: map<K, V>, values: seq<V>) {
    exists keys: seq<K> :: Enumeration(table.Keys, keys) && ValuesAt(table, keys, values)
  }

  ghost predicate Enumeration<T(!new)>(s: set<T>, order: seq<T>) {
    NoDuplicates(order) && forall x :: x in order <==> x in s
  }

  ghost predicate ValuesAt<K, V>(table: map<K, V>, keys: seq<K>, values: seq<V>) {
    && |values| == |keys|
    && forall i :: 0 <= i < |keys| ==> keys[i] in table && values[i] == table[keys[i]]
  }

  /** `s` is a snapshot of `m`, for some iteration order of its two tables. */
  ghost predicate IsSnapshot(m: Master, s: Snapshot) {
    && ListsValues(m.objects, s.objects)
    && Enumeration(m.quotas.Items, s.quotas)
    && s.evictionsTotal == m.evictionsTotal
  }

  function KeyOf(meta: ObjectMeta): ObjKey {
    ObjKey(meta.tenantId, meta.cacheKey)
  }

  /** Inserting a list of objects one by one; a later entry replaces an earlier one with the same key. */
  function CollectObjects(objects: seq<ObjectMeta>): ObjectMap {
    if objects == [] then map[]
    else
      var last := objects[|objects| - 1];
      CollectObjects(objects[..|objects| - 1])[KeyOf(last) := last]
  }

  function CollectQuotas(quotas: seq<(string, Quota)>): map<string, Quota> {
    if quotas == [] then map[]
    else
      var last := quotas[|quotas| - 1];
      CollectQuotas(quotas[..|quotas| - 1])[last.0 := last.1]
  }

  /** A reloaded master: the persisted tables, no leases, no segments. */
  function Restore(s: Snapshot): Master {
    Master(CollectObjects(s.objects), CollectQuotas(s.quotas), map[], [], 0, s.evictionsTotal)
  }

  /** Whatever list is loaded, a key's entry is the last one listed for it. */
  lemma {:induction false} LastEntryWins(objects: seq<ObjectMeta>, k: ObjKey)
    ensures k in CollectObjects(objects) <==> exists i :: 0 <= i < |objects| && KeyOf(objects[i]) == k
    ensures k in CollectObjects(objects) ==>
      exists i :: 0 <= i < |objects| && KeyOf(objects[i]) == k && CollectObjects(objects)[k] == objects[i]
        && forall j :: i < j < |objects| ==> KeyOf(objects[j]) != k
    decreases |objects|
  {
    if objects != [] {
      var n := |objects| - 1;
      LastEntryWins(objects[..n], k);
      if KeyOf(objects[n]) != k && k in CollectObjects(objects) {
        var i :| 0 <= i < n && KeyOf(objects[..n][i]) == k && CollectObjects(objects[..n])[k] == objects[..n][i]
          && forall j :: i < j < n ==> KeyOf(objects[..n][j]) != k;
        assert objects[i] == objects[..n][i];
        assert forall j :: i < j < n ==> objects[j] == objects[..n][j];
      }
    }
  }

  lemma {:induction false} LastQuotaWins(quotas: seq<(string, Quota)>, tenant: string)
    ensures tenant in CollectQuotas(quotas) <==> exists i :: 0 <= i < |quotas| && quotas[i].0 == tenant
    ensures tenant in CollectQuotas(quotas) ==>
      exists i :: 0 <= i < |quotas| && quotas[i].0 == tenant && CollectQuotas(quotas)[tenant] == quotas[i].1
        && forall j :: i < j < |quotas| ==> quotas[j].0 != tenant
    decreases |quotas|
  {
    if quotas != [] {
      var n := |quotas| - 1;
      LastQuotaWins(quotas[..n], tenant);
      if quotas[n].0 != tenant && tenant in CollectQuotas(quotas) {
        var i :| 0 <= i < n && quotas[..n][i].0 == tenant && CollectQuotas(quotas[..n])[tenant] == quotas[..n][i].1
          && forall j :: i < j < n ==> quotas[..n][j].0 != tenant;
        assert quotas[i] == quotas[..n][i];
        assert forall j :: i < j < n ==> quotas[j] == quotas[..n][j];
      }
    }
  }

  lemma {:induction false} CollectedObjects(table: ObjectMap, keys: seq<ObjKey>, values: seq<ObjectMeta>)
    requires Coherent(table) && ValuesAt(table, keys, values)
    ensures forall k :: k in keys ==> k in CollectObjects(values) && CollectObjects(values)[k] == table[k]
    ensures forall k :: k in CollectObjects(values) ==> k in keys
    decreases |keys|
  {
    if keys != [] {
      var n := |keys| - 1;
      CollectedObjects(table, keys[..n], values[..n]);
      assert keys == keys[..n] + [keys[n]];
    }
  }

  lemma {:induction false} CollectedQuotas(table: map<string, Quota>, quotas: seq<(string, Quota)>)
    requires forall i :: 0 <= i < |quotas| ==> quotas[i].0 in table && quotas[i].1 == table[quotas[i].0]
    ensures forall i :: 0 <= i < |quotas| ==> quotas[i].0 in CollectQuotas(quotas)
    ensures forall t :: t in CollectQuotas(quotas) ==> t in table && CollectQuotas(quotas)[t] == table[t]
    decreases |quotas|
  {
    if quotas != [] {
      CollectedQuotas(table, quotas[..|quotas| - 1]);
    }
  }

  /** Whatever order the tables were written in, reloading gives back the same objects, quotas and eviction count. */
  lemma RestoreUndoesSnapshot(m: Master, s: Snapshot)
    requires Coherent(m.objects) && IsSnapshot(m, s)
    ensures Restore(s) == Master(m.objects, m.quotas, map[], [], 0, m.evictionsTotal)
  {
    var keys: seq<ObjKey> :| Enumeration(m.objects.Keys, keys) && ValuesAt(m.objects, keys, s.objects);
    CollectedObjects(m.objects, keys, s.objects);
    assert CollectObjects(s.objects) == m.objects;
    QuotasCollected(m.quotas, s.quotas);
  }

  lemma QuotasCollected(table: map<string, Quota>, quotas: seq<(string, Quota)>)
    requires forall q :: q in quotas <==> q in table.Items
    ensures CollectQuotas(quotas) == table
  {
    forall i | 0 <= i < |quotas|
      ensures quotas[i].0 in table && quotas[i].1 == table[quotas[i].0]
    {
      assert quotas[i] in quotas;
    }
    CollectedQuotas(table, quotas);
    forall t | t in table
      ensures t in CollectQuotas(quotas)
    {
      assert (t, table[t]) in table.Items;
    }
  }

  lemma {:induction false} SomeEnumeration<T(!new)>(s: set<T>) returns (order: seq<T>)
    ensures Enumeration(s, order)
    decreases |s|
  {
    if s == {} {
      order := [];
    } else {
      var x :| x in s;
      var rest := SomeEnumeration(s - {x});
      order := rest + [x];
    }
  }

  /** Every master has a snapshot. */
  lemma SomeSnapshot(m: Master) returns (s: Snapshot)
    ensures IsSnapshot(m, s)
  {
    var keys := SomeEnumeration(m.objects.Keys);
    var quotas := SomeEnumeration(m.quotas.Items);
    assert forall i :: 0 <= i < |keys| ==> keys[i] in keys;
    s := Snapshot(seq(|keys|, i requires 0 <= i < |keys| => m.objects[keys[i]]), quotas, m.evictionsTotal);
    assert ValuesAt(m.objects, keys, s.objects);
  }

  /** The quota accounts survive a reload. */
  lemma RestoreKeepsAccounts(m: Master, s: Snapshot)
    requires ObjectsOk(m) && QuotasExact(m) && IsSnapshot(m, s)
    ensures ObjectsOk(Restore(s)) && QuotasExact(Restore(s)) && LeasesOnCommitted(Restore(s))
  {
    RestoreUndoesSnapshot(m, s);
  }
}
