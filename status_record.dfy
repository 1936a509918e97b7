/** A JavaScript object `Record<string, TransformerStatus[]>` as the
    dashboards use it: a list of entries in insertion order with at most one
    entry per key (src/pages/OwnerDashboard.tsx,
    src/components/dashboard/CityHeatmap.tsx). Writing an existing key
    replaces its value in place; writing a new key appends it. */
module StatusRecord {
  import opened Types

  datatype Entry = Entry(key: string, statuses: seq<TransformerStatus>)

  type Record = seq<Entry>

  predicate HasKey(rec: Record, k: string) {
    exists i :: 0 <= i < |rec| && rec[i].key == k
  }

  predicate DistinctKeys(rec: Record) {
    forall i, j :: 0 <= i < j < |rec| ==> rec[i].key != rec[j].key
  }

  /** `rec[k]`: the value of the first entry with key `k`. */
  function Lookup(rec: Record, k: string): (r: Option<seq<TransformerStatus>>)
    ensures r.None? <==> !HasKey(rec, k)
    ensures r.Some? ==> exists i :: 0 <= i < |rec| && rec[i].key == k && rec[i].statuses == r.value &&
                                    forall j :: 0 <= j < i ==> rec[j].key != k
  {
    if rec == [] then None
    else if rec[0].key == k then Some(rec[0].statuses)
    else
      var r := Lookup(rec[1..], k);
      assert forall i :: 1 <= i < |rec| ==> rec[i] == rec[1..][i - 1];
      r
  }

  /** `rec[k] || []`. */
  function GetOrEmpty(rec: Record, k: string): (ts: seq<TransformerStatus>)
    ensures !HasKey(rec, k) ==> ts == []
    ensures HasKey(rec, k) ==> Lookup(rec, k) == Some(ts)
  {
    Lookup(rec, k).GetOr([])
  }

  /** `rec[k] = v`. */
  function Put(rec: Record, k: string, v: seq<TransformerStatus>): (r: Record)
    ensures Lookup(r, k) == Some(v)
    ensures forall k' :: k' != k ==> Lookup(r, k') == Lookup(rec, k')
    ensures !HasKey(rec, k) ==> r == rec + [Entry(k, v)]
  {
    if rec == [] then [Entry(k, v)]
    else if rec[0].key == k then [Entry(k, v)] + rec[1..]
    else
      var tail := Put(rec[1..], k, v);
      assert !HasKey(rec, k) ==> !HasKey(rec[1..], k) by {
        assert forall i :: 0 <= i < |rec[1..]| ==> rec[1..][i] == rec[i + 1];
      }
      assert [rec[0]] + (rec[1..] + [Entry(k, v)]) == rec + [Entry(k, v)];
      [rec[0]] + tail
  }

  /** Writing a key keeps the keys distinct. */
  lemma PutDistinct(rec: Record, k: string, v: seq<TransformerStatus>)
    requires DistinctKeys(rec)
    ensures DistinctKeys(Put(rec, k, v))
  {
    var r := Put(rec, k, v);
    if HasKey(rec, k) {
      PutKeys(rec, k, v);
    } else {
      assert r == rec + [Entry(k, v)];
    }
  }

  /** Writing an existing key changes no key. */
  lemma {:induction false} PutKeys(rec: Record, k: string, v: seq<TransformerStatus>)
    requires HasKey(rec, k)
    ensures |Put(rec, k, v)| == |rec|
    ensures forall i :: 0 <= i < |rec| ==> Put(rec, k, v)[i].key == rec[i].key
  {
    if rec[0].key != k {
      assert HasKey(rec[1..], k) by {
        var i :| 0 <= i < |rec| && rec[i].key == k;
        assert rec[1..][i - 1] == rec[i];
      }
      PutKeys(rec[1..], k, v);
    }
  }

  /** `Object.values(rec).flat()`: every entry's statuses, in entry order. */
  function Flat(rec: Record): (ts: seq<TransformerStatus>) {
    if rec == [] then [] else rec[0].statuses + Flat(rec[1..])
  }

  function TotalLength(rec: Record): (n: nat) {
    if rec == [] then 0 else |rec[0].statuses| + TotalLength(rec[1..])
  }

  lemma {:induction false} FlatLength(rec: Record)
    ensures |Flat(rec)| == TotalLength(rec)
  {
    if rec != [] {
      FlatLength(rec[1..]);
    }
  }

  lemma {:induction false} TotalLengthUniform(rec: Record, k: nat)
    requires forall i :: 0 <= i < |rec| ==> |rec[i].statuses| == k
    ensures TotalLength(rec) == k * |rec|
  {
    if rec != [] {
      assert forall i :: 0 <= i < |rec[1..]| ==> rec[1..][i] == rec[i + 1];
      TotalLengthUniform(rec[1..], k);
    }
  }

  lemma {:induction false} FlatAppend(rec: Record, e: Entry)
    ensures Flat(rec + [e]) == Flat(rec) + e.statuses
  {
    if rec == [] {
      assert rec + [e] == [e];
    } else {
      assert (rec + [e])[1..] == rec[1..] + [e];
      FlatAppend(rec[1..], e);
    }
  }

  /** A status is in the flattening iff it is in some entry. */
  lemma {:induction false} FlatMembers(rec: Record, t: TransformerStatus)
    ensures t in Flat(rec) <==> exists i :: 0 <= i < |rec| && t in rec[i].statuses
  {
    if rec != [] {
      FlatMembers(rec[1..], t);
      assert forall i :: 1 <= i < |rec| ==> rec[i] == rec[1..][i - 1];
      if t in Flat(rec[1..]) {
        var i :| 0 <= i < |rec[1..]| && t in rec[1..][i].statuses;
        assert t in rec[i + 1].statuses;
      }
    }
  }
}
