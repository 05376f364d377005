/** Ordered key/value stores: PHP arrays with string keys and JavaScript plain objects, both of
    which keep keys in insertion order and overwrite the value of an existing key in place. */
module Assoc {
  import opened Wrappers

  type Assoc<V> = seq<(string, V)>

  predicate HasKey<V>(a: Assoc<V>, k: string) {
    exists i :: 0 <= i < |a| && a[i].0 == k
  }

  ghost predicate UniqueKeys<V>(a: Assoc<V>) {
    forall i, j :: 0 <= i < j < |a| ==> a[i].0 != a[j].0
  }

  /** `$a[$k]` / `a[k]`: the value stored under `k`, if any. */
  function Get<V>(a: Assoc<V>, k: string): (r: Option<V>)
    ensures r.Some? <==> HasKey(a, k)
    ensures r.Some? ==> exists i :: 0 <= i < |a| && a[i] == (k, r.value)
  {
    if a == [] then None
    else if a[0].0 == k then Some(a[0].1)
    else
      var r := Get(a[1..], k);
      assert r.Some? ==> exists i :: 1 <= i < |a| && a[i] == (k, r.value) by {
        if r.Some? {
          var i :| 0 <= i < |a[1..]| && a[1..][i] == (k, r.value);
          assert a[i + 1] == (k, r.value);
        }
      }
      assert HasKey(a, k) ==> HasKey(a[1..], k) by {
        if HasKey(a, k) {
          var i :| 0 <= i < |a| && a[i].0 == k;
          assert i != 0;
          assert a[1..][i - 1].0 == k;
        }
      }
      r
  }

  /** In an array with unique keys the value under a key is the one stored at its position. */
  lemma {:induction false} GetAt<V>(a: Assoc<V>, i: nat)
    requires UniqueKeys(a) && i < |a|
    ensures Get(a, a[i].0) == Some(a[i].1)
  {
    if i > 0 {
      assert a[0].0 != a[i].0;
      assert a[1..][i - 1] == a[i];
      GetAt(a[1..], i - 1);
    }
  }

  /** `$a[$k] = $v` / `a[k] = v`: overwrite in place, or append a new key at the end. */
  function Put<V>(a: Assoc<V>, k: string, v: V): (r: Assoc<V>)
    ensures Get(r, k) == Some(v)
    ensures forall k' :: k' != k ==> Get(r, k') == Get(a, k')
    ensures forall e :: e in r ==> e in a || e == (k, v)
  {
    if a == [] then [(k, v)]
    else if a[0].0 == k then
      var r := [(k, v)] + a[1..];
      assert r[1..] == a[1..];
      r
    else
      var rest := Put(a[1..], k, v);
      var r := [a[0]] + rest;
      assert r[1..] == rest;
      r
  }

  /** Writing a new key appends it. */
  lemma {:induction false} PutNew<V>(a: Assoc<V>, k: string, v: V)
    requires !HasKey(a, k)
    ensures Put(a, k, v) == a + [(k, v)]
  {
    if a != [] {
      assert !HasKey(a[1..], k) by {
        forall i | 0 <= i < |a[1..]| ensures a[1..][i].0 != k {
          assert a[1..][i] == a[i + 1];
        }
      }
      PutNew(a[1..], k, v);
    }
  }

  /** Writing an existing key replaces its first occurrence in place. */
  lemma {:induction false} PutExisting<V>(a: Assoc<V>, i: nat, v: V)
    requires i < |a| && forall j :: 0 <= j < i ==> a[j].0 != a[i].0
    ensures Put(a, a[i].0, v) == a[i := (a[i].0, v)]
  {
    var k := a[i].0;
    if i == 0 {
      assert Put(a, k, v) == [(k, v)] + a[1..];
      assert [(k, v)] + a[1..] == a[0 := (k, v)];
    } else {
      var rest := a[1..];
      assert rest[i - 1] == a[i];
      assert forall j :: 0 <= j < i - 1 ==> rest[j] == a[j + 1];
      PutExisting(rest, i - 1, v);
      assert a[0].0 != k;
      assert Put(a, k, v) == [a[0]] + Put(rest, k, v);
      assert [a[0]] + rest[i - 1 := (k, v)] == a[i := (k, v)];
    }
  }

  /** Writing never introduces a duplicate key. */
  lemma PutUnique<V>(a: Assoc<V>, k: string, v: V)
    requires UniqueKeys(a)
    ensures UniqueKeys(Put(a, k, v))
  {
    if HasKey(a, k) {
      var i :| 0 <= i < |a| && a[i].0 == k;
      PutExisting(a, i, v);
    } else {
      PutNew(a, k, v);
    }
  }

  /** Writing the value a key already holds changes nothing. */
  lemma {:induction false} PutSame<V>(a: Assoc<V>, k: string, v: V)
    requires Get(a, k) == Some(v)
    ensures Put(a, k, v) == a
  {
    if a != [] && a[0].0 != k {
      PutSame(a[1..], k, v);
    }
  }

  /** Writing a key twice leaves only the second value, at the position of the first write. */
  lemma {:induction false} PutPut<V>(a: Assoc<V>, k: string, v1: V, v2: V)
    ensures Put(Put(a, k, v1), k, v2) == Put(a, k, v2)
  {
    if a != [] && a[0].0 != k {
      PutPut(a[1..], k, v1, v2);
    }
  }

  /** Appending an entry: the earlier entries keep their values, the new one is found only
      when its key is new. */
  lemma {:induction false} GetSnoc<V>(a: Assoc<V>, k: string, v: V, key: string)
    ensures Get(a + [(k, v)], key) == if HasKey(a, key) then Get(a, key) else if k == key then Some(v) else None
  {
    if a != [] {
      assert (a + [(k, v)])[1..] == a[1..] + [(k, v)];
      GetSnoc(a[1..], k, v, key);
    }
  }

  /** The store after performing the writes `ws` in order, starting from `a`. */
  function PutAll<V>(a: Assoc<V>, ws: seq<(string, V)>): Assoc<V>
    decreases |ws|
  {
    if ws == [] then a
    else Put(PutAll(a, ws[..|ws| - 1]), ws[|ws| - 1].0, ws[|ws| - 1].1)
  }

  lemma PutAllSnoc<V>(a: Assoc<V>, ws: seq<(string, V)>, k: string, v: V)
    ensures PutAll(a, ws + [(k, v)]) == Put(PutAll(a, ws), k, v)
  {
    assert (ws + [(k, v)])[..|ws|] == ws;
  }

  /** The value of the last write to `k` in `ws`, if there is one. */
  function LastWrite<V>(ws: seq<(string, V)>, k: string): (r: Option<V>)
    ensures r.None? <==> forall i :: 0 <= i < |ws| ==> ws[i].0 != k
    ensures r.Some? ==> exists i :: 0 <= i < |ws| && ws[i] == (k, r.value)
                                   && forall j :: i < j < |ws| ==> ws[j].0 != k
    decreases |ws|
  {
    if ws == [] then None
    else if ws[|ws| - 1].0 == k then Some(ws[|ws| - 1].1)
    else
      LastWrite(ws[..|ws| - 1], k)
  }

  /** Later writes overwrite earlier ones: after `PutAll(a, ws)` the value under `k` is the last
      value written to `k`, or the original value when `ws` never writes `k`. */
  lemma {:induction false} GetPutAll<V>(a: Assoc<V>, ws: seq<(string, V)>, k: string)
    ensures Get(PutAll(a, ws), k) == if LastWrite(ws, k).Some? then LastWrite(ws, k) else Get(a, k)
    decreases |ws|
  {
    if ws != [] {
      GetPutAll(a, ws[..|ws| - 1], k);
    }
  }

  lemma {:induction false} PutAllUnique<V>(a: Assoc<V>, ws: seq<(string, V)>)
    requires UniqueKeys(a)
    ensures UniqueKeys(PutAll(a, ws))
    decreases |ws|
  {
    if ws != [] {
      PutAllUnique(a, ws[..|ws| - 1]);
      PutUnique(PutAll(a, ws[..|ws| - 1]), ws[|ws| - 1].0, ws[|ws| - 1].1);
    }
  }

  /** Writing distinct keys into an empty store reproduces the writes themselves. */
  lemma {:induction false} PutAllFresh<V>(ws: seq<(string, V)>)
    requires UniqueKeys(ws)
    ensures PutAll([], ws) == ws
    decreases |ws|
  {
    if ws != [] {
      var pre := ws[..|ws| - 1];
      assert UniqueKeys(pre);
      PutAllFresh(pre);
      assert !HasKey(pre, ws[|ws| - 1].0) by {
        forall i | 0 <= i < |pre| ensures pre[i].0 != ws[|ws| - 1].0 {
          assert pre[i] == ws[i];
        }
      }
      PutNew(pre, ws[|ws| - 1].0, ws[|ws| - 1].1);
      assert pre + [ws[|ws| - 1]] == ws;
    }
  }

  /** Every entry of the store after the writes was in the store before or is one of the writes. */
  lemma {:induction false} PutAllEntries<V>(a: Assoc<V>, ws: seq<(string, V)>)
    ensures forall e :: e in PutAll(a, ws) ==> e in a || e in ws
    decreases |ws|
  {
    if ws != [] {
      PutAllEntries(a, ws[..|ws| - 1]);
      assert forall e :: e in ws[..|ws| - 1] ==> e in ws;
    }
  }

  /** A key is present after the writes iff it was present before or some write names it. */
  lemma HasKeyPutAll<V>(a: Assoc<V>, ws: seq<(string, V)>, k: string)
    ensures HasKey(PutAll(a, ws), k) <==> HasKey(a, k) || exists i :: 0 <= i < |ws| && ws[i].0 == k
  {
    GetPutAll(a, ws, k);
  }

  /** The last write to `k` in `a + b` is the one in `b`, if `b` writes `k` at all. */
  lemma {:induction false} LastWriteConcat<V>(a: seq<(string, V)>, b: seq<(string, V)>, k: string)
    ensures LastWrite(a + b, k) == if LastWrite(b, k).Some? then LastWrite(b, k) else LastWrite(a, k)
    decreases |b|
  {
    if b == [] {
      assert a + b == a;
    } else {
      var pre := b[..|b| - 1];
      assert (a + b)[..|a + b| - 1] == a + pre;
      LastWriteConcat(a, pre, k);
    }
  }

  /** The writes of a loop that performs the writes `w(x)` for each item `x` in turn. */
  function FlatWrites<T, V>(items: seq<T>, w: T -> seq<(string, V)>): seq<(string, V)>
    decreases |items|
  {
    if items == [] then [] else FlatWrites(items[..|items| - 1], w) + w(items[|items| - 1])
  }

  lemma FlatWritesSnoc<T, V>(items: seq<T>, w: T -> seq<(string, V)>, i: nat)
    requires i < |items|
    ensures FlatWrites(items[..i + 1], w) == FlatWrites(items[..i], w) + w(items[i])
  {
    assert items[..i + 1][..i] == items[..i];
  }

  /** Some item's writes name `k` iff the loop as a whole writes `k`. */
  lemma {:induction false} FlatWritesKeys<T, V>(items: seq<T>, w: T -> seq<(string, V)>, k: string)
    ensures LastWrite(FlatWrites(items, w), k).Some? <==>
            exists j :: 0 <= j < |items| && LastWrite(w(items[j]), k).Some?
    decreases |items|
  {
    if items != [] {
      var pre := items[..|items| - 1];
      FlatWritesKeys(pre, w, k);
      LastWriteConcat(FlatWrites(pre, w), w(items[|items| - 1]), k);
      forall j | 0 <= j < |pre| ensures pre[j] == items[j] { }
      if exists j :: 0 <= j < |items| && LastWrite(w(items[j]), k).Some? {
        var j :| 0 <= j < |items| && LastWrite(w(items[j]), k).Some?;
        if j < |pre| {
          assert LastWrite(w(pre[j]), k).Some?;
        }
      }
    }
  }

  /** The value under `k` after the loop comes from the last item whose writes name `k`. */
  lemma {:induction false} FlatWritesLast<T, V>(items: seq<T>, w: T -> seq<(string, V)>, i: nat, k: string)
    requires i < |items| && LastWrite(w(items[i]), k).Some?
    requires forall j :: i < j < |items| ==> LastWrite(w(items[j]), k).None?
    ensures LastWrite(FlatWrites(items, w), k) == LastWrite(w(items[i]), k)
    decreases |items|
  {
    var pre := items[..|items| - 1];
    LastWriteConcat(FlatWrites(pre, w), w(items[|items| - 1]), k);
    if i < |items| - 1 {
      assert pre[i] == items[i];
      forall j | i < j < |pre| ensures LastWrite(w(pre[j]), k).None? {
        assert pre[j] == items[j];
      }
      FlatWritesLast(pre, w, i, k);
    }
  }

  /** Performing two batches of writes one after the other is performing their concatenation. */
  lemma {:induction false} PutAllConcat<V>(a: Assoc<V>, ws1: seq<(string, V)>, ws2: seq<(string, V)>)
    ensures PutAll(a, ws1 + ws2) == PutAll(PutAll(a, ws1), ws2)
    decreases |ws2|
  {
    if ws2 == [] {
      assert ws1 + ws2 == ws1;
    } else {
      var pre := ws2[..|ws2| - 1];
      assert (ws1 + ws2)[..|ws1 + ws2| - 1] == ws1 + pre;
      PutAllConcat(a, ws1, pre);
    }
  }

  /** When no key is written twice, the last write to a key is its only write. */
  lemma {:induction false} LastWriteUnique<V>(ws: seq<(string, V)>, k: string)
    requires UniqueKeys(ws)
    ensures LastWrite(ws, k) == Get(ws, k)
  {
    if LastWrite(ws, k).Some? {
      var i :| 0 <= i < |ws| && ws[i] == (k, LastWrite(ws, k).value);
      GetAt(ws, i);
    }
  }
}
