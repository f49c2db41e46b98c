/**
 * PHP's ordered arrays with string keys, as sequences of key-value pairs
 * in iteration order. `Assign` is `$a[$k] = $v`.
 */
module PhpArrays {

  type Entries<V> = seq<(string, V)>

  /** `array_keys($a)` */
  function Keys<V>(e: Entries<V>): seq<string> {
    seq(|e|, i requires 0 <= i < |e| => e[i].0)
  }

  /** No key occurs twice, as in every PHP array. */
  predicate IsMap<V>(e: Entries<V>) {
    forall i, j :: 0 <= i < j < |e| ==> e[i].0 != e[j].0
  }

  /** `$a[$k]` for a key that is present. */
  function Get<V>(e: Entries<V>, k: string): V
    requires k in Keys(e)
  {
    if e[0].0 == k then e[0].1
    else assert Keys(e) == [e[0].0] + Keys(e[1..]); Get(e[1..], k)
  }

  /** `$a[$k] = $v`: an existing key keeps its place, a new key goes last. */
  function Assign<V>(e: Entries<V>, k: string, v: V): Entries<V> {
    if e == [] then [(k, v)]
    else if e[0].0 == k then [(k, v)] + e[1..]
    else [e[0]] + Assign(e[1..], k, v)
  }

  lemma {:induction false} AssignKeys<V>(e: Entries<V>, k: string, v: V)
    ensures Keys(Assign(e, k, v)) == if k in Keys(e) then Keys(e) else Keys(e) + [k]
  {
    if e != [] && e[0].0 != k {
      AssignKeys(e[1..], k, v);
      assert Keys(e) == [e[0].0] + Keys(e[1..]);
      assert Keys(Assign(e, k, v)) == [e[0].0] + Keys(Assign(e[1..], k, v));
    } else if e != [] {
      assert Keys(Assign(e, k, v)) == [k] + Keys(e[1..]);
      assert Keys(e) == [k] + Keys(e[1..]);
    }
  }

  /** A new key is appended at the end. */
  lemma {:induction false} AssignNewKeyAppends<V>(e: Entries<V>, k: string, v: V)
    requires k !in Keys(e)
    ensures Assign(e, k, v) == e + [(k, v)]
  {
    if e != [] {
      assert e[0].0 == Keys(e)[0];
      assert Keys(e[1..]) == Keys(e)[1..];
      AssignNewKeyAppends(e[1..], k, v);
      assert e == [e[0]] + e[1..];
    }
  }

  /** Overwriting a key replaces its value where it stands; nothing moves. */
  lemma {:induction false} AssignExistingKeyInPlace<V>(e: Entries<V>, i: nat, v: V)
    requires IsMap(e) && i < |e|
    ensures Assign(e, e[i].0, v) == e[i := (e[i].0, v)]
  {
    if i > 0 {
      assert e[0].0 != e[i].0;
      AssignExistingKeyInPlace(e[1..], i - 1, v);
      assert e[i := (e[i].0, v)] == [e[0]] + e[1..][i - 1 := (e[i].0, v)];
    }
  }

  lemma {:induction false} AssignKeepsMap<V>(e: Entries<V>, k: string, v: V)
    requires IsMap(e)
    ensures IsMap(Assign(e, k, v))
  {
    AssignKeys(e, k, v);
    var r := Assign(e, k, v);
    forall i, j | 0 <= i < j < |r|
      ensures r[i].0 != r[j].0
    {
      assert Keys(r)[i] == r[i].0 && Keys(r)[j] == r[j].0;
      if k !in Keys(e) && j == |e| {
        assert Keys(e)[i] == Keys(r)[i];
      } else {
        assert Keys(e)[i] == e[i].0 && Keys(e)[j] == e[j].0;
      }
    }
  }

  /** After `$a[$k] = $v`, `$a[$k]` is `$v` and every other key reads as before. */
  lemma {:induction false} AssignGet<V>(e: Entries<V>, k: string, v: V, k': string)
    ensures k in Keys(Assign(e, k, v)) && Get(Assign(e, k, v), k) == v
    ensures k' != k ==> (k' in Keys(Assign(e, k, v)) <==> k' in Keys(e))
    ensures k' != k && k' in Keys(e) ==> Get(Assign(e, k, v), k') == Get(e, k')
  {
    AssignKeys(e, k, v);
    if e != [] {
      var r := Assign(e, k, v);
      assert Keys(e) == [e[0].0] + Keys(e[1..]);
      assert Keys(r) == [r[0].0] + Keys(r[1..]);
      if e[0].0 != k {
        AssignGet(e[1..], k, v, k');
        assert r[1..] == Assign(e[1..], k, v);
      } else {
        assert r[1..] == e[1..];
      }
    }
  }

  /** Appending entries leaves the lookup of an existing key as it was. */
  lemma {:induction false} GetAppend<V>(e: Entries<V>, tail: Entries<V>, k: string)
    requires k in Keys(e)
    ensures k in Keys(e + tail) && Get(e + tail, k) == Get(e, k)
  {
    assert Keys(e + tail) == Keys(e) + Keys(tail);
    if e[0].0 != k {
      assert Keys(e) == [e[0].0] + Keys(e[1..]);
      assert (e + tail)[1..] == e[1..] + tail;
      GetAppend(e[1..], tail, k);
    }
  }

  /** Every entry after `$a[$k] = $v` is the new pair or was there before. */
  lemma {:induction false} AssignEntriesFrom<V>(e: Entries<V>, k: string, v: V)
    ensures forall x :: x in Assign(e, k, v) ==> x == (k, v) || x in e
  {
    if e != [] && e[0].0 != k {
      AssignEntriesFrom(e[1..], k, v);
      assert Assign(e, k, v) == [e[0]] + Assign(e[1..], k, v);
    }
  }

  /** What `Get` returns is the value of an entry of the array. */
  lemma {:induction false} GetIsEntry<V>(e: Entries<V>, k: string)
    requires k in Keys(e)
    ensures (k, Get(e, k)) in e
  {
    if e[0].0 != k {
      assert Keys(e) == [e[0].0] + Keys(e[1..]);
      GetIsEntry(e[1..], k);
    }
  }
}
