/** Results, errors and the sequence operations the record stores are built from. */
module Collections {

  datatype Option<T> = None | Some(value: T) {
    /** The value, or `default` when absent (the `x || default` idiom of the handlers). */
    function GetOr(default: T): T {
      match this
      case Some(v) => v
      case None => default
    }
  }

  /** The failures a handler reports to its caller. */
  datatype Error = InvalidInput | NotFound | DuplicateKey

  datatype Result<T> = Success(value: T) | Failure(error: Error)

  datatype Outcome = Pass | Fail(error: Error)

  /** Position of the first occurrence of `k` in `keys`, or -1 when there is none
      (`findIndex` with a key-equality test). */
  function IndexOf<K(==)>(keys: seq<K>, k: K): (i: int)
    ensures -1 <= i < |keys|
    ensures i == -1 <==> k !in keys
    ensures 0 <= i ==> keys[i] == k && k !in keys[..i]
  {
    if |keys| == 0 then -1
    else if keys[0] == k then 0
    else
      var j := IndexOf(keys[1..], k);
      assert 0 <= j ==> keys[..j + 1] == [keys[0]] + keys[1..][..j];
      if j == -1 then -1 else j + 1
  }

  /** `s` without its element at `i`, the others in their order (`splice(i, 1)`). */
  function RemoveAt<T>(s: seq<T>, i: int): (r: seq<T>)
    requires 0 <= i < |s|
    ensures |r| == |s| - 1
    ensures forall j :: 0 <= j < i ==> r[j] == s[j]
    ensures forall j :: i <= j < |r| ==> r[j] == s[j + 1]
    ensures multiset(r) + multiset{s[i]} == multiset(s)
  {
    assert s == s[..i] + [s[i]] + s[i + 1..];
    s[..i] + s[i + 1..]
  }

  /** Removing the element just appended gives back the sequence. */
  lemma RemoveLastAppended<T>(s: seq<T>, x: T)
    ensures RemoveAt(s + [x], |s|) == s
  {
    assert (s + [x])[..|s|] == s;
  }

  /** A key appended to a sequence that lacks it is found at the end. */
  lemma IndexOfAppended<K>(keys: seq<K>, k: K)
    requires k !in keys
    ensures IndexOf(keys + [k], k) == |keys|
  {
    assert (keys + [k])[..|keys|] == keys;
  }

  /** No key occurs twice. */
  ghost predicate Distinct<K>(keys: seq<K>) {
    forall i, j :: 0 <= i < j < |keys| ==> keys[i] != keys[j]
  }

  /** Removing an element keeps the keys distinct, and the removed key is gone. */
  lemma DistinctRemoveAt<K>(keys: seq<K>, i: int)
    requires 0 <= i < |keys| && Distinct(keys)
    ensures Distinct(RemoveAt(keys, i))
    ensures keys[i] !in RemoveAt(keys, i)
  {
    var r := RemoveAt(keys, i);
    forall j | 0 <= j < |r| ensures r[j] != keys[i] {
      if j < i { assert r[j] == keys[j]; } else { assert r[j] == keys[j + 1]; }
    }
    forall a, b | 0 <= a < b < |r| ensures r[a] != r[b] {
      var a' := if a < i then a else a + 1;
      var b' := if b < i then b else b + 1;
      assert r[a] == keys[a'] && r[b] == keys[b'] && a' < b';
    }
  }

  /** Appending a key that occurs nowhere keeps the keys distinct. */
  lemma DistinctAppend<K>(keys: seq<K>, k: K)
    requires Distinct(keys) && k !in keys
    ensures Distinct(keys + [k])
  {
    var r := keys + [k];
    forall i, j | 0 <= i < j < |r| ensures r[i] != r[j] {
      if j == |keys| { assert r[i] in keys; }
    }
  }

  /** Writing at slot `i` a key that is the one already there, or that occurs nowhere,
      keeps the keys distinct. */
  lemma DistinctUpdate<K>(keys: seq<K>, i: int, k: K)
    requires 0 <= i < |keys| && Distinct(keys)
    requires k == keys[i] || k !in keys
    ensures Distinct(keys[i := k])
  {
  }
}
