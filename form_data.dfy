/** Ordered form state and multipart bodies. A JavaScript object keeps its keys in
    insertion order, and `{...prev, [name]: value}` overwrites an existing key in
    place or adds a new one at the end; a FormData body is the sequence of its
    appended parts. */
module FormData {
  import opened Common

  /** A picked file: its name, MIME type and size in bytes. */
  datatype File = File(name: string, mimeType: string, size: nat)

  /** A value held by form state or appended to a FormData body. */
  datatype Value = Text(text: string) | Number(n: int) | FileValue(file: File) | Null | Undefined

  /** `value || ""`-style truthiness. */
  predicate Truthy(v: Value) {
    match v
    case Text(t) => t != ""
    case Number(n) => n != 0
    case FileValue(_) => true
    case Null => false
    case Undefined => false
  }

  type Entries = seq<(string, Value)>

  /** The keys of the entries, in order. */
  function Keys(es: Entries): (ks: seq<string>)
    ensures |ks| == |es| && forall i :: 0 <= i < |es| ==> ks[i] == es[i].0
  {
    if es == [] then [] else [es[0].0] + Keys(es[1..])
  }

  /** The value under key k, Undefined when the key is absent (first match wins). */
  function Get(es: Entries, k: string): Value {
    if es == [] then Undefined else if es[0].0 == k then es[0].1 else Get(es[1..], k)
  }

  /** `{...es, [k]: v}`: overwrite the first entry with key k, or append one. */
  function Set(es: Entries, k: string, v: Value): Entries {
    if es == [] then [(k, v)]
    else if es[0].0 == k then [(k, v)] + es[1..]
    else [es[0]] + Set(es[1..], k, v)
  }

  /** After a Set, the key reads back the new value and every other key reads
      back what it held before. */
  lemma {:induction false} SetGet(es: Entries, k: string, v: Value, j: string)
    ensures Get(Set(es, k, v), j) == if j == k then v else Get(es, j)
  {
    if es != [] && es[0].0 != k {
      SetGet(es[1..], k, v, j);
    }
  }

  /** Set keeps the key order: an existing key stays in place, a new key goes last. */
  lemma {:induction false} SetKeys(es: Entries, k: string, v: Value)
    ensures Keys(Set(es, k, v)) == if k in Keys(es) then Keys(es) else Keys(es) + [k]
  {
    if es != [] && es[0].0 != k {
      SetKeys(es[1..], k, v);
      assert Keys(es) == [es[0].0] + Keys(es[1..]);
    }
  }

  /** The keys of a concatenation are the keys of its parts, in order. */
  lemma {:induction false} KeysAppend(a: Entries, b: Entries)
    ensures Keys(a + b) == Keys(a) + Keys(b)
  {
    if a != [] {
      assert (a + b)[1..] == a[1..] + b;
      KeysAppend(a[1..], b);
    } else {
      assert a + b == b;
    }
  }

  /** Lookup in a concatenation finds the first part's entry before the second's. */
  lemma {:induction false} GetAppend(a: Entries, b: Entries, k: string)
    ensures Get(a + b, k) == if k in Keys(a) then Get(a, k) else Get(b, k)
  {
    if a != [] {
      assert (a + b)[1..] == a[1..] + b;
      assert Keys(a) == [a[0].0] + Keys(a[1..]);
      GetAppend(a[1..], b, k);
    } else {
      assert a + b == b;
    }
  }

  /** A key the entries do not hold reads back Undefined. */
  lemma {:induction false} GetAbsent(es: Entries, k: string)
    requires k !in Keys(es)
    ensures Get(es, k) == Undefined
  {
    if es != [] {
      assert Keys(es) == [es[0].0] + Keys(es[1..]);
      GetAbsent(es[1..], k);
    }
  }
}
