/** JavaScript values as the backend handles them.  A plain object literal is
    an ordered list of key/value pairs: keys keep the order in which they were
    first inserted, which is also the order `JSON.stringify` writes them in. */
module Objects {

  datatype Option<+T> = None | Some(value: T)

  /** The values that occur in provider requests and in rendered snippets.
      JavaScript numbers are carried as exact reals: the code only passes them
      through and never computes with them. */
  datatype Value =
    | Str(s: string)
    | Bool(b: bool)
    | Num(n: real)
    | StrList(items: seq<string>)

  /** JavaScript truthiness of a property read (`undefined` is None). */
  predicate Truthy(v: Option<Value>)
  {
    match v
    case None => false
    case Some(Str(s)) => s != ""
    case Some(Bool(b)) => b
    case Some(Num(n)) => n != 0.0
    case Some(StrList(_)) => true
  }

  datatype Entry<K> = Entry(key: K, value: Value)

  /** An object literal: its entries in insertion order. */
  type Object<K> = seq<Entry<K>>

  function Keys<K>(o: Object<K>): (ks: seq<K>)
    ensures |ks| == |o|
    ensures forall i :: 0 <= i < |o| ==> ks[i] == o[i].key
  {
    if o == [] then [] else [o[0].key] + Keys(o[1..])
  }

  predicate HasKey<K(==)>(o: Object<K>, k: K)
  {
    Get(o, k).Some?
  }

  /** No key occurs twice, as in every JavaScript object. */
  predicate DistinctKeys<K(==)>(o: Object<K>)
  {
    forall i, j :: 0 <= i < j < |o| ==> o[i].key != o[j].key
  }

  /** Property read `o[k]`; None stands for `undefined`. */
  function Get<K(==)>(o: Object<K>, k: K): Option<Value>
  {
    if o == [] then None
    else if o[0].key == k then Some(o[0].value)
    else Get(o[1..], k)
  }

  /** Property assignment `o[k] = v`: an existing key keeps its place and takes
      the new value; a new key is added at the end. */
  function Put<K(==,!new)>(o: Object<K>, k: K, v: Value): (r: Object<K>)
    ensures HasKey(o, k) ==> Keys(r) == Keys(o)
    ensures !HasKey(o, k) ==> Keys(r) == Keys(o) + [k]
    ensures Get(r, k) == Some(v)
    ensures forall k' :: k' != k ==> Get(r, k') == Get(o, k')
  {
    if o == [] then [Entry(k, v)]
    else if o[0].key == k then [Entry(k, v)] + o[1..]
    else [o[0]] + Put(o[1..], k, v)
  }

  lemma GetOfTwo<K>(e1: Entry<K>, e2: Entry<K>, k: K)
    ensures Get([e1, e2], k)
         == if e1.key == k then Some(e1.value) else if e2.key == k then Some(e2.value) else None
  {
    assert [e1, e2][1..] == [e2];
    assert [e2][1..] == [];
    assert Get([e2], k) == if e2.key == k then Some(e2.value) else Get([], k);
  }

  lemma GetOfThree<K>(e1: Entry<K>, e2: Entry<K>, e3: Entry<K>, k: K)
    ensures Get([e1, e2, e3], k)
         == if e1.key == k then Some(e1.value)
            else if e2.key == k then Some(e2.value)
            else if e3.key == k then Some(e3.value)
            else None
  {
    assert [e1, e2, e3][1..] == [e2, e3];
    GetOfTwo(e2, e3, k);
  }

  lemma {:induction false} KeysConcat<K>(a: Object<K>, b: Object<K>)
    ensures Keys(a + b) == Keys(a) + Keys(b)
  {
  }

  /** `a` if it holds a value, else `b`. */
  function OrElse<T>(a: Option<T>, b: Option<T>): Option<T>
  {
    if a.Some? then a else b
  }

  /** Reading a property of the concatenation `a + b`: the key is looked up
      in `a` first, then in `b`. This is the property read of `{...a, ...b}`
      only when no key occurs in both parts; for a shared key JavaScript takes
      `b`'s value. The parameter object of `/upload` has no shared key
      (`UploadParams.DeriveKeyOrder`). */
  lemma {:induction false} GetConcat<K>(a: Object<K>, b: Object<K>, k: K)
    ensures HasKey(a + b, k) <==> HasKey(a, k) || HasKey(b, k)
    ensures Get(a + b, k) == OrElse(Get(a, k), Get(b, k))
  {
    KeysConcat(a, b);
    if a == [] {
      assert a + b == b;
    } else {
      var ab := a + b;
      assert ab[0] == a[0];
      assert ab[1..] == a[1..] + b;
      if a[0].key != k {
        GetConcat(a[1..], b, k);
        assert Keys(a) == [a[0].key] + Keys(a[1..]);
      }
    }
  }
}
