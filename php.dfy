/**
 * The PHP values that the table pipeline handles: request parameters, the
 * state kept in the session, and the arrays that descriptors serialise to.
 * A PHP array is an ordered map; here it is the list of its entries in
 * iteration order, and every array PHP itself builds has unique keys.
 */
module Php {

  datatype Option<+T> = None | Some(value: T)

  /** An array key. PHP stores decimal-integer strings as integer keys; keys here are already in that form. */
  datatype Key = IntKey(i: int) | StrKey(s: string)

  datatype Value =
    | Null
    | Bool(b: bool)
    | Int(i: int)
    | Str(s: string)
    | Arr(entries: seq<Entry>)

  datatype Entry = Entry(key: Key, val: Value)

  type PhpArray = seq<Entry>

  /** PHP's `empty()`: null, false, 0, "", "0" and the empty array. */
  predicate Empty(v: Value): (r: bool)
    ensures r <==> v in {Null, Bool(false), Int(0), Str(""), Str("0"), Arr([])}
  {
    match v
    case Null => true
    case Bool(b) => !b
    case Int(i) => i == 0
    case Str(s) => s == "" || s == "0"
    case Arr(entries) => entries == []
  }

  /** A nullable string field as PHP stores it. */
  function OptStr(o: Option<string>): Value
  {
    match o
    case None => Null
    case Some(s) => Str(s)
  }

  function OptInt(o: Option<int>): Value
  {
    match o
    case None => Null
    case Some(i) => Int(i)
  }

  function KeysOf(a: PhpArray): seq<Key>
  {
    seq(|a|, i requires 0 <= i < |a| => a[i].key)
  }

  /** `array_key_exists($k, $a)`: present even when the value is null. */
  predicate Has(a: PhpArray, k: Key)
  {
    k in KeysOf(a)
  }

  predicate Unique(a: PhpArray)
  {
    forall i, j :: 0 <= i < j < |a| ==> a[i].key != a[j].key
  }

  predicate StringKeyed(a: PhpArray)
  {
    forall i :: 0 <= i < |a| ==> a[i].key.StrKey?
  }

  /** `$a[$k]`, or None when the key is absent. */
  function Lookup(a: PhpArray, k: Key): (r: Option<Value>)
    ensures r.Some? <==> Has(a, k)
    ensures r.Some? ==> Entry(k, r.value) in a
  {
    if a == [] then None
    else
      assert KeysOf(a) == [a[0].key] + KeysOf(a[1..]);
      if a[0].key == k then Some(a[0].val) else Lookup(a[1..], k)
  }

  /** A one-entry array holds its key and nothing else. */
  lemma LookupSingle(k: Key, v: Value, k': Key)
    ensures Lookup([Entry(k, v)], k') == if k == k' then Some(v) else None
  {
    assert [Entry(k, v)][1..] == [];
  }

  /** `$a[$k] ?? $default`: the value under k unless it is absent or null. */
  function Coalesce(a: PhpArray, k: Key, default: Value): (r: Value)
    ensures !Has(a, k) || Lookup(a, k) == Some(Null) ==> r == default
    ensures Has(a, k) && Lookup(a, k) != Some(Null) ==> Entry(k, r) in a && r != Null
  {
    match Lookup(a, k)
    case Some(v) => if v == Null then default else v
    case None => default
  }

  /** `$a[$k] = $v`: overwrites the entry in place when k is present, appends it otherwise. */
  function Put(a: PhpArray, k: Key, v: Value): (r: PhpArray)
    ensures Has(a, k) ==> KeysOf(r) == KeysOf(a)
    ensures !Has(a, k) ==> r == a + [Entry(k, v)]
  {
    if a == [] then [Entry(k, v)]
    else
      assert KeysOf(a) == [a[0].key] + KeysOf(a[1..]);
      if a[0].key == k then
        var r := [Entry(k, v)] + a[1..];
        assert KeysOf(r) == [k] + KeysOf(a[1..]);
        r
      else
        var r := [a[0]] + Put(a[1..], k, v);
        assert KeysOf(r) == [a[0].key] + KeysOf(Put(a[1..], k, v));
        r
  }

  /** The integer keys of `a`, in order. */
  function IntKeys(a: PhpArray): seq<int>
  {
    if a == [] then []
    else (if a[0].key.IntKey? then [a[0].key.i] else []) + IntKeys(a[1..])
  }

  function Range(n: nat): seq<int>
  {
    seq(n, i => i)
  }

  /** The shape array_merge leaves behind: unique keys, integer keys 0, 1, ..., n-1 in order. */
  predicate Canonical(a: PhpArray)
  {
    Unique(a) && IntKeys(a) == Range(|IntKeys(a)|)
  }

  /** One entry of `array_merge`: a string key overwrites or appends, an integer key is renumbered to the next index and appended. */
  function MergeEntry(acc: PhpArray, e: Entry): PhpArray
  {
    match e.key
    case IntKey(_) => acc + [Entry(IntKey(|IntKeys(acc)|), e.val)]
    case StrKey(_) => Put(acc, e.key, e.val)
  }

  function MergeAll(acc: PhpArray, xs: PhpArray): PhpArray
    decreases |xs|
  {
    if xs == [] then acc else MergeAll(MergeEntry(acc, xs[0]), xs[1..])
  }

  /** `array_merge($a, $b)`: always unique keys, with the integer keys renumbered 0..n-1. */
  function ArrayMerge(a: PhpArray, b: PhpArray): (r: PhpArray)
    ensures Canonical(r)
  {
    assert IntKeys([]) == Range(0);
    MergeAllCanonical([], a);
    MergeAllCanonical(MergeAll([], a), b);
    MergeAll(MergeAll([], a), b)
  }

  // ---------------------------------------------------------------------
  // Lemmas about lookup and update
  // ---------------------------------------------------------------------

  lemma {:induction false} LookupUnique(a: PhpArray, i: nat)
    requires Unique(a) && i < |a|
    ensures Lookup(a, a[i].key) == Some(a[i].val)
  {
    if i > 0 {
      LookupUnique(a[1..], i - 1);
    }
  }

  lemma {:induction false} LookupAppend(a: PhpArray, b: PhpArray, k: Key)
    ensures Lookup(a + b, k) == if Has(a, k) then Lookup(a, k) else Lookup(b, k)
  {
    if a != [] {
      assert (a + b)[0] == a[0] && (a + b)[1..] == a[1..] + b;
      assert KeysOf(a) == [a[0].key] + KeysOf(a[1..]);
      if a[0].key != k {
        LookupAppend(a[1..], b, k);
        assert Lookup(a + b, k) == Lookup(a[1..] + b, k);
      }
    } else {
      assert a + b == b;
    }
  }

  /** After `$a[$k] = $v`, k reads back v and every other key reads what it read before. */
  lemma {:induction false} PutLookup(a: PhpArray, k: Key, v: Value, k': Key)
    ensures Lookup(Put(a, k, v), k') == if k' == k then Some(v) else Lookup(a, k')
  {
    if a != [] && a[0].key != k {
      PutLookup(a[1..], k, v, k');
    }
  }

  lemma {:induction false} PutSame(a: PhpArray, k: Key, v: Value)
    requires Lookup(a, k) == Some(v)
    ensures Put(a, k, v) == a
  {
    if a != [] && a[0].key != k {
      PutSame(a[1..], k, v);
    }
  }

  lemma {:induction false} PutUnique(a: PhpArray, k: Key, v: Value)
    requires Unique(a)
    ensures Unique(Put(a, k, v))
  {
    var r := Put(a, k, v);
    if Has(a, k) {
      forall i, j | 0 <= i < j < |r| ensures r[i].key != r[j].key {
        assert KeysOf(r)[i] == r[i].key && KeysOf(r)[j] == r[j].key;
        assert KeysOf(a)[i] == a[i].key && KeysOf(a)[j] == a[j].key;
      }
    } else {
      forall i | 0 <= i < |a| ensures a[i].key != k {
        assert KeysOf(a)[i] == a[i].key;
      }
    }
  }

  lemma {:induction false} PutKeepsIntKeys(a: PhpArray, s: string, v: Value)
    ensures IntKeys(Put(a, StrKey(s), v)) == IntKeys(a)
  {
    if a != [] && a[0].key != StrKey(s) {
      PutKeepsIntKeys(a[1..], s, v);
      assert Put(a, StrKey(s), v)[1..] == Put(a[1..], StrKey(s), v);
    }
  }

  lemma {:induction false} IntKeysAppend(a: PhpArray, b: PhpArray)
    ensures IntKeys(a + b) == IntKeys(a) + IntKeys(b)
  {
    if a != [] {
      assert (a + b)[0] == a[0] && (a + b)[1..] == a[1..] + b;
      IntKeysAppend(a[1..], b);
      var h := if a[0].key.IntKey? then [a[0].key.i] else [];
      assert IntKeys(a + b) == h + IntKeys(a[1..] + b);
      assert IntKeys(a) == h + IntKeys(a[1..]);
    } else {
      assert a + b == b;
    }
  }

  lemma {:induction false} IntKeyListed(a: PhpArray, i: nat)
    requires i < |a| && a[i].key.IntKey?
    ensures a[i].key.i in IntKeys(a)
  {
    if i > 0 {
      IntKeyListed(a[1..], i - 1);
    }
  }

  lemma StringKeyedCanonical(a: PhpArray)
    requires StringKeyed(a) && Unique(a)
    ensures Canonical(a)
  {
    StringKeyedNoIntKeys(a);
  }

  lemma {:induction false} StringKeyedNoIntKeys(a: PhpArray)
    requires StringKeyed(a)
    ensures IntKeys(a) == []
  {
    if a != [] {
      StringKeyedNoIntKeys(a[1..]);
    }
  }

  // ---------------------------------------------------------------------
  // Lemmas about array_merge
  // ---------------------------------------------------------------------

  lemma MergeEntryCanonical(acc: PhpArray, e: Entry)
    requires Canonical(acc)
    ensures Canonical(MergeEntry(acc, e))
  {
    match e.key
    case IntKey(_) =>
      var n := |IntKeys(acc)|;
      var r := acc + [Entry(IntKey(n), e.val)];
      IntKeysAppend(acc, [Entry(IntKey(n), e.val)]);
      assert IntKeys([Entry(IntKey(n), e.val)]) == [n];
      assert IntKeys(r) == Range(n + 1);
      forall j | 0 <= j < |acc| ensures acc[j].key != IntKey(n) {
        if acc[j].key.IntKey? {
          IntKeyListed(acc, j);
        }
      }
    case StrKey(s) =>
      PutUnique(acc, e.key, e.val);
      PutKeepsIntKeys(acc, s, e.val);
  }

  lemma {:induction false} MergeAllCanonical(acc: PhpArray, xs: PhpArray)
    requires Canonical(acc)
    ensures Canonical(MergeAll(acc, xs))
    decreases |xs|
  {
    if xs != [] {
      MergeEntryCanonical(acc, xs[0]);
      MergeAllCanonical(MergeEntry(acc, xs[0]), xs[1..]);
    }
  }

  /** One merge step: a string key takes the entry's value when the entry has that key, and keeps the old one otherwise. */
  lemma MergeEntryLookup(acc: PhpArray, e: Entry, s: string)
    ensures Lookup(MergeEntry(acc, e), StrKey(s)) == if e.key == StrKey(s) then Some(e.val) else Lookup(acc, StrKey(s))
  {
    if e.key.IntKey? {
      LookupAppend(acc, [Entry(IntKey(|IntKeys(acc)|), e.val)], StrKey(s));
    } else {
      PutLookup(acc, e.key, e.val, StrKey(s));
    }
  }

  /** The tail of an array with unique keys has unique keys and lacks the head's key. */
  lemma UniqueTail(xs: PhpArray)
    requires Unique(xs) && xs != []
    ensures Unique(xs[1..]) && !Has(xs[1..], xs[0].key)
  {
    forall j | 0 <= j < |xs| - 1 ensures KeysOf(xs[1..])[j] != xs[0].key {
      assert xs[j + 1].key != xs[0].key;
    }
  }

  /** Merging a string key's entries: the last array that has the key supplies its value. */
  lemma {:induction false} MergeAllLookup(acc: PhpArray, xs: PhpArray, s: string)
    requires Unique(xs)
    ensures Lookup(MergeAll(acc, xs), StrKey(s))
         == if Has(xs, StrKey(s)) then Lookup(xs, StrKey(s)) else Lookup(acc, StrKey(s))
    decreases |xs|
  {
    if xs != [] {
      MergeEntryLookup(acc, xs[0], s);
      UniqueTail(xs);
      MergeAllLookup(MergeEntry(acc, xs[0]), xs[1..], s);
      assert KeysOf(xs) == [xs[0].key] + KeysOf(xs[1..]);
    }
  }

  /** array_merge over string keys: a key of `b` takes b's value, any other key keeps a's. */
  lemma ArrayMergeLookup(a: PhpArray, b: PhpArray, s: string)
    requires Unique(a) && Unique(b)
    ensures Lookup(ArrayMerge(a, b), StrKey(s))
         == if Has(b, StrKey(s)) then Lookup(b, StrKey(s)) else Lookup(a, StrKey(s))
  {
    MergeAllLookup([], a, s);
    MergeAllLookup(MergeAll([], a), b, s);
  }

  lemma CanonicalIntStep(acc: PhpArray, x: Entry, rest: PhpArray)
    requires x.key.IntKey?
    requires Canonical(acc + ([x] + rest))
    ensures x.key.i == |IntKeys(acc)|
  {
    IntKeysAppend(acc, [x] + rest);
    IntKeysAppend([x], rest);
    assert IntKeys([x]) == [x.key.i];
    var ks := IntKeys(acc + ([x] + rest));
    var m := |IntKeys(acc)|;
    assert ks == IntKeys(acc) + ([x.key.i] + IntKeys(rest));
    assert ks[m] == x.key.i;
    assert Range(|ks|)[m] == m;
  }

  lemma CanonicalStrStep(acc: PhpArray, x: Entry, rest: PhpArray)
    requires x.key.StrKey?
    requires Unique(acc + ([x] + rest))
    ensures !Has(acc, x.key)
  {
    var all := acc + ([x] + rest);
    forall i | 0 <= i < |acc| ensures KeysOf(acc)[i] != x.key {
      assert all[i] == acc[i] && all[|acc|] == x;
    }
  }

  /** Merging entries that already sit in canonical position appends them unchanged. */
  lemma {:induction false} MergeAllAppends(acc: PhpArray, xs: PhpArray)
    requires Canonical(acc + xs)
    ensures MergeAll(acc, xs) == acc + xs
    decreases |xs|
  {
    if xs != [] {
      var x := xs[0];
      assert xs == [x] + xs[1..];
      if x.key.IntKey? {
        CanonicalIntStep(acc, x, xs[1..]);
      } else {
        CanonicalStrStep(acc, x, xs[1..]);
      }
      assert MergeEntry(acc, x) == acc + [x];
      assert (acc + [x]) + xs[1..] == acc + xs;
      MergeAllAppends(acc + [x], xs[1..]);
    }
  }

  /** Merging entries whose keys already hold those values changes nothing. */
  lemma {:induction false} MergeAllPresent(acc: PhpArray, xs: PhpArray)
    requires StringKeyed(xs)
    requires forall i :: 0 <= i < |xs| ==> Lookup(acc, xs[i].key) == Some(xs[i].val)
    ensures MergeAll(acc, xs) == acc
    decreases |xs|
  {
    if xs != [] {
      assert Lookup(acc, xs[0].key) == Some(xs[0].val);
      PutSame(acc, xs[0].key, xs[0].val);
      assert forall i :: 0 <= i < |xs| - 1 ==> xs[1..][i] == xs[i + 1];
      MergeAllPresent(acc, xs[1..]);
    }
  }

  /** array_merge of arrays with distinct string keys is their concatenation: a's entries, then b's. */
  lemma ArrayMergeDisjoint(a: PhpArray, b: PhpArray)
    requires StringKeyed(a) && StringKeyed(b) && Unique(a + b)
    ensures ArrayMerge(a, b) == a + b
  {
    assert forall i :: 0 <= i < |a + b| ==> (a + b)[i].key.StrKey? by {
      forall i | 0 <= i < |a + b| ensures (a + b)[i].key.StrKey? {
        if i < |a| { assert (a + b)[i] == a[i]; } else { assert (a + b)[i] == b[i - |a|]; }
      }
    }
    StringKeyedCanonical(a + b);
    assert Unique(a) by {
      forall i, j | 0 <= i < j < |a| ensures a[i].key != a[j].key {
        assert (a + b)[i] == a[i] && (a + b)[j] == a[j];
      }
    }
    StringKeyedCanonical(a);
    assert [] + a == a;
    MergeAllAppends([], a);
    MergeAllAppends(a, b);
  }

  /** Merging the same string-keyed array twice is the same as merging it once. */
  lemma ArrayMergeIdempotent(a: PhpArray, b: PhpArray)
    requires StringKeyed(b) && Unique(b)
    ensures ArrayMerge(ArrayMerge(a, b), b) == ArrayMerge(a, b)
  {
    var m := ArrayMerge(a, b);
    assert [] + m == m;
    MergeAllAppends([], m);
    forall i | 0 <= i < |b| ensures Lookup(m, b[i].key) == Some(b[i].val) {
      LookupUnique(b, i);
      MergeAllLookup(MergeAll([], a), b, b[i].key.s);
    }
    MergeAllPresent(m, b);
  }

  /** Merging never shrinks the accumulator, and an integer-keyed entry always adds one. */
  lemma {:induction false} MergeAllGrows(acc: PhpArray, xs: PhpArray)
    ensures |MergeAll(acc, xs)| >= |acc|
    ensures (exists i :: 0 <= i < |xs| && xs[i].key.IntKey?) ==> |MergeAll(acc, xs)| > |acc|
    decreases |xs|
  {
    if xs != [] {
      var next := MergeEntry(acc, xs[0]);
      if xs[0].key.StrKey? && Has(acc, xs[0].key) {
        assert |KeysOf(next)| == |KeysOf(acc)|;
      }
      MergeAllGrows(next, xs[1..]);
      if exists i :: 0 <= i < |xs| && xs[i].key.IntKey? {
        var i :| 0 <= i < |xs| && xs[i].key.IntKey?;
        if i > 0 {
          assert xs[1..][i - 1].key.IntKey?;
        }
      }
    }
  }

  /** An array with an integer key grows every time it is merged again: its integer keys are renumbered and appended. */
  lemma ArrayMergeRepeatsIntKeys(a: PhpArray, b: PhpArray)
    requires exists i :: 0 <= i < |b| && b[i].key.IntKey?
    ensures |ArrayMerge(ArrayMerge(a, b), b)| > |ArrayMerge(a, b)|
  {
    var m := ArrayMerge(a, b);
    assert [] + m == m;
    MergeAllAppends([], m);
    MergeAllGrows(m, b);
  }
}
