/**
 The `$props` field of a component is a PHP array with string keys: an
 ordered map in which assigning to an existing key replaces its value in
 place and assigning to a new key appends it, `unset` deletes a key, and
 `array_merge` / `array_change_key_case` are left-to-right assignments.
 Here it is the sequence of its keys in insertion order plus the value
 under each key. The operations are plain functions; what PHP promises
 about each is stated by the lemma that follows it.
 */
module PhpArray {
  import opened Text

  datatype Option<T> = None | Some(value: T)

  /** One `key => value` slot of an array a caller passes in. */
  datatype Entry = Entry(key: string, value: string)

  /** The keys of an array in insertion order, and the value under each. */
  datatype Props = Props(keys: seq<string>, values: map<string, string>)

  /** No key occurs twice. */
  ghost predicate Distinct(ks: seq<string>) {
    forall k :: multiset(ks)[k] <= 1
  }

  /** The shape of every PHP array: each key once, with a value for exactly the listed keys. */
  ghost predicate WellFormed(p: Props) {
    && Distinct(p.keys)
    && (forall k :: k in p.values ==> k in p.keys)
    && (forall k :: k in p.keys ==> k in p.values)
  }

  const Empty: Props := Props([], map[])

  /** `$p[$k]`, `None` when the key is absent. */
  function Get(p: Props, k: string): Option<string> {
    if k in p.values then Some(p.values[k]) else None
  }

  /** `$p[$k]` in a string context: a missing key reads as null, which prints as "". */
  function ValueAt(p: Props, k: string): string {
    match Get(p, k)
    case Some(v) => v
    case None => ""
  }

  /** `$p[$k] = $v`. */
  function Put(p: Props, k: string, v: string): Props {
    Props(if k in p.keys then p.keys else p.keys + [k], p.values[k := v])
  }

  /**
   Assignment keeps an array well formed: an existing key keeps its
   position and gets the new value, a new key is appended at the end, and
   every other key keeps its value.
   */
  lemma PutSpec(p: Props, k: string, v: string)
    requires WellFormed(p)
    ensures WellFormed(Put(p, k, v))
    ensures Put(p, k, v).keys == if k in p.keys then p.keys else p.keys + [k]
    ensures p.keys <= Put(p, k, v).keys
    ensures Get(Put(p, k, v), k) == Some(v)
    ensures forall k' :: k' != k ==> Get(Put(p, k, v), k') == Get(p, k')
  {
    if k !in p.keys {
      forall x ensures multiset(p.keys + [k])[x] <= 1 {
        assert multiset(p.keys + [k])[x] == multiset(p.keys)[x] + multiset([k])[x];
      }
    }
  }

  /** Two assignments to absent, different keys append both, in order. */
  lemma PutTwoNew(p: Props, a: string, u: string, b: string, v: string)
    requires a !in p.keys && b !in p.keys && a != b
    ensures Put(Put(p, a, u), b, v).keys == p.keys + [a, b]
  {
    assert p.keys + [a] + [b] == p.keys + [a, b];
  }

  /** Three assignments to absent, different keys append all three, in order. */
  lemma PutThreeNew(p: Props, a: string, u: string, b: string, v: string, c: string, w: string)
    requires a !in p.keys && b !in p.keys && c !in p.keys && a != b && a != c && b != c
    ensures Put(Put(Put(p, a, u), b, v), c, w).keys == p.keys + [a, b, c]
  {
    PutTwoNew(p, a, u, b, v);
    assert c !in p.keys + [a, b];
    assert p.keys + [a, b] + [c] == p.keys + [a, b, c];
  }

  function IndexOf(ks: seq<string>, k: string): (i: nat)
    requires k in ks
    ensures i < |ks| && ks[i] == k
  {
    if ks[0] == k then 0 else 1 + IndexOf(ks[1..], k)
  }

  /** `unset ($p[$k])`. */
  function Remove(p: Props, k: string): Props {
    if k in p.keys then
      var i := IndexOf(p.keys, k);
      Props(p.keys[..i] + p.keys[i + 1..], p.values - {k})
    else p
  }

  /**
   `unset` on a well-formed array: the slot of `k` goes, if there is one,
   the keys before and after it close up in their order, and every other
   key keeps its value; an absent key is a no-op.
   */
  lemma RemoveSpec(p: Props, k: string)
    requires WellFormed(p)
    ensures WellFormed(Remove(p, k))
    ensures k !in Remove(p, k).keys && Get(Remove(p, k), k) == None
    ensures k !in p.keys ==> Remove(p, k) == p
    ensures forall i :: 0 <= i < |p.keys| && p.keys[i] == k ==> Remove(p, k).keys == p.keys[..i] + p.keys[i + 1..]
    ensures forall k' :: k' != k ==> Get(Remove(p, k), k') == Get(p, k')
  {
    if k in p.keys {
      var i := IndexOf(p.keys, k);
      CloseUp(p.keys, i);
    }
  }

  /** `unset` leaves the other keys in their order: it filters `k` out of the key sequence. */
  lemma RemoveIsDrop(p: Props, k: string)
    requires WellFormed(p)
    ensures Remove(p, k).keys == Drop(p.keys, k)
  {
    if k in p.keys {
      DropAt(p.keys, IndexOf(p.keys, k));
    } else {
      DropAbsent(p.keys, k);
    }
  }

  /** The keys of `ks` other than `k`, in their order. */
  function Drop(ks: seq<string>, k: string): seq<string> {
    if ks == [] then []
    else (if ks[0] == k then [] else [ks[0]]) + Drop(ks[1..], k)
  }

  /** Dropping an absent key changes nothing. */
  lemma {:induction false} DropAbsent(ks: seq<string>, k: string)
    requires k !in ks
    ensures Drop(ks, k) == ks
  {
    if ks != [] {
      DropAbsent(ks[1..], k);
      assert ks == [ks[0]] + ks[1..];
    }
  }

  /** Dropping a key that occurs once, between `a` and `b`, leaves `a + b`. */
  lemma {:induction false} DropMiddle(a: seq<string>, k: string, b: seq<string>)
    requires k !in a && k !in b
    ensures Drop(a + [k] + b, k) == a + b
  {
    var s := a + [k] + b;
    if a == [] {
      assert s[1..] == b;
      DropAbsent(b, k);
    } else {
      assert s[0] == a[0] && s[1..] == a[1..] + [k] + b;
      DropMiddle(a[1..], k, b);
      assert a + b == [a[0]] + (a[1..] + b);
    }
  }

  /** In a key sequence without repeats, dropping the key at `i` is closing up slot `i`. */
  lemma DropAt(ks: seq<string>, i: nat)
    requires Distinct(ks) && i < |ks|
    ensures Drop(ks, ks[i]) == ks[..i] + ks[i + 1..]
  {
    var a, k, b := ks[..i], ks[i], ks[i + 1..];
    assert ks == a + [k] + b;
    assert multiset(ks)[k] == multiset(a)[k] + 1 + multiset(b)[k];
    DropMiddle(a, k, b);
  }

  /** Dropping slot `i` of a key sequence keeps the others, distinct and in order. */
  lemma CloseUp(ks: seq<string>, i: nat)
    requires Distinct(ks) && i < |ks|
    ensures Distinct(ks[..i] + ks[i + 1..])
    ensures forall x :: x in ks[..i] + ks[i + 1..] <==> x in ks && x != ks[i]
  {
    var r := ks[..i] + ks[i + 1..];
    assert ks == ks[..i] + [ks[i]] + ks[i + 1..];
    assert multiset(ks) == multiset(r) + multiset{ks[i]};
    forall x ensures multiset(r)[x] <= 1 {
      assert multiset(ks)[x] == multiset(r)[x] + multiset{ks[i]}[x];
    }
    forall x ensures x in r <==> x in ks && x != ks[i] {
      assert x in r <==> multiset(r)[x] > 0;
      assert x in ks <==> multiset(ks)[x] > 0;
    }
  }

  /** The value the last slot of `es` with key `k` carries, if any. */
  function LastAssigned(es: seq<Entry>, k: string): Option<string> {
    if es == [] then None
    else if es[|es| - 1].key == k then Some(es[|es| - 1].value)
    else LastAssigned(es[..|es| - 1], k)
  }

  /**
   Assigns the slots of `es` to `p` one after the other: the effect of
   `array_merge ($p, $es)` on string keys, and of a loop of assignments.
   */
  function PutAll(p: Props, es: seq<Entry>): Props {
    if es == [] then p
    else
      var e := es[|es| - 1];
      Put(PutAll(p, es[..|es| - 1]), e.key, e.value)
  }

  /**
   Keys already in `p` keep their positions; a key's value is the last one
   `es` assigns it, or its old value when `es` does not mention it.
   */
  lemma {:induction false} PutAllSpec(p: Props, es: seq<Entry>)
    requires WellFormed(p)
    ensures WellFormed(PutAll(p, es))
    ensures p.keys <= PutAll(p, es).keys
    ensures forall k :: Get(PutAll(p, es), k) == if LastAssigned(es, k).Some? then LastAssigned(es, k) else Get(p, k)
  {
    if es != [] {
      var init, e := es[..|es| - 1], es[|es| - 1];
      PutAllSpec(p, init);
      PutSpec(PutAll(p, init), e.key, e.value);
    }
  }

  lemma PutAllSingle(p: Props, a: Entry)
    ensures PutAll(p, [a]) == Put(p, a.key, a.value)
  {
    assert [a][..0] == [];
  }

  /** Merging a two-slot array is two assignments. */
  lemma PutAllPair(p: Props, a: Entry, b: Entry)
    ensures PutAll(p, [a, b]) == Put(Put(p, a.key, a.value), b.key, b.value)
  {
    PutAllSingle(p, a);
    assert [a, b][..1] == [a];
  }

  /** Merging a three-slot array is three assignments. */
  lemma PutAllTriple(p: Props, a: Entry, b: Entry, c: Entry)
    ensures PutAll(p, [a, b, c]) == Put(Put(Put(p, a.key, a.value), b.key, b.value), c.key, c.value)
  {
    PutAllPair(p, a, b);
    assert [a, b, c][..2] == [a, b];
  }

  /** Assigning `a` and then `b` is assigning `a + b`. */
  lemma {:induction false} PutAllConcat(p: Props, a: seq<Entry>, b: seq<Entry>)
    ensures PutAll(p, a + b) == PutAll(PutAll(p, a), b)
  {
    if b == [] {
      assert a + b == a;
    } else {
      var b' := b[..|b| - 1];
      assert (a + b)[..|a + b| - 1] == a + b';
      assert (a + b)[|a + b| - 1] == b[|b| - 1];
      PutAllConcat(p, a, b');
    }
  }

  /** The slots of `p` under the keys `ks`, in that order. */
  function EntriesOf(p: Props, ks: seq<string>): (es: seq<Entry>)
    ensures |es| == |ks|
  {
    if ks == [] then [] else EntriesOf(p, ks[..|ks| - 1]) + [Entry(ks[|ks| - 1], ValueAt(p, ks[|ks| - 1]))]
  }

  /** The keys of `es`, in order. */
  function KeysOf(es: seq<Entry>): (ks: seq<string>)
    ensures |ks| == |es| && forall i :: 0 <= i < |es| ==> ks[i] == es[i].key
  {
    if es == [] then [] else KeysOf(es[..|es| - 1]) + [es[|es| - 1].key]
  }

  /** The keys of `ks` that are not in `present`, each once, in the order of their first occurrence. */
  function NewKeys(present: seq<string>, ks: seq<string>): seq<string> {
    if ks == [] then []
    else
      var init, k := ks[..|ks| - 1], ks[|ks| - 1];
      if k in present || k in init then NewKeys(present, init) else NewKeys(present, init) + [k]
  }

  /** A list whose every key is already present brings no new key. */
  lemma {:induction false} NewKeysPresent(present: seq<string>, ks: seq<string>)
    requires forall k :: k in ks ==> k in present
    ensures NewKeys(present, ks) == []
  {
    if ks != [] {
      NewKeysPresent(present, ks[..|ks| - 1]);
    }
  }

  /**
   Assigning the slots of `es` keeps the keys of `p` in place and appends
   the keys of `es` that `p` lacks, in the order in which they first occur
   in `es`; later slots with the same key only change its value.
   */
  lemma {:induction false} PutAllKeys(p: Props, es: seq<Entry>)
    ensures PutAll(p, es).keys == p.keys + NewKeys(p.keys, KeysOf(es))
    ensures forall k :: k in PutAll(p, es).keys <==> k in p.keys || k in KeysOf(es)
  {
    if es == [] {
      assert p.keys + [] == p.keys;
    } else {
      var init, e := es[..|es| - 1], es[|es| - 1];
      var ks := KeysOf(es);
      PutAllKeys(p, init);
      assert ks[..|ks| - 1] == KeysOf(init);
      assert ks == KeysOf(init) + [e.key];
      var f := NewKeys(p.keys, KeysOf(init));
      assert p.keys + f + [e.key] == p.keys + (f + [e.key]);
    }
  }

  /** Listing the slots of `p` under `ks` lists exactly the keys `ks`. */
  lemma {:induction false} KeysOfEntries(p: Props, ks: seq<string>)
    ensures KeysOf(EntriesOf(p, ks)) == ks
  {
    if ks != [] {
      var es := EntriesOf(p, ks);
      assert es[..|es| - 1] == EntriesOf(p, ks[..|ks| - 1]);
      KeysOfEntries(p, ks[..|ks| - 1]);
    }
  }

  /** The last slot of `EntriesOf(p, ks)` with key `k` carries the value of `k` in `p`. */
  lemma {:induction false} LastAssignedEntries(p: Props, ks: seq<string>, k: string)
    ensures LastAssigned(EntriesOf(p, ks), k) == if k in ks then Some(ValueAt(p, k)) else None
  {
    if ks != [] {
      var es := EntriesOf(p, ks);
      assert es[..|es| - 1] == EntriesOf(p, ks[..|ks| - 1]);
      LastAssignedEntries(p, ks[..|ks| - 1], k);
      assert k in ks <==> k in ks[..|ks| - 1] || k == ks[|ks| - 1] by {
        assert ks == ks[..|ks| - 1] + [ks[|ks| - 1]];
      }
    }
  }

  /** `array_merge ($a, $b)` for string keys. */
  function Merge(a: Props, b: Props): Props {
    PutAll(a, EntriesOf(b, b.keys))
  }

  /**
   The keys of `a` keep their positions and the keys only `b` has follow,
   in `b`'s order; where both have a key, `b`'s value wins.
   */
  lemma MergeSpec(a: Props, b: Props)
    requires WellFormed(a) && WellFormed(b)
    ensures WellFormed(Merge(a, b))
    ensures Merge(a, b).keys == a.keys + NewKeys(a.keys, b.keys)
    ensures forall k :: Get(Merge(a, b), k) == if k in b.keys then Get(b, k) else Get(a, k)
  {
    PutAllSpec(a, EntriesOf(b, b.keys));
    PutAllKeys(a, EntriesOf(b, b.keys));
    KeysOfEntries(b, b.keys);
    forall k ensures LastAssigned(EntriesOf(b, b.keys), k) == if k in b.keys then Get(b, k) else None {
      LastAssignedEntries(b, b.keys, k);
    }
  }

  /** Merging in a two-key array is assigning its two keys in order. */
  lemma MergePair(a: Props, k1: string, v1: string, k2: string, v2: string)
    requires k1 != k2
    ensures Merge(a, Put(Put(Empty, k1, v1), k2, v2)) == Put(Put(a, k1, v1), k2, v2)
  {
    var b1 := Put(Empty, k1, v1);
    var b := Put(b1, k2, v2);
    assert b1.keys == [k1];
    assert b.keys == [k1, k2] by {
      assert k2 !in b1.keys;
    }
    assert ValueAt(b, k1) == v1 && ValueAt(b, k2) == v2;
    EntriesOfPair(b, k1, k2);
    PutAllPair(a, Entry(k1, v1), Entry(k2, v2));
  }

  lemma EntriesOfPair(p: Props, k1: string, k2: string)
    ensures EntriesOf(p, [k1, k2]) == [Entry(k1, ValueAt(p, k1)), Entry(k2, ValueAt(p, k2))]
  {
    assert [k1, k2][..1] == [k1];
    assert [k1][..0] == [];
  }

  /** The slots of `es` with every key passed through `strtoupper`. */
  function UpperKeys(es: seq<Entry>): (r: seq<Entry>)
    ensures |r| == |es|
    ensures forall i :: 0 <= i < |es| ==> r[i] == Entry(Upper(es[i].key), es[i].value)
  {
    if es == [] then [] else [Entry(Upper(es[0].key), es[0].value)] + UpperKeys(es[1..])
  }

  /** `array_change_key_case ($es, CASE_UPPER)`. */
  function ChangeKeyCaseUpper(es: seq<Entry>): Props {
    PutAll(Empty, UpperKeys(es))
  }

  /**
   Each key ends up upper-cased, holding the value of the last slot whose
   key upper-cases to it, at the position where it first occurs: two keys
   that differ only in case become one.
   */
  lemma ChangeKeyCaseSpec(es: seq<Entry>)
    ensures WellFormed(ChangeKeyCaseUpper(es))
    ensures forall k :: Get(ChangeKeyCaseUpper(es), k) == LastAssigned(UpperKeys(es), k)
    ensures ChangeKeyCaseUpper(es).keys == NewKeys([], KeysOf(UpperKeys(es)))
  {
    PutAllSpec(Empty, UpperKeys(es));
    PutAllKeys(Empty, UpperKeys(es));
  }
}
