/**
 * Go's `url.Values` (a map from a key to a list of values) and its `Encode`
 * method, which writes `key=value` fields joined by `&`, keys in ascending
 * byte order and the values of one key in insertion order.
 *
 * The map is kept as a list of entries in strictly ascending key order, so
 * that `Encode` can walk it directly. Keys are compared character by
 * character; on text this agrees with Go's byte order, since UTF-8 preserves
 * the order of code points. Percent-escaping (`url.QueryEscape`) is a
 * parameter: the model only needs it to be a function.
 */
module UrlValues {

  /** Strict lexicographic order on keys. */
  predicate Less(a: string, b: string) {
    if a == [] then b != []
    else if b == [] then false
    else if a[0] != b[0] then a[0] < b[0]
    else Less(a[1..], b[1..])
  }

  lemma LessIrreflexive(a: string)
    ensures !Less(a, a)
  {
  }

  lemma {:induction false} LessTransitive(a: string, b: string, c: string)
    requires Less(a, b) && Less(b, c)
    ensures Less(a, c)
  {
    if a != [] && b != [] && c != [] && a[0] == b[0] == c[0] {
      LessTransitive(a[1..], b[1..], c[1..]);
    }
  }

  lemma {:induction false} LessTotal(a: string, b: string)
    requires a != b
    ensures Less(a, b) || Less(b, a)
  {
    if a != [] && b != [] && a[0] == b[0] {
      assert a == [a[0]] + a[1..] && b == [b[0]] + b[1..];
      LessTotal(a[1..], b[1..]);
    }
  }

  datatype Entry = Entry(key: string, values: seq<string>)

  predicate Sorted(e: seq<Entry>) {
    forall i, j :: 0 <= i < j < |e| ==> Less(e[i].key, e[j].key)
  }

  /** The contents of a `url.Values`: each key at most once, in ascending order. */
  type Entries = e: seq<Entry> | Sorted(e)

  function Keys(e: seq<Entry>): set<string> {
    set i | 0 <= i < |e| :: e[i].key
  }

  /** `v[key]`: the values stored under `key`, empty when the key is absent. */
  function Lookup(e: seq<Entry>, k: string): seq<string> {
    if e == [] then []
    else if e[0].key == k then e[0].values
    else Lookup(e[1..], k)
  }

  lemma {:induction false} LookupAbsent(e: seq<Entry>, k: string)
    requires k !in Keys(e)
    ensures Lookup(e, k) == []
  {
    if e != [] {
      assert e[0].key in Keys(e);
      assert Keys(e[1..]) <= Keys(e) by {
        forall x | x in Keys(e[1..]) ensures x in Keys(e) {
          var i :| 0 <= i < |e[1..]| && e[1..][i].key == x;
          assert e[i + 1].key == x;
        }
      }
      LookupAbsent(e[1..], k);
    }
  }

  lemma KeysCons(en: Entry, e: seq<Entry>)
    ensures Keys([en] + e) == {en.key} + Keys(e)
  {
    var c := [en] + e;
    forall x | x in Keys(c) ensures x in {en.key} + Keys(e) {
      var i :| 0 <= i < |c| && c[i].key == x;
      if i > 0 { assert e[i - 1].key == x; }
    }
    forall x | x in Keys(e) ensures x in Keys(c) {
      var i :| 0 <= i < |e| && e[i].key == x;
      assert c[i + 1].key == x;
    }
    assert c[0].key == en.key;
  }

  lemma LookupCons(en: Entry, e: seq<Entry>, k: string)
    ensures Lookup([en] + e, k) == if en.key == k then en.values else Lookup(e, k)
  {
    assert ([en] + e)[0] == en;
    assert ([en] + e)[1..] == e;
  }

  /** Every key of `e` comes after `k`. */
  predicate Below(k: string, e: seq<Entry>) {
    forall i :: 0 <= i < |e| ==> Less(k, e[i].key)
  }

  lemma BelowKeys(k: string, e: seq<Entry>)
    ensures Below(k, e) <==> forall x :: x in Keys(e) ==> Less(k, x)
  {
    if Below(k, e) {
      forall x | x in Keys(e) ensures Less(k, x) {
        var i :| 0 <= i < |e| && e[i].key == x;
      }
    }
    if forall x :: x in Keys(e) ==> Less(k, x) {
      forall i | 0 <= i < |e| ensures Less(k, e[i].key) {
        assert e[i].key in Keys(e);
      }
    }
  }

  lemma BelowAbsent(k: string, e: seq<Entry>)
    requires Below(k, e)
    ensures k !in Keys(e)
    ensures Lookup(e, k) == []
  {
    LessIrreflexive(k);
    BelowKeys(k, e);
    LookupAbsent(e, k);
  }

  lemma SortedTail(e: Entries)
    requires e != []
    ensures Sorted(e[1..])
    ensures Below(e[0].key, e[1..])
  {
  }

  lemma ConsSorted(en: Entry, e: Entries)
    requires Below(en.key, e)
    ensures Sorted([en] + e)
  {
    var c := [en] + e;
    forall i, j | 0 <= i < j < |c| ensures Less(c[i].key, c[j].key) {
      assert c[j] == e[j - 1];
      if i > 0 { assert c[i] == e[i - 1]; }
    }
  }

  lemma {:induction false} BelowFirst(k: string, e: Entries)
    requires e != [] && Less(k, e[0].key)
    ensures Below(k, e)
  {
    forall i | 0 <= i < |e| ensures Less(k, e[i].key) {
      if i > 0 { LessTransitive(k, e[0].key, e[i].key); }
    }
  }

  /**
   * Stores `vs` under `k`, replacing whatever was there and keeping the key
   * order; every other key keeps its values.
   */
  function Put(e: Entries, k: string, vs: seq<string>): (r: Entries)
    ensures Keys(r) == Keys(e) + {k}
    ensures Lookup(r, k) == vs
    ensures forall k' :: k' != k ==> Lookup(r, k') == Lookup(e, k')
  {
    var en := Entry(k, vs);
    if e == [] then
      assert Keys([en]) == {k} by { KeysCons(en, []); }
      [en]
    else if e[0].key == k then
      var tail: Entries := (SortedTail(e); e[1..]);
      ConsSorted(en, tail);
      BelowAbsent(k, tail);
      KeysCons(e[0], tail);
      KeysCons(en, tail);
      assert e == [e[0]] + tail;
      forall k' ensures Lookup([en] + tail, k') == if k' == k then vs else Lookup(e, k') {
        LookupCons(en, tail, k');
        LookupCons(e[0], tail, k');
      }
      [en] + tail
    else if Less(k, e[0].key) then
      BelowFirst(k, e);
      ConsSorted(en, e);
      BelowAbsent(k, e);
      KeysCons(en, e);
      forall k' ensures Lookup([en] + e, k') == if k' == k then vs else Lookup(e, k') {
        LookupCons(en, e, k');
      }
      [en] + e
    else
      LessTotal(k, e[0].key);
      var tail: Entries := (SortedTail(e); e[1..]);
      var rest := Put(tail, k, vs);
      BelowKeys(e[0].key, tail);
      BelowKeys(e[0].key, rest);
      ConsSorted(e[0], rest);
      KeysCons(e[0], tail);
      KeysCons(e[0], rest);
      assert e == [e[0]] + tail;
      forall k' ensures Lookup([e[0]] + rest, k') == if k' == k then vs else Lookup(e, k') {
        LookupCons(e[0], rest, k');
        LookupCons(e[0], tail, k');
      }
      [e[0]] + rest
  }

  /** `v.Add(k, x)`: appends `x` to the values stored under `k`. */
  function Add(e: Entries, k: string, x: string): (r: Entries)
    ensures Keys(r) == Keys(e) + {k}
    ensures Lookup(r, k) == Lookup(e, k) + [x]
    ensures forall k' :: k' != k ==> Lookup(r, k') == Lookup(e, k')
  {
    Put(e, k, Lookup(e, k) + [x])
  }

  /** The `(key, value)` pairs in the order `Encode` writes them. */
  function Pairs(e: seq<Entry>): seq<(string, string)> {
    if e == [] then [] else EntryPairs(e[0].key, e[0].values) + Pairs(e[1..])
  }

  function EntryPairs(k: string, vs: seq<string>): seq<(string, string)> {
    if vs == [] then [] else [(k, vs[0])] + EntryPairs(k, vs[1..])
  }

  /** The values of the pairs whose key is `k`, in order. */
  function ValuesOf(ps: seq<(string, string)>, k: string): seq<string> {
    if ps == [] then []
    else (if ps[0].0 == k then [ps[0].1] else []) + ValuesOf(ps[1..], k)
  }

  lemma {:induction false} ValuesOfAppend(a: seq<(string, string)>, b: seq<(string, string)>, k: string)
    ensures ValuesOf(a + b, k) == ValuesOf(a, k) + ValuesOf(b, k)
  {
    if a == [] {
      assert a + b == b;
    } else {
      assert (a + b)[0] == a[0];
      assert (a + b)[1..] == a[1..] + b;
      ValuesOfAppend(a[1..], b, k);
    }
  }

  lemma {:induction false} ValuesOfEntryPairs(key: string, vs: seq<string>, k: string)
    ensures ValuesOf(EntryPairs(key, vs), k) == if key == k then vs else []
  {
    if vs != [] {
      ValuesOfEntryPairs(key, vs[1..], k);
      assert [vs[0]] + vs[1..] == vs;
    }
  }

  /**
   * The encoded pairs carry, under each key, exactly the values the map
   * holds for it: no key is written twice.
   */
  lemma {:induction false} PairsValuesOf(e: Entries, k: string)
    ensures ValuesOf(Pairs(e), k) == Lookup(e, k)
  {
    if e != [] {
      var tail: Entries := (SortedTail(e); e[1..]);
      ValuesOfAppend(EntryPairs(e[0].key, e[0].values), Pairs(tail), k);
      ValuesOfEntryPairs(e[0].key, e[0].values, k);
      PairsValuesOf(tail, k);
      if e[0].key == k {
        BelowAbsent(k, tail);
      }
    }
  }

  /** One `key=value` field, both sides escaped. */
  function Field(p: (string, string), escape: string -> string): string {
    escape(p.0) + "=" + escape(p.1)
  }

  function Fields(ps: seq<(string, string)>, escape: string -> string): (fs: seq<string>)
    ensures |fs| == |ps|
    ensures forall i :: 0 <= i < |ps| ==> fs[i] == Field(ps[i], escape)
  {
    if ps == [] then [] else Fields(ps[..|ps| - 1], escape) + [Field(ps[|ps| - 1], escape)]
  }

  /** Fields separated by `&`; no fields give the empty string. */
  function Join(fs: seq<string>): string {
    if fs == [] then ""
    else if |fs| == 1 then fs[0]
    else fs[0] + "&" + Join(fs[1..])
  }

  /** The fields of a query string: the pieces between `&`s (`strings.Split(q, "&")`). */
  function Split(s: string): (fs: seq<string>)
    ensures |fs| >= 1
  {
    if s == [] then [""]
    else if s[0] == '&' then [""] + Split(s[1..])
    else
      var rest := Split(s[1..]);
      [[s[0]] + rest[0]] + rest[1..]
  }

  /**
   * `v.Encode()`. Go writes `&` before every field but the first by testing
   * whether anything has been written yet; a field is never empty (it holds
   * at least `=`), so that is `Join`.
   */
  function Encode(e: seq<Entry>, escape: string -> string): (q: string)
    ensures q == "" <==> Pairs(e) == []
  {
    var fs := Fields(Pairs(e), escape);
    assert fs != [] ==> '=' in fs[0];
    Join(fs)
  }

  lemma {:induction false} SplitNoSeparator(b: string)
    requires '&' !in b
    ensures Split(b) == [b]
  {
    if b != [] {
      SplitNoSeparator(b[1..]);
      assert [b[0]] + b[1..] == b;
    }
  }

  /** Appending `&` and a field without `&` adds exactly that field at the end. */
  lemma {:induction false} SplitAppend(a: string, b: string)
    requires '&' !in b
    ensures Split(a + "&" + b) == Split(a) + [b]
  {
    if a == [] {
      assert a + "&" + b == "&" + b;
      assert ("&" + b)[1..] == b;
      SplitNoSeparator(b);
    } else {
      assert (a + "&" + b)[1..] == a[1..] + "&" + b;
      SplitAppend(a[1..], b);
    }
  }

  /** Prefixing a field without `&`, and `&`, adds exactly that field at the front. */
  lemma {:induction false} SplitPrepend(a: string, b: string)
    requires '&' !in a
    ensures Split(a + "&" + b) == [a] + Split(b)
  {
    if a == [] {
      assert a + "&" + b == "&" + b;
      assert ("&" + b)[1..] == b;
    } else {
      assert (a + "&" + b)[1..] == a[1..] + "&" + b;
      SplitPrepend(a[1..], b);
      assert [a[0]] + a[1..] == a;
    }
  }

  /** Splitting a joined list of `&`-free fields gives the fields back. */
  lemma {:induction false} SplitJoin(fs: seq<string>)
    requires fs != []
    requires forall i :: 0 <= i < |fs| ==> '&' !in fs[i]
    ensures Split(Join(fs)) == fs
  {
    if |fs| == 1 {
      SplitNoSeparator(fs[0]);
    } else {
      SplitJoin(fs[1..]);
      SplitPrepend(fs[0], Join(fs[1..]));
      assert [fs[0]] + fs[1..] == fs;
    }
  }

  /** Joining the fields of any string gives the string back. */
  lemma {:induction false} JoinSplit(s: string)
    ensures Join(Split(s)) == s
  {
    if s != [] {
      JoinSplit(s[1..]);
      if s[0] == '&' {
        assert Split(s)[1..] == Split(s[1..]);
      } else {
        var rest := Split(s[1..]);
        if |rest| > 1 {
          assert Split(s)[1..] == rest[1..];
          assert Join(rest) == rest[0] + "&" + Join(rest[1..]);
        }
        assert [s[0]] + s[1..] == s;
      }
    }
  }

  /**
   * When the escape function never produces `&` (`url.QueryEscape` writes it
   * as `%26`), the encoding splits back into one field per pair.
   */
  lemma EncodeSplits(e: Entries, escape: string -> string)
    requires Pairs(e) != []
    requires forall s :: '&' !in escape(s)
    ensures Split(Encode(e, escape)) == Fields(Pairs(e), escape)
  {
    var fs := Fields(Pairs(e), escape);
    forall i | 0 <= i < |fs| ensures '&' !in fs[i] {
      var p := Pairs(e)[i];
      assert '&' !in escape(p.0) && '&' !in escape(p.1);
      assert fs[i] == escape(p.0) + "=" + escape(p.1);
    }
    SplitJoin(fs);
  }

  /**
   * The mutable map: `url.Values` is a reference type, and `Set` changes it
   * for every holder.
   */
  class Values {
    var entries: Entries

    constructor (e: Entries)
      ensures entries == e
    {
      entries := e;
    }

    /** `v.Set(k, x)`: afterwards `k` holds the single value `x`. */
    method Set(k: string, x: string)
      modifies this
      ensures entries == Put(old(entries), k, [x])
      ensures Lookup(entries, k) == [x]
      ensures forall k' :: k' != k ==> Lookup(entries, k') == Lookup(old(entries), k')
    {
      entries := Put(entries, k, [x]);
    }
  }
}
