/**
 * Parsed JSON documents, as Python's `json.load` hands them to the plugin,
 * and the handful of Python dict/truthiness operations the core applies to them.
 *
 * A dict is the sequence of its key/value pairs in insertion order, because the
 * core iterates dicts (`.items()`) and that order is observable. A document that
 * `json.load` produced has distinct keys; lookups take the first entry for a key,
 * which is then the only one.
 */
module JsonData {
  import opened Wrappers

  datatype Json =
    | Null              // JSON null, which is also Python's None
    | Bool(b: bool)
    | Num(n: real)      // int and float alike; the core only copies and compares them
    | Str(s: string)
    | Arr(elems: seq<Json>)
    | Obj(fields: Fields)

  type Fields = seq<(string, Json)>

  /** `k in d` */
  predicate Has(o: Fields, k: string) {
    exists i :: 0 <= i < |o| && o[i].0 == k
  }

  /** `d[k]`, or None when `k` is not a key: the value of the first entry for `k`. */
  function Lookup(o: Fields, k: string): (r: Option<Json>)
    ensures r.None? <==> !Has(o, k)
    ensures r.Some? ==> exists i :: 0 <= i < |o| && o[i] == (k, r.value) && forall j :: 0 <= j < i ==> o[j].0 != k
  {
    if o == [] then None
    else if o[0].0 == k then Some(o[0].1)
    else
      var r := Lookup(o[1..], k);
      assert r.Some? ==> exists i :: 0 <= i < |o| && o[i] == (k, r.value) && forall j :: 0 <= j < i ==> o[j].0 != k by {
        if r.Some? {
          var i :| 0 <= i < |o[1..]| && o[1..][i] == (k, r.value) && forall j :: 0 <= j < i ==> o[1..][j].0 != k;
          assert o[i + 1] == (k, r.value);
        }
      }
      assert r.None? ==> !Has(o, k) by {
        if r.None? {
          forall i | 0 <= i < |o| ensures o[i].0 != k {
            if i > 0 { assert o[i] == o[1..][i - 1]; }
          }
        }
      }
      r
  }

  /** The entry found for `k` is the first entry with that key. */
  lemma {:induction false} LookupAt(o: Fields, i: nat, k: string)
    requires i < |o| && o[i].0 == k
    requires forall j :: 0 <= j < i ==> o[j].0 != k
    ensures Lookup(o, k) == Some(o[i].1)
  {
    if i > 0 {
      assert forall j :: 0 <= j < i - 1 ==> o[1..][j] == o[j + 1];
      LookupAt(o[1..], i - 1, k);
    }
  }

  /** `d.get(k, default)`: presence decides, so a key holding `""` or `null` still wins. */
  function Get(o: Fields, k: string, default: Json): Json {
    match Lookup(o, k)
    case Some(v) => v
    case None => default
  }

  /** Python truthiness of a JSON value. */
  predicate Truthy(v: Json) {
    match v
    case Null => false
    case Bool(b) => b
    case Num(n) => n != 0.0
    case Str(s) => s != ""
    case Arr(e) => e != []
    case Obj(f) => f != []
  }

  /** `a or b` */
  function Or(a: Json, b: Json): Json {
    if Truthy(a) then a else b
  }

  /** `d[k] = v`: overwrites an existing key in place, otherwise appends it. */
  function Put(o: Fields, k: string, v: Json): (r: Fields)
    ensures Lookup(r, k) == Some(v)
    ensures forall k' :: k' != k ==> Lookup(r, k') == Lookup(o, k')
    ensures Has(o, k) ==> |r| == |o| && forall i :: 0 <= i < |o| ==> r[i].0 == o[i].0
    ensures !Has(o, k) ==> r == o + [(k, v)]
  {
    if o == [] then [(k, v)]
    else if o[0].0 == k then
      var r := [(k, v)] + o[1..];
      forall k' ensures Lookup(r, k') == if k == k' then Some(v) else Lookup(o, k') {
        LookupPrepend((k, v), o[1..], k');
        LookupPrepend(o[0], o[1..], k');
      }
      assert Has(o, k) by { assert o[0].0 == k; }
      forall i | 0 <= i < |o| ensures r[i].0 == o[i].0 {
        if i > 0 { assert r[i] == o[1..][i - 1] == o[i]; }
      }
      r
    else
      var rest := Put(o[1..], k, v);
      var r := [o[0]] + rest;
      forall k' ensures Lookup(r, k') == if o[0].0 == k' then Some(o[0].1) else Lookup(rest, k') {
        LookupPrepend(o[0], rest, k');
      }
      forall k' ensures Lookup(o, k') == if o[0].0 == k' then Some(o[0].1) else Lookup(o[1..], k') {
        LookupPrepend(o[0], o[1..], k');
      }
      HasPrepend(o[0], o[1..], k);
      PutTailShape(o, k, rest, v);
      r
  }

  /** Looking up in a dict with one more entry in front. */
  lemma LookupPrepend(e: (string, Json), rest: Fields, k: string)
    ensures Lookup([e] + rest, k) == if e.0 == k then Some(e.1) else Lookup(rest, k)
  {
    assert ([e] + rest)[1..] == rest;
  }

  lemma HasPrepend(e: (string, Json), rest: Fields, k: string)
    ensures Has([e] + rest, k) <==> e.0 == k || Has(rest, k)
  {
    LookupPrepend(e, rest, k);
  }

  /** The shape half of `Put`'s contract, for a first key other than `k`. */
  lemma PutTailShape(o: Fields, k: string, rest: Fields, v: Json)
    requires o != [] && o[0].0 != k
    requires Has(o[1..], k) ==> |rest| == |o[1..]| && forall i :: 0 <= i < |o[1..]| ==> rest[i].0 == o[1..][i].0
    requires !Has(o[1..], k) ==> rest == o[1..] + [(k, v)]
    ensures Has(o, k) ==> |[o[0]] + rest| == |o| && forall i :: 0 <= i < |o| ==> ([o[0]] + rest)[i].0 == o[i].0
    ensures !Has(o, k) ==> [o[0]] + rest == o + [(k, v)]
  {
    assert o == [o[0]] + o[1..];
    HasPrepend(o[0], o[1..], k);
    if Has(o, k) {
      forall i | 0 <= i < |o| ensures ([o[0]] + rest)[i].0 == o[i].0 {
        if i > 0 { assert o[i] == o[1..][i - 1]; }
      }
    }
  }

  /** `d.get(k, {})` can be followed by another `.get`: the key is absent or holds a dict. */
  predicate DictOrAbsent(o: Fields, k: string) {
    match Lookup(o, k)
    case None => true
    case Some(v) => v.Obj?
  }

  /** `d.get(k, {})` */
  function GetDict(o: Fields, k: string): Fields
    requires DictOrAbsent(o, k)
  {
    match Lookup(o, k)
    case Some(v) => v.fields
    case None => []
  }

  /** `d.get(k, [])` can be iterated: the key is absent or holds a list. */
  predicate ListOrAbsent(o: Fields, k: string) {
    match Lookup(o, k)
    case None => true
    case Some(v) => v.Arr?
  }

  /** `d.get(k, [])` */
  function GetList(o: Fields, k: string): seq<Json>
    requires ListOrAbsent(o, k)
  {
    match Lookup(o, k)
    case Some(v) => v.elems
    case None => []
  }

  /**
   * `for k, v in d.items(): out[f(k)] = v` starting from an empty dict: every
   * entry, in order, under its new key, a later entry overwriting an earlier one.
   */
  function Rekeyed(o: Fields, f: string -> string): (r: Fields)
    ensures r == [] <==> o == []
    decreases |o|
  {
    if o == [] then []
    else
      var last := o[|o| - 1];
      Put(Rekeyed(o[..|o| - 1], f), f(last.0), last.1)
  }

  /** The last entry is stored under its new key. */
  lemma RekeyedLast(o: Fields, f: string -> string)
    requires o != []
    ensures Lookup(Rekeyed(o, f), f(o[|o| - 1].0)) == Some(o[|o| - 1].1)
  {
    var n := |o| - 1;
    assert Rekeyed(o, f) == Put(Rekeyed(o[..n], f), f(o[n].0), o[n].1);
  }

  /** Any other key is as the earlier entries left it. */
  lemma RekeyedOther(o: Fields, f: string -> string, k: string)
    requires o != [] && k != f(o[|o| - 1].0)
    ensures Lookup(Rekeyed(o, f), k) == Lookup(Rekeyed(o[..|o| - 1], f), k)
  {
    var n := |o| - 1;
    assert Rekeyed(o, f) == Put(Rekeyed(o[..n], f), f(o[n].0), o[n].1);
  }

  /** Every entry's new key is a key of the result. */
  lemma {:induction false} RekeyedHasKey(o: Fields, f: string -> string, i: nat)
    requires i < |o|
    ensures Lookup(Rekeyed(o, f), f(o[i].0)).Some?
    decreases |o|
  {
    var n := |o| - 1;
    var k := f(o[i].0);
    if k == f(o[n].0) {
      RekeyedLast(o, f);
    } else {
      var init := o[..n];
      assert init[i] == o[i];
      RekeyedHasKey(init, f, i);
      RekeyedOther(o, f, k);
    }
  }

  /** Every key of the result is the new key of some entry. */
  lemma {:induction false} RekeyedKeySource(o: Fields, f: string -> string, k: string) returns (i: nat)
    requires Lookup(Rekeyed(o, f), k).Some?
    ensures i < |o| && f(o[i].0) == k
    decreases |o|
  {
    var n := |o| - 1;
    if f(o[n].0) == k {
      i := n;
    } else {
      var init := o[..n];
      RekeyedOther(o, f, k);
      i := RekeyedKeySource(init, f, k);
      assert init[i] == o[i];
    }
  }

  /** A new key holds the value of the LAST entry that maps to it. */
  lemma {:induction false} RekeyedLastWins(o: Fields, f: string -> string, i: nat)
    requires i < |o|
    requires forall j :: i < j < |o| ==> f(o[j].0) != f(o[i].0)
    ensures Lookup(Rekeyed(o, f), f(o[i].0)) == Some(o[i].1)
    decreases |o|
  {
    var n := |o| - 1;
    if i == n {
      RekeyedLast(o, f);
    } else {
      var init := o[..n];
      assert forall j :: i < j < n ==> init[j] == o[j];
      assert init[i] == o[i];
      RekeyedLastWins(init, f, i);
      RekeyedOther(o, f, f(o[i].0));
    }
  }

  /** `d.get(k, [])` is a list of dicts: each element can be read with `.get`. */
  predicate ListOfDicts(o: Fields, k: string) {
    ListOrAbsent(o, k) && forall i :: 0 <= i < |GetList(o, k)| ==> GetList(o, k)[i].Obj?
  }

  /** `d.get(k, "")` is used as a string: the key is absent or holds a string. */
  predicate StrOrAbsent(o: Fields, k: string) {
    match Lookup(o, k)
    case None => true
    case Some(v) => v.Str?
  }

  /** `d.get(k, default)` for a string-valued key. */
  function GetStr(o: Fields, k: string, default: string): string
    requires StrOrAbsent(o, k)
  {
    match Lookup(o, k)
    case Some(v) => v.s
    case None => default
  }

  /** `d.get(k1, {}).get(k2, {})...`: every step on the path is a dict or missing. */
  predicate DictPathOk(o: Fields, path: seq<string>)
    decreases path
  {
    path == [] || (DictOrAbsent(o, path[0]) && DictPathOk(GetDict(o, path[0]), path[1..]))
  }

  function DictPath(o: Fields, path: seq<string>): Fields
    requires DictPathOk(o, path)
    decreases path
  {
    if path == [] then o else DictPath(GetDict(o, path[0]), path[1..])
  }

  /** Values `len(v)`, `x in v` and `for x in v` accept: strings, lists and dicts. */
  predicate Container(v: Json) {
    v.Arr? || v.Str? || v.Obj?
  }

  function Len(v: Json): nat
    requires Container(v)
  {
    match v
    case Arr(e) => |e|
    case Str(s) => |s|
    case Obj(f) => |f|
  }

  /**
   * What `for x in v` visits: the elements of a list, the one-character
   * strings of a string, the keys of a dict. Falsy containers visit nothing.
   */
  function Elements(v: Json): (r: seq<Json>)
    requires Container(v)
    ensures |r| == Len(v)
    ensures r == [] <==> !Truthy(v)
    ensures v.Arr? ==> r == v.elems
    ensures !v.Arr? ==> forall i :: 0 <= i < |r| ==> r[i].Str?
  {
    match v
    case Arr(e) => e
    case Str(s) => seq(|s|, i requires 0 <= i < |s| => Str([s[i]]))
    case Obj(f) => seq(|f|, i requires 0 <= i < |f| => Str(f[i].0))
  }

  /** Values `v[i]` and `v[:n]` accept with an integer index. */
  predicate Indexable(v: Json) {
    v.Arr? || v.Str?
  }

  /** `v[i]`; indexing a string yields a one-character string. */
  function At(v: Json, i: nat): Json
    requires Indexable(v) && i < Len(v)
  {
    match v
    case Arr(e) => e[i]
    case Str(s) => Str([s[i]])
  }

  /** `v[:n]` */
  function Take(v: Json, n: nat): (r: Json)
    requires Indexable(v) && n <= Len(v)
    ensures Indexable(r) && Len(r) == n
    ensures forall i :: 0 <= i < n ==> At(r, i) == At(v, i)
  {
    match v
    case Arr(e) => Arr(e[..n])
    case Str(s) => Str(s[..n])
  }

  /**
   * `if v and len(v) >= 4:` followed by `v[i]` or `v[:4]`: the value is falsy,
   * a list or a string, or a dict too short to get past the length test.
   */
  predicate FirstFourShaped(v: Json) {
    !Truthy(v) || v.Arr? || v.Str? || (v.Obj? && |v.fields| < 4)
  }

  /** A value whose `v[0]` is taken only after `if v:`: falsy, a list or a string. */
  predicate FalsyOrIndexable(v: Json) {
    !Truthy(v) || Indexable(v)
  }

  /** `d.get(k, 0)` is used as a number: the key is absent or holds a number. */
  predicate NumOrAbsent(o: Fields, k: string) {
    match Lookup(o, k)
    case None => true
    case Some(v) => v.Num?
  }

  /** Looking a key up in `a + b` finds it in `a` first. */
  lemma {:induction false} LookupAppend(a: Fields, b: Fields, k: string)
    ensures Lookup(a + b, k) == if Has(a, k) then Lookup(a, k) else Lookup(b, k)
  {
    if a != [] {
      assert (a + b)[1..] == a[1..] + b;
      LookupAppend(a[1..], b, k);
      if a[0].0 != k {
        assert Has(a, k) <==> Has(a[1..], k) by {
          if Has(a, k) {
            var i :| 0 <= i < |a| && a[i].0 == k;
            assert a[1..][i - 1].0 == k;
          }
          if Has(a[1..], k) {
            var i :| 0 <= i < |a[1..]| && a[1..][i].0 == k;
            assert a[i + 1].0 == k;
          }
        }
      }
    } else {
      assert a + b == b;
    }
  }
}
