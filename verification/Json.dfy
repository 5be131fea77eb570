// JSON values and the canonical form used by semantic dedupe.
module Json {
  import opened Prelude

  // An object is the list of its fields in storage order; numbers keep their source text.
  datatype Json =
    | Null
    | Bool(b: bool)
    | Num(text: string)
    | Str(s: string)
    | Arr(items: seq<Json>)
    | Obj(fields: seq<Field>)

  datatype Field = Field(key: string, value: Json)

  predicate DistinctKeys(fs: seq<Field>)
  {
    forall i, j :: 0 <= i < j < |fs| ==> fs[i].key != fs[j].key
  }

  // What serde_json guarantees of every value: no object repeats a key, at any depth.
  predicate WellFormed(v: Json)
  {
    match v
    case Arr(xs) => forall i :: 0 <= i < |xs| ==> WellFormed(xs[i])
    case Obj(fs) => DistinctKeys(fs) && forall i :: 0 <= i < |fs| ==> WellFormed(fs[i].value)
    case _ => true
  }

  /** `value.get(key)`: the field of an object, nothing for a missing key or another kind of value. */
  function Get(v: Json, key: string): (r: Option<Json>)
    ensures r.Some? ==> v.Obj? && Field(key, r.value) in v.fields
    ensures r.None? && v.Obj? ==> forall i :: 0 <= i < |v.fields| ==> v.fields[i].key != key
  {
    if v.Obj? then Lookup(v.fields, key) else None
  }

  function Lookup(fs: seq<Field>, key: string): (r: Option<Json>)
    ensures r.Some? ==> Field(key, r.value) in fs
    ensures r.None? ==> forall i :: 0 <= i < |fs| ==> fs[i].key != key
  {
    if fs == [] then None
    else if fs[0].key == key then Some(fs[0].value)
    else
      var r := Lookup(fs[1..], key);
      assert r.Some? ==> Field(key, r.value) in fs[1..];
      r
  }

  predicate SortedByKey(fs: seq<Field>)
  {
    forall i, j :: 0 <= i < j < |fs| ==> Less(fs[i].key, fs[j].key)
  }

  function Insert(f: Field, fs: seq<Field>): (r: seq<Field>)
    ensures |r| == |fs| + 1
    ensures forall g :: g in r <==> g == f || g in fs
  {
    if fs == [] || Less(f.key, fs[0].key) then [f] + fs
    else
      var r := [fs[0]] + Insert(f, fs[1..]);
      assert fs == [fs[0]] + fs[1..];
      r
  }

  function Sort(fs: seq<Field>): (r: seq<Field>)
    ensures |r| == |fs|
    ensures forall g :: g in r <==> g in fs
  {
    if fs == [] then []
    else
      assert fs == [fs[0]] + fs[1..];
      Insert(fs[0], Sort(fs[1..]))
  }

  lemma {:induction false} InsertSorted(f: Field, fs: seq<Field>)
    requires SortedByKey(fs)
    requires forall g :: g in fs ==> g.key != f.key
    ensures SortedByKey(Insert(f, fs))
  {
    if fs != [] {
      LessTrichotomy(f.key, fs[0].key);
      if Less(f.key, fs[0].key) {
        forall j | 0 <= j < |fs|
          ensures Less(f.key, fs[j].key)
        {
          if j > 0 {
            LessTransitive(f.key, fs[0].key, fs[j].key);
          }
        }
      } else {
        assert fs[0] in fs;
        var rest := fs[1..];
        InsertSorted(f, rest);
        var r := Insert(f, rest);
        forall j | 0 <= j < |r|
          ensures Less(fs[0].key, r[j].key)
        {
          assert r[j] in r;
          if r[j] != f {
            var k :| 0 <= k < |rest| && rest[k] == r[j];
            assert rest[k] == fs[k + 1];
          }
        }
      }
    }
  }

  lemma {:induction false} SortSorted(fs: seq<Field>)
    requires DistinctKeys(fs)
    ensures SortedByKey(Sort(fs))
  {
    if fs != [] {
      SortSorted(fs[1..]);
      InsertSorted(fs[0], Sort(fs[1..]));
    }
  }

  /** A list sorted by distinct keys is determined by its set of fields. */
  lemma {:induction false} SortedUnique(a: seq<Field>, b: seq<Field>)
    requires SortedByKey(a) && SortedByKey(b)
    requires forall f :: f in a <==> f in b
    ensures a == b
  {
    if a == [] {
      assert forall i :: 0 <= i < |b| ==> b[i] in a;
    } else {
      assert a[0] in a;
      assert b[0] in b;
      HeadIsLeast(a, b);
      HeadIsLeast(b, a);
      LessTrichotomy(a[0].key, b[0].key);
      forall f
        ensures f in a[1..] <==> f in b[1..]
      {
        TailMembers(a, f);
        TailMembers(b, f);
      }
      SortedUnique(a[1..], b[1..]);
      assert a == [a[0]] + a[1..] && b == [b[0]] + b[1..];
    }
  }

  lemma {:induction false} HeadIsLeast(a: seq<Field>, b: seq<Field>)
    requires a != [] && b != [] && SortedByKey(b) && a[0] in b
    ensures a[0] == b[0] || Less(b[0].key, a[0].key)
  {
    var k :| 0 <= k < |b| && b[k] == a[0];
  }

  lemma {:induction false} TailMembers(a: seq<Field>, f: Field)
    requires a != [] && SortedByKey(a)
    ensures f in a[1..] <==> f in a && f != a[0]
  {
    LessTrichotomy(a[0].key, a[0].key);
    assert a == [a[0]] + a[1..];
    if f in a[1..] {
      var k :| 0 <= k < |a[1..]| && a[1..][k] == f;
      assert a[k + 1] == f;
    }
  }

  // canonicalize_json_for_semantic_dedupe: sort the fields of every object, at every depth.
  function Canon(v: Json): Json
  {
    match v
    case Arr(xs) => Arr(seq(|xs|, i requires 0 <= i < |xs| => Canon(xs[i])))
    case Obj(fs) => Obj(Sort(CanonFields(v, fs)))
    case _ => v
  }

  function CanonFields(v: Json, fs: seq<Field>): (r: seq<Field>)
    requires v == Obj(fs)
    ensures |r| == |fs|
    ensures forall i :: 0 <= i < |fs| ==> r[i] == Field(fs[i].key, Canon(fs[i].value))
    decreases v, 0
  {
    seq(|fs|, i requires 0 <= i < |fs| => Field(fs[i].key, Canon(fs[i].value)))
  }

  lemma {:induction false} LookupUnique(fs: seq<Field>, f: Field)
    requires DistinctKeys(fs) && f in fs
    ensures Lookup(fs, f.key) == Some(f.value)
  {
    var i :| 0 <= i < |fs| && fs[i] == f;
    var r := Lookup(fs, f.key);
    assert fs[i].key == f.key;
    var j :| 0 <= j < |fs| && fs[j] == Field(f.key, r.value);
    assert i == j;
  }

  lemma {:induction false} CanonFieldIn(v: Json, f: Field)
    requires v.Obj? && f in v.fields
    ensures Field(f.key, Canon(f.value)) in CanonFields(v, v.fields)
  {
    var i :| 0 <= i < |v.fields| && v.fields[i] == f;
    assert CanonFields(v, v.fields)[i] == Field(f.key, Canon(f.value));
  }

  lemma {:induction false} CanonFieldFrom(v: Json, g: Field) returns (f: Field)
    requires v.Obj? && g in CanonFields(v, v.fields)
    ensures f in v.fields && g == Field(f.key, Canon(f.value))
  {
    var p := CanonFields(v, v.fields);
    var i :| 0 <= i < |p| && p[i] == g;
    f := v.fields[i];
  }

  lemma {:induction false} CanonFieldsDistinct(v: Json)
    requires v.Obj? && DistinctKeys(v.fields)
    ensures DistinctKeys(CanonFields(v, v.fields))
  {
  }

  // The independent reference: the same value up to the order of object fields, at any depth.
  ghost predicate SameUpToKeyOrder(a: Json, b: Json)
  {
    match (a, b)
    case (Arr(xs), Arr(ys)) =>
      |xs| == |ys| && forall i :: 0 <= i < |xs| ==> SameUpToKeyOrder(xs[i], ys[i])
    case (Obj(fs), Obj(gs)) =>
      && (forall f | f in fs :: Lookup(gs, f.key).Some? && SameUpToKeyOrder(f.value, Lookup(gs, f.key).value))
      && (forall g | g in gs :: Lookup(fs, g.key).Some?)
    case _ => a == b
  }

  /** Two values have one canonical form exactly when they differ only in field order. */
  lemma {:induction false} CanonDecidesKeyOrder(a: Json, b: Json)
    requires WellFormed(a) && WellFormed(b)
    ensures Canon(a) == Canon(b) <==> SameUpToKeyOrder(a, b)
    decreases a
  {
    match (a, b)
    case (Arr(xs), Arr(ys)) =>
      var p, q := Canon(a).items, Canon(b).items;
      assert |p| == |xs| && |q| == |ys|;
      if |xs| == |ys| {
        forall i | 0 <= i < |xs|
          ensures p[i] == q[i] <==> SameUpToKeyOrder(xs[i], ys[i])
        {
          CanonDecidesKeyOrder(xs[i], ys[i]);
        }
        if SameUpToKeyOrder(a, b) {
          assert p == q;
        }
      }
    case (Obj(fs), Obj(gs)) =>
      forall f, g | f in fs && g in gs
        ensures Canon(f.value) == Canon(g.value) <==> SameUpToKeyOrder(f.value, g.value)
      {
        CanonDecidesKeyOrder(f.value, g.value);
      }
      if Canon(a) == Canon(b) {
        assert Sort(CanonFields(a, fs)) == Sort(CanonFields(b, gs));
        forall f | f in fs
          ensures Lookup(gs, f.key).Some? && SameUpToKeyOrder(f.value, Lookup(gs, f.key).value)
        {
          CanonFieldIn(a, f);
          assert Field(f.key, Canon(f.value)) in Sort(CanonFields(a, fs));
          var g := CanonFieldFrom(b, Field(f.key, Canon(f.value)));
          LookupUnique(gs, g);
        }
        forall g | g in gs
          ensures Lookup(fs, g.key).Some?
        {
          CanonFieldIn(b, g);
          assert Field(g.key, Canon(g.value)) in Sort(CanonFields(b, gs));
          var f := CanonFieldFrom(a, Field(g.key, Canon(g.value)));
          LookupUnique(fs, f);
        }
      }
      if SameUpToKeyOrder(a, b) {
        SameFieldSet(a, b);
        CanonFieldsDistinct(a);
        CanonFieldsDistinct(b);
        SortSorted(CanonFields(a, fs));
        SortSorted(CanonFields(b, gs));
        SortedUnique(Sort(CanonFields(a, fs)), Sort(CanonFields(b, gs)));
      }
    case _ =>
  }

  lemma {:induction false} SameFieldSet(a: Json, b: Json)
    requires a.Obj? && b.Obj? && DistinctKeys(a.fields) && DistinctKeys(b.fields)
    requires forall f, g :: f in a.fields && g in b.fields && SameUpToKeyOrder(f.value, g.value) ==>
               Canon(f.value) == Canon(g.value)
    requires SameUpToKeyOrder(a, b)
    ensures forall h :: h in CanonFields(a, a.fields) <==> h in CanonFields(b, b.fields)
  {
    forall h | h in CanonFields(a, a.fields)
      ensures h in CanonFields(b, b.fields)
    {
      var f := CanonFieldFrom(a, h);
      CanonFieldIn(b, Field(f.key, Lookup(b.fields, f.key).value));
    }
    forall h | h in CanonFields(b, b.fields)
      ensures h in CanonFields(a, a.fields)
    {
      var g := CanonFieldFrom(b, h);
      var f := Field(g.key, Lookup(a.fields, g.key).value);
      LookupUnique(b.fields, g);
      CanonFieldIn(a, f);
    }
  }

  /** The canonical form is well formed and is the same value up to field order. */
  lemma {:induction false} CanonIsSameValue(v: Json)
    requires WellFormed(v)
    ensures WellFormed(Canon(v))
    ensures SameUpToKeyOrder(v, Canon(v))
  {
    match v
    case Arr(xs) =>
      forall i | 0 <= i < |xs|
        ensures WellFormed(Canon(xs[i])) && SameUpToKeyOrder(xs[i], Canon(xs[i]))
      {
        CanonIsSameValue(xs[i]);
      }
    case Obj(fs) =>
      var s := Sort(CanonFields(v, fs));
      CanonFieldsDistinct(v);
      SortSorted(CanonFields(v, fs));
      SortedDistinct(s);
      forall f | f in fs
        ensures Lookup(s, f.key).Some? && SameUpToKeyOrder(f.value, Lookup(s, f.key).value)
      {
        CanonIsSameValue(f.value);
        CanonFieldIn(v, f);
        LookupUnique(s, Field(f.key, Canon(f.value)));
      }
      forall i | 0 <= i < |s|
        ensures WellFormed(s[i].value) && Lookup(fs, s[i].key).Some?
      {
        assert s[i] in s;
        var f := CanonFieldFrom(v, s[i]);
        CanonIsSameValue(f.value);
        LookupUnique(fs, f);
      }
      assert Canon(v) == Obj(s);
    case _ =>
  }

  lemma {:induction false} SortedDistinct(s: seq<Field>)
    requires SortedByKey(s)
    ensures DistinctKeys(s)
  {
    forall i, j | 0 <= i < j < |s|
      ensures s[i].key != s[j].key
    {
      LessTrichotomy(s[i].key, s[i].key);
    }
  }

  lemma {:induction false} CanonIdempotent(v: Json)
    requires WellFormed(v)
    ensures Canon(Canon(v)) == Canon(v)
  {
    CanonIsSameValue(v);
    CanonDecidesKeyOrder(v, Canon(v));
  }

  /** The fields of a canonical object stand in ascending order of their keys, character by character. */
  lemma {:induction false} CanonInOrder(v: Json, i: nat, j: nat)
    requires WellFormed(v) && v.Obj? && i < j < |Canon(v).fields|
    ensures exists k: nat :: PrecedesAt(Canon(v).fields[i].key, Canon(v).fields[j].key, k)
  {
    CanonFieldsDistinct(v);
    SortSorted(CanonFields(v, v.fields));
    LessMeaning(Canon(v).fields[i].key, Canon(v).fields[j].key);
  }

  /** Array order is significant: reordering two elements that differ changes the canonical form. */
  lemma {:induction false} ArrayOrderKept(xs: seq<Json>, i: nat, j: nat)
    requires i < |xs| && j < |xs| && WellFormed(Arr(xs))
    ensures Canon(Arr(xs)) == Canon(Arr(xs[i := xs[j]][j := xs[i]])) <==> SameUpToKeyOrder(xs[i], xs[j])
  {
    var ys := xs[i := xs[j]][j := xs[i]];
    assert |ys| == |xs| && ys[i] == xs[j] && ys[j] == xs[i];
    CanonDecidesKeyOrder(xs[i], xs[j]);
    var a, b := Canon(Arr(xs)).items, Canon(Arr(ys)).items;
    assert a[i] == Canon(xs[i]) && b[i] == Canon(xs[j]);
    if Canon(xs[i]) == Canon(xs[j]) {
      assert forall k :: 0 <= k < |xs| ==> a[k] == b[k];
      assert a == b;
    }
  }
}
