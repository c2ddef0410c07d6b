/** `operator==` on values: what it computes, and when it is equality of what the values mean. */
module JsonEquality {
  import opened JsonValue

  /** How a comparison that involves a double comes out; floating point is not modelled. */
  type DoubleEqual = (Value, Value) -> bool

  function Chars(v: Value): seq<bv8>
    requires IsString(v)
  {
    v.data.chars
  }

  predicate StringEqual(a: Value, b: Value)
    requires IsString(a) && IsString(b)
  {
    Chars(a) == Chars(b)
  }

  function Names(v: Value): (names: seq<seq<bv8>>)
    requires Shaped(v) && Type(v) == OBJECT_TYPE
    ensures |names| == |v.data.members|
    ensures forall i | 0 <= i < |names| :: names[i] == Chars(v.data.members[i].name)
  {
    seq(|v.data.members|, i requires 0 <= i < |v.data.members| => Chars(v.data.members[i].name))
  }

  /** The first place of a name, or the end. */
  function Find<K(==)>(names: seq<K>, name: K, from: nat): (k: nat)
    requires from <= |names|
    ensures from <= k <= |names|
    ensures k < |names| ==> names[k] == name
    ensures forall j | from <= j < k :: names[j] != name
    decreases |names| - from
  {
    if from == |names| || names[from] == name then from else Find(names, name, from + 1)
  }

  predicate Equal(a: Value, b: Value, doubles: DoubleEqual)
    requires Shaped(a) && Shaped(b)
    decreases a
  {
    && Type(a) == Type(b)
    && if Type(a) == OBJECT_TYPE then
         && |a.data.members| == |b.data.members|
         && forall i | 0 <= i < |a.data.members| :: EqualMember(a, b, i, doubles)
       else if Type(a) == ARRAY_TYPE then
         && |a.data.elements| == |b.data.elements|
         && forall i | 0 <= i < |a.data.elements| ::
              Equal(a.data.elements[i], b.data.elements[i], doubles)
       else if Type(a) == STRING_TYPE then StringEqual(a, b)
       else if Type(a) == NUMBER_TYPE then EqualNumber(a, b, doubles)
       else true
  }

  /** Member `i` of `a` is found in `b`, with an equal value. */
  predicate EqualMember(a: Value, b: Value, i: nat, doubles: DoubleEqual)
    requires Shaped(a) && Shaped(b)
    requires Type(a) == OBJECT_TYPE && Type(b) == OBJECT_TYPE && i < |a.data.members|
    decreases a, 0
  {
    var m := a.data.members[i];
    var k := Find(Names(b), Chars(m.name), 0);
    k < |b.data.members| && Equal(m.value, b.data.members[k].value, doubles)
  }

  predicate EqualNumber(a: Value, b: Value, doubles: DoubleEqual)
    requires a.data.Num? && b.data.Num?
  {
    if Has(a, DOUBLE_FLAG) || Has(b, DOUBLE_FLAG) then doubles(a, b)
    else a.data.bits == b.data.bits
  }

  // ---------- The algorithm ----------

  method FindMember(v: Value, name: Value) returns (member: nat)
    requires Shaped(v) && Type(v) == OBJECT_TYPE && IsString(name)
    ensures member == Find(Names(v), Chars(name), 0)
  {
    member := 0;
    while member != |v.data.members|
      invariant 0 <= member <= |v.data.members|
      invariant Find(Names(v), Chars(name), 0) == Find(Names(v), Chars(name), member)
      decreases |v.data.members| - member
    {
      if StringEqual(name, v.data.members[member].name) { break; }
      member := member + 1;
    }
  }

  method Equals(a: Value, b: Value, doubles: DoubleEqual) returns (equal: bool)
    requires Shaped(a) && Shaped(b)
    ensures equal == Equal(a, b, doubles)
    decreases a
  {
    if Type(a) != Type(b) { return false; }
    if Type(a) == OBJECT_TYPE {
      if |a.data.members| != |b.data.members| { return false; }
      var i := 0;
      while i != |a.data.members|
        invariant 0 <= i <= |a.data.members|
        invariant forall j | 0 <= j < i :: EqualMember(a, b, j, doubles)
        decreases |a.data.members| - i
      {
        var m := a.data.members[i];
        var k := FindMember(b, m.name);
        if k == |b.data.members| {
          assert !EqualMember(a, b, i, doubles);
          return false;
        }
        var same := Equals(m.value, b.data.members[k].value, doubles);
        if !same {
          assert !EqualMember(a, b, i, doubles);
          return false;
        }
        i := i + 1;
      }
      return true;
    } else if Type(a) == ARRAY_TYPE {
      if |a.data.elements| != |b.data.elements| { return false; }
      var i := 0;
      while i < |a.data.elements|
        invariant 0 <= i <= |a.data.elements|
        invariant forall j | 0 <= j < i :: Equal(a.data.elements[j], b.data.elements[j], doubles)
      {
        var same := Equals(a.data.elements[i], b.data.elements[i], doubles);
        if !same { return false; }
        i := i + 1;
      }
      return true;
    } else if Type(a) == STRING_TYPE {
      return StringEqual(a, b);
    } else if Type(a) == NUMBER_TYPE {
      return EqualNumber(a, b, doubles);
    } else {
      return true;
    }
  }

  // ---------- What a value means ----------

  /** JSON with objects as unordered maps. */
  datatype Json =
    | JNull
    | JBool(b: bool)
    | JNumber(n: int)
    | JString(chars: seq<bv8>)
    | JArray(elements: seq<Json>)
    | JObject(members: map<seq<bv8>, Json>)

  /** Which integer the payload of a number is. `Wrapped` keeps only its residue modulo
    * 2^64; `Exact` is the number, negative when it fits no unsigned type. */
  datatype Reading = Wrapped | Exact

  function Word(bits: bv64): (n: int)
    ensures 0 <= n < 0x1_0000_0000_0000_0000
  {
    bits as int
  }

  function Number(v: Value, reading: Reading): int
    requires v.data.Num?
  {
    var n := Word(v.data.bits);
    if reading.Exact? && !Has(v, UINT64_FLAG) then n - 0x1_0000_0000_0000_0000 else n
  }

  function Meaning(v: Value, reading: Reading): Json
    requires Shaped(v)
    decreases v, 1
  {
    if Type(v) == OBJECT_TYPE then
      JObject(Index(Names(v), Values(v, reading)))
    else if Type(v) == ARRAY_TYPE then
      JArray(seq(|v.data.elements|, i requires 0 <= i < |v.data.elements| =>
        Meaning(v.data.elements[i], reading)))
    else if Type(v) == STRING_TYPE then JString(Chars(v))
    else if Type(v) == NUMBER_TYPE then JNumber(Number(v, reading))
    else if Type(v) == NULL_TYPE then JNull
    else JBool(Type(v) == TRUE_TYPE)
  }

  function Values(v: Value, reading: Reading): (values: seq<Json>)
    requires Shaped(v) && Type(v) == OBJECT_TYPE
    ensures |values| == |v.data.members|
    decreases v, 0
  {
    seq(|v.data.members|, i requires 0 <= i < |v.data.members| => Meaning(v.data.members[i].value, reading))
  }

  /** The map from names to values; of two with the same name the first counts. */
  function Index<K, V>(names: seq<K>, values: seq<V>): map<K, V>
    requires |names| == |values|
  {
    if names == [] then map[] else Index(names[1..], values[1..])[names[0] := values[0]]
  }

  // ---------- The trees the theorem is about ----------

  predicate NoRepeats<K(==)>(names: seq<K>) {
    forall i, j | 0 <= i < j < |names| :: names[i] != names[j]
  }

  /** No object in the tree has two members of one name. */
  predicate Distinct(v: Value)
    requires Shaped(v)
    decreases v
  {
    if Type(v) == OBJECT_TYPE then
      var ms := v.data.members;
      && (forall i | 0 <= i < |ms| :: Distinct(ms[i].value))
      && NoRepeats(Names(v))
    else if Type(v) == ARRAY_TYPE then
      forall i | 0 <= i < |v.data.elements| :: Distinct(v.data.elements[i])
    else true
  }

  /** The numbers of the tree are integers: of any size, or all within `int64_t`. */
  predicate Integral(v: Value, reading: Reading)
    requires Shaped(v)
    decreases v
  {
    if Type(v) == OBJECT_TYPE then
      forall i | 0 <= i < |v.data.members| :: Integral(v.data.members[i].value, reading)
    else if Type(v) == ARRAY_TYPE then
      forall i | 0 <= i < |v.data.elements| :: Integral(v.data.elements[i], reading)
    else if Type(v) == NUMBER_TYPE then
      && IsBuiltNumber(v) && !Has(v, DOUBLE_FLAG)
      && (reading.Exact? ==> Has(v, INT64_FLAG))
    else true
  }

  // ---------- Numbers ----------

  lemma SameWord(x: bv64, y: bv64)
    requires Word(x) == Word(y)
    ensures x == y
  {
    assert (x as int) as bv64 == x;
    assert (y as int) as bv64 == y;
  }

  lemma SignBit(v: Value)
    requires IsBuiltNumber(v) && !Has(v, DOUBLE_FLAG) && Has(v, INT64_FLAG)
    ensures Has(v, UINT64_FLAG) <==> v.data.bits & 0x8000_0000_0000_0000 == 0
  {
  }

  /** The comparison of two integers looks at their residues modulo 2^64; it is right about
    * the numbers themselves exactly when their signs agree. */
  lemma NumbersCompared(a: Value, b: Value, doubles: DoubleEqual)
    requires a.data.Num? && !Has(a, DOUBLE_FLAG)
    requires b.data.Num? && !Has(b, DOUBLE_FLAG)
    ensures EqualNumber(a, b, doubles) <==> Number(a, Wrapped) == Number(b, Wrapped)
    ensures EqualNumber(a, b, doubles) && Has(a, UINT64_FLAG) == Has(b, UINT64_FLAG)
       <==> Number(a, Exact) == Number(b, Exact)
  {
    hide Has, Word;
    if Word(a.data.bits) == Word(b.data.bits) {
      SameWord(a.data.bits, b.data.bits);
    }
  }

  /** Within `int64_t` the signs agree whenever the bits do. */
  lemma NumbersInRange(a: Value, b: Value, doubles: DoubleEqual, reading: Reading)
    requires Shaped(a) && Type(a) == NUMBER_TYPE && Integral(a, reading)
    requires Shaped(b) && Type(b) == NUMBER_TYPE && Integral(b, reading)
    ensures EqualNumber(a, b, doubles) <==> Number(a, reading) == Number(b, reading)
  {
    NumbersCompared(a, b, doubles);
    if reading.Exact? {
      SignBit(a);
      SignBit(b);
      hide IsBuiltNumber, Has;
    }
  }

  // ---------- Objects ----------

  lemma TypeCases(v: Value)
    requires Shaped(v)
    ensures Type(v) == NULL_TYPE || Type(v) == FALSE_TYPE || Type(v) == TRUE_TYPE || Type(v) == OBJECT_TYPE
         || Type(v) == ARRAY_TYPE || Type(v) == STRING_TYPE || Type(v) == NUMBER_TYPE
  {
  }

  /** With distinct names, the map has one entry for every member. */
  lemma {:induction false} IndexMeans<K, V>(names: seq<K>, values: seq<V>)
    requires |names| == |values| && NoRepeats(names)
    ensures |Index(names, values).Keys| == |names|
    ensures forall i | 0 <= i < |names| ::
              names[i] in Index(names, values) && Index(names, values)[names[i]] == values[i]
    ensures forall key | key in Index(names, values) :: key in names
  {
    if names != [] {
      IndexMeans(names[1..], values[1..]);
      var rest := Index(names[1..], values[1..]);
      forall i | 0 < i < |names|
        ensures names[i] in rest && rest[names[i]] == values[i] && names[i] != names[0]
      {
        assert names[i] == names[1..][i - 1];
      }
      assert Index(names, values) == rest[names[0] := values[0]];
      hide Index;
      assert names[0] !in rest;
      assert rest[names[0] := values[0]].Keys == rest.Keys + {names[0]};
    }
  }

  /** A set inside another of the same size is the other. */
  lemma SameSize<K>(a: set<K>, b: set<K>)
    requires a <= b && |a| == |b|
    ensures a == b
  {
    assert |b - a| == |b| - |a|;
  }

  function Elements<K>(s: seq<K>): set<K> {
    set x | x in s
  }

  /** A sequence has at most as many elements as places, and as many only without repeats. */
  lemma {:induction false} CountElements<K>(s: seq<K>)
    ensures |Elements(s)| <= |s|
    ensures |Elements(s)| == |s| <==> NoRepeats(s)
  {
    if s != [] {
      var front, last := s[..|s| - 1], s[|s| - 1];
      CountElements(front);
      assert s == front + [last];
      assert Elements(s) == Elements(front) + {last};
      if last in front {
        assert Elements(s) == Elements(front);
      } else if NoRepeats(front) {
        assert forall i, j | 0 <= i < j < |s| :: s[i] != s[j];
      } else {
        assert exists i, j :: 0 <= i < j < |front| && front[i] == front[j] && s[i] == s[j];
      }
    }
  }

  /** Pigeonhole: if the distinct `xs` all occur in `ys`, which has no more places, then
    * `ys` is distinct too and has nothing else. */
  lemma Pigeonhole<K>(xs: seq<K>, ys: seq<K>)
    requires |xs| == |ys| && NoRepeats(xs)
    requires forall i | 0 <= i < |xs| :: xs[i] in ys
    ensures NoRepeats(ys)
    ensures forall k | 0 <= k < |ys| :: ys[k] in xs
  {
    CountElements(xs);
    CountElements(ys);
    var missing := Elements(ys) - Elements(xs);
    assert Elements(xs) <= Elements(ys);
    assert |missing| == |Elements(ys)| - |Elements(xs)|;
    assert Elements(xs) == Elements(ys);
    forall k | 0 <= k < |ys| ensures ys[k] in xs {
      assert ys[k] in Elements(ys);
    }
  }

  /** Two indexes agree if they are the same size and every entry of one is in the other. */
  lemma SameIndex<K, V>(a: map<K, V>, b: map<K, V>)
    requires |a.Keys| == |b.Keys|
    requires forall key | key in a :: key in b && a[key] == b[key]
    ensures a == b
  {
    SameSize(a.Keys, b.Keys);
  }

  /** For distinct names, two indexes agree exactly when they are as long as each other and
    * each name of the one is found in the other with its value. */
  lemma MatchedIndexes<K, V>(xs: seq<K>, us: seq<V>, ys: seq<K>, vs: seq<V>)
    requires |xs| == |us| && |ys| == |vs| && NoRepeats(xs) && NoRepeats(ys)
    ensures Index(xs, us) == Index(ys, vs) <==>
            && |xs| == |ys|
            && forall i | 0 <= i < |xs| :: Found(xs, us, ys, vs, i)
  {
    IndexMeans(xs, us);
    IndexMeans(ys, vs);
    var a, b := Index(xs, us), Index(ys, vs);
    if |xs| == |ys| && forall i | 0 <= i < |xs| :: Found(xs, us, ys, vs, i) {
      forall key | key in a ensures key in b && a[key] == b[key] {
        var i :| 0 <= i < |xs| && xs[i] == key;
        assert Found(xs, us, ys, vs, i);
      }
      SameIndex(a, b);
    }
    if a == b {
      forall i | 0 <= i < |xs| ensures Found(xs, us, ys, vs, i) {
        assert xs[i] in ys;
      }
    }
  }

  predicate Found<K(==), V(==)>(xs: seq<K>, us: seq<V>, ys: seq<K>, vs: seq<V>, i: nat)
    requires |xs| == |us| && |ys| == |vs| && i < |xs|
  {
    var k := Find(ys, xs[i], 0);
    k < |ys| && us[i] == vs[k]
  }

  // ---------- The theorem ----------

  /** On trees of integers in which `a` repeats no name, `a == b` says that `b` repeats none
    * either and that both mean the same, whatever the order of members. Read with `Exact`,
    * this is about numbers within `int64_t`; with `Wrapped`, about all integers, modulo 2^64. */
  lemma {:induction false} EqualIsSameMeaning(a: Value, b: Value, doubles: DoubleEqual, reading: Reading)
    requires Shaped(a) && Distinct(a) && Integral(a, reading)
    requires Shaped(b) && Integral(b, reading)
    ensures Equal(a, b, doubles) <==> Distinct(b) && Meaning(a, reading) == Meaning(b, reading)
    decreases a, 1
  {
    TypeCases(a);
    TypeCases(b);
    if Type(a) != Type(b) {
      DifferentTypes(a, b, reading);
      hide Has, IsString, IsBuiltNumber, Meaning, Distinct;
    } else if Type(a) == OBJECT_TYPE {
      ObjectsEqual(a, b, doubles, reading);
    } else if Type(a) == ARRAY_TYPE {
      ArraysEqual(a, b, doubles, reading);
    } else if Type(a) == NUMBER_TYPE {
      NumbersInRange(a, b, doubles, reading);
      hide Has, IsString, IsBuiltNumber, Number;
    } else {
      hide Has, IsBuiltNumber, Number;
    }
  }

  lemma DifferentTypes(a: Value, b: Value, reading: Reading)
    requires Shaped(a) && Shaped(b) && Type(a) != Type(b)
    ensures Meaning(a, reading) != Meaning(b, reading)
  {
    TypeCases(a);
    TypeCases(b);
    hide Has, IsString, Number;
  }

  lemma {:induction false} ArraysEqual(a: Value, b: Value, doubles: DoubleEqual, reading: Reading)
    requires Shaped(a) && Distinct(a) && Integral(a, reading) && Type(a) == ARRAY_TYPE
    requires Shaped(b) && Integral(b, reading) && Type(b) == ARRAY_TYPE
    ensures Equal(a, b, doubles) <==> Distinct(b) && Meaning(a, reading) == Meaning(b, reading)
    decreases a, 0
  {
    hide Has, IsString, IsBuiltNumber, Number;
    var es, fs := a.data.elements, b.data.elements;
    var xs, ys := Meaning(a, reading).elements, Meaning(b, reading).elements;
    assert |xs| == |es| && |ys| == |fs|;
    if |es| == |fs| {
      forall i | 0 <= i < |es|
        ensures Equal(es[i], fs[i], doubles)
           <==> Distinct(fs[i]) && Meaning(es[i], reading) == Meaning(fs[i], reading)
      {
        EqualIsSameMeaning(es[i], fs[i], doubles, reading);
      }
      if Equal(a, b, doubles) {
        assert forall i | 0 <= i < |es| :: Equal(es[i], fs[i], doubles);
        assert xs == ys;
      }
      if Distinct(b) && Meaning(a, reading) == Meaning(b, reading) {
        assert forall i | 0 <= i < |es| :: xs[i] == ys[i] && Distinct(fs[i]);
      }
    }
  }

  /** The hypothesis of the induction, for the values of two members. */
  ghost predicate Agree(x: Value, y: Value, doubles: DoubleEqual, reading: Reading)
    requires Shaped(x) && Shaped(y)
  {
    Equal(x, y, doubles) <==> Distinct(y) && Meaning(x, reading) == Meaning(y, reading)
  }

  lemma {:induction false} ObjectsEqual(a: Value, b: Value, doubles: DoubleEqual, reading: Reading)
    requires Shaped(a) && Distinct(a) && Integral(a, reading) && Type(a) == OBJECT_TYPE
    requires Shaped(b) && Integral(b, reading) && Type(b) == OBJECT_TYPE
    ensures Equal(a, b, doubles) <==> Distinct(b) && Meaning(a, reading) == Meaning(b, reading)
    decreases a, 0
  {
    var ms, ns := a.data.members, b.data.members;
    forall i, k | 0 <= i < |ms| && 0 <= k < |ns|
      ensures Agree(ms[i].value, ns[k].value, doubles, reading)
    {
      EqualIsSameMeaning(ms[i].value, ns[k].value, doubles, reading);
    }
    if Equal(a, b, doubles) {
      EqualObjectsMean(a, b, doubles, reading);
    }
    if Distinct(b) && Meaning(a, reading) == Meaning(b, reading) {
      SameObjectsEqual(a, b, doubles, reading);
    }
  }

  lemma MemberMatched(a: Value, b: Value, i: nat, doubles: DoubleEqual)
    requires Shaped(a) && Type(a) == OBJECT_TYPE && i < |a.data.members|
    requires Shaped(b) && Equal(a, b, doubles)
    ensures Type(b) == OBJECT_TYPE && |a.data.members| == |b.data.members|
    ensures var k := Find(Names(b), Names(a)[i], 0);
            && k < |b.data.members|
            && Equal(a.data.members[i].value, b.data.members[k].value, doubles)
  {
    assert EqualMember(a, b, i, doubles);
  }

  /** Every member of an equal object is the match of one of `a`'s. */
  lemma EveryMemberMatched(a: Value, b: Value, k: nat, doubles: DoubleEqual) returns (i: nat)
    requires Shaped(a) && Distinct(a) && Type(a) == OBJECT_TYPE
    requires Shaped(b) && Type(b) == OBJECT_TYPE && Equal(a, b, doubles) && k < |b.data.members|
    ensures |a.data.members| == |b.data.members| && NoRepeats(Names(b))
    ensures i < |a.data.members| && Find(Names(b), Names(a)[i], 0) == k
  {
    var xs, ys := Names(a), Names(b);
    assert NoRepeats(xs);
    assert |xs| == |ys|;
    forall i | 0 <= i < |xs| ensures xs[i] in ys {
      MemberMatched(a, b, i, doubles);
    }
    Pigeonhole(xs, ys);
    assert forall m, n | 0 <= m < |ys| && 0 <= n < |ys| && ys[m] == ys[n] :: m == n;
    hide *;
    i :| 0 <= i < |xs| && xs[i] == ys[k];
    assert ys[Find(ys, xs[i], 0)] == ys[k];
  }

  lemma EqualObjectsMean(a: Value, b: Value, doubles: DoubleEqual, reading: Reading)
    requires Shaped(a) && Distinct(a) && Type(a) == OBJECT_TYPE
    requires Shaped(b) && Type(b) == OBJECT_TYPE && Equal(a, b, doubles)
    requires forall i, k | 0 <= i < |a.data.members| && 0 <= k < |b.data.members| ::
               Agree(a.data.members[i].value, b.data.members[k].value, doubles, reading)
    ensures Distinct(b) && Meaning(a, reading) == Meaning(b, reading)
  {
    var ms, ns, xs, ys := a.data.members, b.data.members, Names(a), Names(b);
    var us, vs := Values(a, reading), Values(b, reading);
    forall i | 0 <= i < |xs|
      ensures |xs| == |ys| && Find(ys, xs[i], 0) < |ys|
      ensures us[i] == vs[Find(ys, xs[i], 0)] && Distinct(ns[Find(ys, xs[i], 0)].value)
    {
      MemberMatched(a, b, i, doubles);
      assert Agree(ms[i].value, ns[Find(ys, xs[i], 0)].value, doubles, reading);
    }
    assert |xs| == |ys| by {
      assert |ms| == |ns|;
    }
    forall k | 0 <= k < |ns| ensures Distinct(ns[k].value) && NoRepeats(ys) {
      var i := EveryMemberMatched(a, b, k, doubles);
    }
    assert NoRepeats(xs);
    MatchedIndexes(xs, us, ys, vs);
  }

  lemma MembersEqual(a: Value, b: Value, doubles: DoubleEqual)
    requires Shaped(a) && Type(a) == OBJECT_TYPE && Shaped(b) && Type(b) == OBJECT_TYPE
    requires |a.data.members| == |b.data.members|
    requires forall i | 0 <= i < |a.data.members| :: EqualMember(a, b, i, doubles)
    ensures Equal(a, b, doubles)
  {
    hide EqualMember;
  }

  lemma SameObjectsEqual(a: Value, b: Value, doubles: DoubleEqual, reading: Reading)
    requires Shaped(a) && Distinct(a) && Type(a) == OBJECT_TYPE
    requires Shaped(b) && Type(b) == OBJECT_TYPE
    requires Distinct(b) && Meaning(a, reading) == Meaning(b, reading)
    requires forall i, k | 0 <= i < |a.data.members| && 0 <= k < |b.data.members| ::
               Agree(a.data.members[i].value, b.data.members[k].value, doubles, reading)
    ensures Equal(a, b, doubles)
  {
    var ms, ns, xs, ys := a.data.members, b.data.members, Names(a), Names(b);
    var us, vs := Values(a, reading), Values(b, reading);
    assert Index(xs, us) == Index(ys, vs) && NoRepeats(xs) && NoRepeats(ys);
    hide Has, IsString, IsBuiltNumber, Find, Index, Equal;
    MatchedIndexes(xs, us, ys, vs);
    forall i | 0 <= i < |ms| ensures EqualMember(a, b, i, doubles) {
      assert Found(xs, us, ys, vs, i);
      var k := Find(ys, xs[i], 0);
      assert Agree(ms[i].value, ns[k].value, doubles, reading);
    }
    MembersEqual(a, b, doubles);
  }

  /** So on such trees `==` is an equivalence. Symmetry is not plain: only the members of
    * the left side are looked up. */
  lemma EqualIsEquivalence(a: Value, b: Value, c: Value, doubles: DoubleEqual)
    requires Shaped(a) && Distinct(a) && Integral(a, Wrapped)
    requires Shaped(b) && Distinct(b) && Integral(b, Wrapped)
    requires Shaped(c) && Distinct(c) && Integral(c, Wrapped)
    ensures Equal(a, a, doubles)
    ensures Equal(a, b, doubles) <==> Equal(b, a, doubles)
    ensures Equal(a, b, doubles) && Equal(b, c, doubles) ==> Equal(a, c, doubles)
  {
    EqualIsSameMeaning(a, a, doubles, Wrapped);
    EqualIsSameMeaning(a, b, doubles, Wrapped);
    EqualIsSameMeaning(b, a, doubles, Wrapped);
    EqualIsSameMeaning(b, c, doubles, Wrapped);
    EqualIsSameMeaning(a, c, doubles, Wrapped);
    hide Equal, Meaning, Shaped, Distinct, Integral;
  }

  /** Reordering the members of an object does not make it different. */
  lemma ReorderedEqual(a: Value, b: Value, doubles: DoubleEqual)
    requires Shaped(a) && Distinct(a) && Integral(a, Wrapped) && Type(a) == OBJECT_TYPE
    requires Shaped(b) && Type(b) == OBJECT_TYPE
    requires multiset(a.data.members) == multiset(b.data.members)
    ensures Equal(a, b, doubles)
  {
    var ms, ns, xs, ys := a.data.members, b.data.members, Names(a), Names(b);
    assert |ms| == |multiset(ms)| && |ns| == |multiset(ns)|;
    forall i | 0 <= i < |ms| ensures exists k :: 0 <= k < |ns| && ns[k] == ms[i] && ys[k] == xs[i] {
      assert ms[i] in multiset(ns);
    }
    Pigeonhole(xs, ys);
    forall i | 0 <= i < |ms| ensures EqualMember(a, b, i, doubles) {
      var k :| 0 <= k < |ns| && ns[k] == ms[i] && ys[k] == xs[i];
      MovedMember(a, b, i, k, doubles);
    }
    hide Names, EqualMember, Distinct, Integral;
  }

  lemma MovedMember(a: Value, b: Value, i: nat, k: nat, doubles: DoubleEqual)
    requires Shaped(a) && Distinct(a) && Integral(a, Wrapped) && Type(a) == OBJECT_TYPE
    requires Shaped(b) && Type(b) == OBJECT_TYPE && NoRepeats(Names(b))
    requires i < |a.data.members| && k < |b.data.members| && a.data.members[i] == b.data.members[k]
    ensures EqualMember(a, b, i, doubles)
  {
    var v := a.data.members[i].value;
    assert Find(Names(b), Names(a)[i], 0) == k;
    EqualIsSameMeaning(v, v, doubles, Wrapped);
    hide Names, Equal, Meaning;
  }

  // ---------- Where it is not equality of meaning ----------

  /** -1 equals the largest unsigned number. */
  lemma MinusOneEqualsHuge(doubles: DoubleEqual)
    ensures var minusOne, huge := OfInt64(0xFFFF_FFFF_FFFF_FFFF), OfUint64(0xFFFF_FFFF_FFFF_FFFF);
            && Shaped(minusOne) && Shaped(huge) && Equal(minusOne, huge, doubles)
            && Number(minusOne, Exact) == -1
            && Number(huge, Exact) == 0xFFFF_FFFF_FFFF_FFFF
  {
    assert Word(0xFFFF_FFFF_FFFF_FFFF) == 0xFFFF_FFFF_FFFF_FFFF;
  }

  /** With a double on either side, numbers are compared as doubles. */
  lemma DoublesDecide(a: Value, b: Value, doubles: DoubleEqual)
    requires Shaped(a) && Shaped(b) && Type(a) == NUMBER_TYPE && Type(b) == NUMBER_TYPE
    requires Has(a, DOUBLE_FLAG) || Has(b, DOUBLE_FLAG)
    ensures Equal(a, b, doubles) == doubles(a, b)
  {
  }

  // ---------- Repeated names ----------

  /** An object that may repeat names, of values that do not. */
  predicate MayRepeat(v: Value)
    requires Shaped(v)
  {
    && Type(v) == OBJECT_TYPE
    && forall i | 0 <= i < |v.data.members| ::
         Distinct(v.data.members[i].value) && Integral(v.data.members[i].value, Wrapped)
  }

  /** Members of one name mean the same. */
  predicate NamesakesAgree(v: Value)
    requires Shaped(v) && Type(v) == OBJECT_TYPE
  {
    forall i, j | 0 <= i < |v.data.members| && 0 <= j < |v.data.members| && Names(v)[i] == Names(v)[j] ::
      MemberMeaning(v, i) == MemberMeaning(v, j)
  }

  function MemberMeaning(v: Value, i: nat): Json
    requires Shaped(v) && Type(v) == OBJECT_TYPE && i < |v.data.members|
  {
    Meaning(v.data.members[i].value, Wrapped)
  }

  /** A member of `a` and its match in an equal object mean the same. */
  lemma MatchMeans(a: Value, b: Value, i: nat, doubles: DoubleEqual)
    requires Shaped(a) && MayRepeat(a) && i < |a.data.members|
    requires Shaped(b) && Integral(b, Wrapped) && Equal(a, b, doubles)
    ensures Type(b) == OBJECT_TYPE && |a.data.members| == |b.data.members|
    ensures var k := Find(Names(b), Names(a)[i], 0);
            k < |b.data.members| && MemberMeaning(a, i) == MemberMeaning(b, k)
  {
    MemberMatched(a, b, i, doubles);
    var k := Find(Names(b), Names(a)[i], 0);
    EqualIsSameMeaning(a.data.members[i].value, b.data.members[k].value, doubles, Wrapped);
    hide Equal, Meaning, Distinct, Find;
  }

  lemma EqualNamesakesAgree(a: Value, b: Value, doubles: DoubleEqual)
    requires Shaped(a) && MayRepeat(a)
    requires Shaped(b) && Integral(b, Wrapped) && Equal(a, b, doubles)
    ensures NamesakesAgree(a)
  {
    var xs := Names(a);
    forall i, j | 0 <= i < |xs| && 0 <= j < |xs| && xs[i] == xs[j]
      ensures MemberMeaning(a, i) == MemberMeaning(a, j)
    {
      MatchMeans(a, b, i, doubles);
      MatchMeans(a, b, j, doubles);
      hide Equal, MemberMeaning, Shaped, MayRepeat, Integral;
    }
  }

  /** A member of `b` equals the member of `a` found for it, if they mean the same. */
  lemma SameMeaningMatches(b: Value, a: Value, k: nat, doubles: DoubleEqual)
    requires Shaped(b) && MayRepeat(b) && k < |b.data.members|
    requires Shaped(a) && MayRepeat(a)
    requires var i := Find(Names(a), Names(b)[k], 0);
             i < |a.data.members| && MemberMeaning(b, k) == MemberMeaning(a, i)
    ensures EqualMember(b, a, k, doubles)
  {
    var i := Find(Names(a), Names(b)[k], 0);
    EqualIsSameMeaning(b.data.members[k].value, a.data.members[i].value, doubles, Wrapped);
    hide Equal, Meaning, Distinct, Find;
  }

  /** There is a tree of integers that the object equals. */
  ghost predicate EqualsSomething(a: Value, doubles: DoubleEqual)
    requires Shaped(a)
  {
    exists b :: Shaped(b) && Integral(b, Wrapped) && Equal(a, b, doubles)
  }

  /** Against the comment on the operator, an object that repeats names can equal itself. It
    * does, and equals anything at all, exactly if its members of one name mean the same. */
  lemma RepeatedNames(a: Value, doubles: DoubleEqual)
    requires Shaped(a) && MayRepeat(a)
    ensures EqualsSomething(a, doubles) <==> NamesakesAgree(a)
    ensures Equal(a, a, doubles) <==> NamesakesAgree(a)
  {
    assert Integral(a, Wrapped);
    if NamesakesAgree(a) {
      var xs := Names(a);
      forall i | 0 <= i < |xs| ensures EqualMember(a, a, i, doubles) {
        var k := Find(xs, xs[i], 0);
        assert xs[k] == xs[i];
        SameMeaningMatches(a, a, i, doubles);
      }
      MembersEqual(a, a, doubles);
    }
    if b :| Shaped(b) && Integral(b, Wrapped) && Equal(a, b, doubles) {
      EqualNamesakesAgree(a, b, doubles);
    }
    hide Equal, Shaped, Integral, NamesakesAgree, MayRepeat;
  }

  /** With repeated names `==` need not be symmetric. An equality can be turned around exactly
    * if the right side has no names of its own, and its members of one name mean the same. */
  lemma TurnedAround(a: Value, b: Value, doubles: DoubleEqual)
    requires Shaped(a) && MayRepeat(a) && Shaped(b) && MayRepeat(b)
    requires Equal(a, b, doubles)
    ensures Equal(b, a, doubles) <==>
            && (forall k | 0 <= k < |b.data.members| :: Names(b)[k] in Names(a))
            && NamesakesAgree(b)
  {
    assert Integral(a, Wrapped) && Integral(b, Wrapped);
    assert |a.data.members| == |b.data.members|;
    var xs, ys := Names(a), Names(b);
    if Equal(b, a, doubles) {
      EqualNamesakesAgree(b, a, doubles);
      forall k | 0 <= k < |ys| ensures ys[k] in xs {
        MemberMatched(b, a, k, doubles);
      }
    }
    if (forall k | 0 <= k < |ys| :: ys[k] in xs) && NamesakesAgree(b) {
      forall k | 0 <= k < |ys| ensures EqualMember(b, a, k, doubles) {
        MatchBack(a, b, k, doubles);
      }
      MembersEqual(b, a, doubles);
    }
  }

  lemma MatchBack(a: Value, b: Value, k: nat, doubles: DoubleEqual)
    requires Shaped(a) && MayRepeat(a) && Shaped(b) && MayRepeat(b)
    requires Equal(a, b, doubles) && NamesakesAgree(b)
    requires k < |b.data.members| && Names(b)[k] in Names(a)
    ensures EqualMember(b, a, k, doubles)
  {
    assert Integral(b, Wrapped);
    var xs, ys := Names(a), Names(b);
    var i := Find(xs, ys[k], 0);
    assert i < |xs| && xs[i] == ys[k];
    MatchMeans(a, b, i, doubles);
    var j := Find(ys, xs[i], 0);
    assert MemberMeaning(b, j) == MemberMeaning(b, k);
    SameMeaningMatches(b, a, k, doubles);
    hide *;
  }

  function Pair(name1: seq<bv8>, value1: Value, name2: seq<bv8>, value2: Value): Value {
    OfObject([Member(ConstString(name1), value1), Member(ConstString(name2), value2)])
  }

  /** An object that repeats a name and equals itself, and one that repeats none and equals it
    * from one side only. */
  lemma RepeatedNameAtWork(doubles: DoubleEqual)
    ensures var twice, once := Pair([97], OfInt(1), [97], OfInt(1)), Pair([97], OfInt(1), [98], OfInt(2));
            && Shaped(twice) && !Distinct(twice) && Shaped(once) && Distinct(once)
            && Equal(twice, twice, doubles)
            && Equal(twice, once, doubles)
            && !Equal(once, twice, doubles)
  {
    var twice, once := Pair([97], OfInt(1), [97], OfInt(1)), Pair([97], OfInt(1), [98], OfInt(2));
    ShapedPair([97], OfInt(1), [97], OfInt(1));
    ShapedPair([97], OfInt(1), [98], OfInt(2));
    assert Names(twice) == [[97], [97]] && Names(once) == [[97], [98]];
    assert Find([[97], [97]], [98], 0) == 2;
    assert !EqualMember(once, twice, 1, doubles);
    assert Names(twice)[0] == Names(twice)[1];
    assert forall i | 0 <= i < 2 :: EqualMember(twice, twice, i, doubles);
    assert forall i | 0 <= i < 2 :: EqualMember(twice, once, i, doubles);
  }

  lemma ShapedPair(name1: seq<bv8>, value1: Value, name2: seq<bv8>, value2: Value)
    requires Shaped(value1) && Shaped(value2)
    ensures var v := Pair(name1, value1, name2, value2);
            && Shaped(v) && Type(v) == OBJECT_TYPE
            && Names(v) == [name1, name2]
            && (Distinct(v) <==> Distinct(value1) && Distinct(value2) && name1 != name2)
  {
    var v := Pair(name1, value1, name2, value2);
    assert v.data.members[0].value == value1 && v.data.members[1].value == value2;
  }
}
