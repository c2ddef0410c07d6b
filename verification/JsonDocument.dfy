/** Trees to events and back: `Accept` compiles a value to the events of a handler, and a
  * document is a stack machine that runs them.
  */
module JsonDocument {
  import opened JsonValue
  import opened Wrappers

  datatype Event =
    | Null
    | Bool(b: bool)
    | Int(i: bv32)
    | Uint(u: bv32)
    | Int64(i64: bv64)
    | Uint64(u64: bv64)
    | Double(bits: bv64)
    | String(chars: seq<bv8>, copy: bool)
    | StartObject
    | Key(name: seq<bv8>, nameCopy: bool)
    | EndObject(memberCount: nat)
    | StartArray
    | EndArray(elementCount: nat)

  // ---------- The compiler ----------

  /** The lower half of the union, `n.i.i` or `n.u.u`. */
  function Low32(bits: bv64): bv32 {
    (bits & 0xFFFF_FFFF) as bv32
  }

  function NumberEvent(v: Value): Event
    requires v.data.Num?
  {
    var bits := v.data.bits;
    if Has(v, DOUBLE_FLAG) then Double(bits)
    else if Has(v, INT_FLAG) then Int(Low32(bits))
    else if Has(v, UINT_FLAG) then Uint(Low32(bits))
    else if Has(v, INT64_FLAG) then Int64(bits)
    else Uint64(bits)
  }

  function StringEvent(v: Value): Event
    requires IsString(v)
  {
    String(v.data.chars, Has(v, COPY_FLAG))
  }

  function KeyEvent(v: Value): Event
    requires IsString(v)
  {
    Key(v.data.chars, Has(v, COPY_FLAG))
  }

  /** A value that is neither an array nor an object. */
  predicate IsLeaf(v: Value) {
    Type(v) != OBJECT_TYPE && Type(v) != ARRAY_TYPE
  }

  function LeafEvent(v: Value): Event
    requires Shaped(v) && IsLeaf(v)
  {
    if Type(v) == NULL_TYPE then Null
    else if Type(v) == FALSE_TYPE then Bool(false)
    else if Type(v) == TRUE_TYPE then Bool(true)
    else if Type(v) == STRING_TYPE then StringEvent(v)
    else NumberEvent(v)
  }

  function Events(v: Value): seq<Event>
    requires Shaped(v)
    decreases v, 0
  {
    if Type(v) == OBJECT_TYPE then
      [StartObject] + MemberEvents(v, |v.data.members|) + [EndObject(|v.data.members|)]
    else if Type(v) == ARRAY_TYPE then
      [StartArray] + ElementEvents(v, |v.data.elements|) + [EndArray(|v.data.elements|)]
    else [LeafEvent(v)]
  }

  /** The events of the first `n` members. */
  function MemberEvents(v: Value, n: nat): seq<Event>
    requires Shaped(v) && Type(v) == OBJECT_TYPE && n <= |v.data.members|
    decreases v, 0, n
  {
    if n == 0 then []
    else
      var m := v.data.members[n - 1];
      MemberEvents(v, n - 1) + ([KeyEvent(m.name)] + Events(m.value))
  }

  function ElementEvents(v: Value, n: nat): seq<Event>
    requires Shaped(v) && Type(v) == ARRAY_TYPE && n <= |v.data.elements|
    decreases v, 0, n
  {
    if n == 0 then [] else ElementEvents(v, n - 1) + Events(v.data.elements[n - 1])
  }

  // ---------- The stack machine ----------

  function StringOf(chars: seq<bv8>, copy: bool): Value {
    if copy then CopyString(chars) else ConstString(chars)
  }

  /** Members as they lie on the stack, name and value in turn. */
  function Laid(members: seq<Member>): (vs: seq<Value>)
    ensures |vs| == 2 * |members|
  {
    seq(2 * |members|, i requires 0 <= i < 2 * |members| =>
      if i % 2 == 0 then members[i / 2].name else members[i / 2].value)
  }

  /** A stretch of stack read as members, as `Pop<Member>` does. */
  function Paired(vs: seq<Value>, n: nat): (members: seq<Member>)
    requires |vs| == 2 * n
    ensures |members| == n
  {
    seq(n, i requires 0 <= i < n => Member(vs[2 * i], vs[2 * i + 1]))
  }

  lemma PairedLaid(members: seq<Member>)
    ensures Paired(Laid(members), |members|) == members
  {
    forall i | 0 <= i < |members| ensures Paired(Laid(members), |members|)[i] == members[i] {
      assert (2 * i) / 2 == i && (2 * i + 1) / 2 == i;
    }
  }

  /** One event. `None` is a failed assertion of the stack: too little to pop. */
  function Step(stack: seq<Value>, e: Event): Option<seq<Value>> {
    match e
    case Null => Some(stack + [JsonValue.Null()])
    case Bool(b) => Some(stack + [OfBool(b)])
    case Int(i) => Some(stack + [OfInt(i)])
    case Uint(u) => Some(stack + [OfUint(u)])
    case Int64(i) => Some(stack + [OfInt64(i)])
    case Uint64(u) => Some(stack + [OfUint64(u)])
    case Double(bits) => Some(stack + [OfDouble(bits)])
    case String(chars, copy) => Some(stack + [StringOf(chars, copy)])
    case Key(chars, copy) => Some(stack + [StringOf(chars, copy)])
    case StartObject => Some(stack + [EmptyObject()])
    case StartArray => Some(stack + [EmptyArray()])
    case EndObject(n) =>
      if |stack| < 2 * n + 1 then None
      else
        var base := |stack| - 2 * n;
        Some(stack[..base - 1] + [OfObject(Paired(stack[base..], n))])
    case EndArray(n) =>
      if |stack| < n + 1 then None
      else
        var base := |stack| - n;
        Some(stack[..base - 1] + [OfArray(stack[base..])])
  }

  function Replay(stack: seq<Value>, events: seq<Event>): Option<seq<Value>> {
    if events == [] then Some(stack)
    else
      match Replay(stack, events[..|events| - 1])
      case None => None
      case Some(s) => Step(s, events[|events| - 1])
  }

  lemma {:induction false} ReplayConcat(stack: seq<Value>, a: seq<Event>, b: seq<Event>)
    requires Replay(stack, a).Some?
    ensures Replay(stack, a + b) == Replay(Replay(stack, a).value, b)
  {
    if b == [] {
      assert a + b == a;
    } else {
      assert (a + b)[..|a + b| - 1] == a + b[..|b| - 1];
      ReplayConcat(stack, a, b[..|b| - 1]);
    }
  }

  lemma NothingReplayed(stack: seq<Value>)
    ensures Replay(stack, []) == Some(stack)
  {
  }

  lemma ReplayOne(stack: seq<Value>, e: Event)
    ensures Replay(stack, [e]) == Step(stack, e)
  {
    assert Replay(stack, [e][..0]) == Some(stack);
  }

  // ---------- What the machine leaves ----------

  function RebuiltString(v: Value): Value
    requires IsString(v)
  {
    StringOf(v.data.chars, Has(v, COPY_FLAG))
  }

  function RebuiltNumber(v: Value): Value
    requires v.data.Num?
  {
    var bits := v.data.bits;
    if Has(v, DOUBLE_FLAG) then OfDouble(bits)
    else if Has(v, INT_FLAG) then OfInt(Low32(bits))
    else if Has(v, UINT_FLAG) then OfUint(Low32(bits))
    else if Has(v, INT64_FLAG) then OfInt64(bits)
    else OfUint64(bits)
  }

  /** The copy of a value: every part made again by the constructor its event names. */
  function Rebuilt(v: Value): Value
    requires Shaped(v)
    decreases v
  {
    if Type(v) == OBJECT_TYPE then
      var ms := v.data.members;
      OfObject(seq(|ms|, i requires 0 <= i < |ms| =>
        Member(RebuiltString(ms[i].name), Rebuilt(ms[i].value))))
    else if Type(v) == ARRAY_TYPE then
      var es := v.data.elements;
      OfArray(seq(|es|, i requires 0 <= i < |es| => Rebuilt(es[i])))
    else if Type(v) == NULL_TYPE then JsonValue.Null()
    else if Type(v) == FALSE_TYPE then OfBool(false)
    else if Type(v) == TRUE_TYPE then OfBool(true)
    else if Type(v) == STRING_TYPE then RebuiltString(v)
    else RebuiltNumber(v)
  }

  lemma LeafReplayed(v: Value, stack: seq<Value>)
    requires Shaped(v) && IsLeaf(v)
    ensures Step(stack, LeafEvent(v)) == Some(stack + [Rebuilt(v)])
  {
  }

  lemma KeyReplayed(name: Value, stack: seq<Value>)
    requires IsString(name)
    ensures Step(stack, KeyEvent(name)) == Some(stack + [RebuiltString(name)])
  {
  }

  lemma Opened(stack: seq<Value>)
    ensures Step(stack, StartObject) == Some(stack + [EmptyObject()])
    ensures Step(stack, StartArray) == Some(stack + [EmptyArray()])
  {
  }

  /** Closing an object pops exactly its members. */
  lemma ObjectClosed(stack: seq<Value>, members: seq<Member>)
    ensures Step(stack + [EmptyObject()] + Laid(members), EndObject(|members|))
         == Some(stack + [OfObject(members)])
  {
    var s := stack + [EmptyObject()] + Laid(members);
    var base := |s| - 2 * |members|;
    assert s[base..] == Laid(members);
    assert s[..base - 1] == stack;
    PairedLaid(members);
  }

  lemma ArrayClosed(stack: seq<Value>, elements: seq<Value>)
    ensures Step(stack + [EmptyArray()] + elements, EndArray(|elements|))
         == Some(stack + [OfArray(elements)])
  {
    var s := stack + [EmptyArray()] + elements;
    var base := |s| - |elements|;
    assert s[base..] == elements;
    assert s[..base - 1] == stack;
  }

  /** One more member is two more values. */
  lemma LaidOne(members: seq<Member>, n: nat)
    requires n < |members|
    ensures Laid(members[..n + 1]) == Laid(members[..n]) + [members[n].name, members[n].value]
  {
  }

  /** Compiler correctness. From any stack, the events of a value run without a failed
    * assertion and leave that stack with exactly the copy of the value on top. */
  lemma {:induction false} EventsLeaveValue(v: Value, stack: seq<Value>)
    requires Shaped(v)
    ensures Replay(stack, Events(v)) == Some(stack + [Rebuilt(v)])
    decreases v, 1
  {
    if Type(v) == OBJECT_TYPE {
      var ms := Rebuilt(v).data.members;
      var n := |ms|;
      ReplayOne(stack, StartObject);
      MembersLeaveMembers(v, n, stack + [EmptyObject()]);
      assert ms[..n] == ms;
      ReplayConcat(stack, [StartObject], MemberEvents(v, n));
      ObjectClosed(stack, ms);
      ReplayOne(stack + [EmptyObject()] + Laid(ms), EndObject(n));
      ReplayConcat(stack, [StartObject] + MemberEvents(v, n), [EndObject(n)]);
    } else if Type(v) == ARRAY_TYPE {
      var es := Rebuilt(v).data.elements;
      var n := |es|;
      ReplayOne(stack, StartArray);
      ElementsLeaveElements(v, n, stack + [EmptyArray()]);
      assert es[..n] == es;
      ReplayConcat(stack, [StartArray], ElementEvents(v, n));
      ArrayClosed(stack, es);
      ReplayOne(stack + [EmptyArray()] + es, EndArray(n));
      ReplayConcat(stack, [StartArray] + ElementEvents(v, n), [EndArray(n)]);
    } else {
      LeafReplayed(v, stack);
      ReplayOne(stack, LeafEvent(v));
    }
  }

  lemma {:induction false} MembersLeaveMembers(v: Value, n: nat, stack: seq<Value>)
    requires Shaped(v) && Type(v) == OBJECT_TYPE && n <= |v.data.members|
    ensures Replay(stack, MemberEvents(v, n)) == Some(stack + Laid(Rebuilt(v).data.members[..n]))
    decreases v, 0, n
  {
    hide Step, Laid, Has, LeafEvent, Replay, RebuiltString, KeyEvent, IsString;
    var ms := Rebuilt(v).data.members;
    if n == 0 {
      NothingReplayed(stack);
      assert stack + Laid(ms[..0]) == stack;
    } else {
      var m := v.data.members[n - 1];
      var before := stack + Laid(ms[..n - 1]);
      var after := before + [RebuiltString(m.name)];
      MembersLeaveMembers(v, n - 1, stack);
      KeyReplayed(m.name, before);
      ReplayOne(before, KeyEvent(m.name));
      EventsLeaveValue(m.value, after);
      ReplayConcat(before, [KeyEvent(m.name)], Events(m.value));
      ReplayConcat(stack, MemberEvents(v, n - 1), [KeyEvent(m.name)] + Events(m.value));
      LaidOne(ms, n - 1);
      assert after + [Rebuilt(m.value)] == stack + Laid(ms[..n]);
    }
  }

  lemma {:induction false} ElementsLeaveElements(v: Value, n: nat, stack: seq<Value>)
    requires Shaped(v) && Type(v) == ARRAY_TYPE && n <= |v.data.elements|
    ensures Replay(stack, ElementEvents(v, n)) == Some(stack + Rebuilt(v).data.elements[..n])
    decreases v, 0, n
  {
    hide Step, Has, LeafEvent, Replay, RebuiltString, RebuiltNumber, IsString;
    var es := Rebuilt(v).data.elements;
    if n == 0 {
      NothingReplayed(stack);
      assert stack + es[..0] == stack;
    } else {
      var before := stack + es[..n - 1];
      ElementsLeaveElements(v, n - 1, stack);
      EventsLeaveValue(v.data.elements[n - 1], before);
      ReplayConcat(stack, ElementEvents(v, n - 1), Events(v.data.elements[n - 1]));
      assert before + [es[n - 1]] == stack + es[..n];
    }
  }

  // ---------- The round trip ----------

  /** The value without spare capacity. */
  function Trimmed(v: Value): Value {
    match v.data
    case Arr(_, es) =>
      Value(v.flags, Arr(|es|, seq(|es|, i requires 0 <= i < |es| => Trimmed(es[i]))))
    case Obj(_, ms) =>
      Value(v.flags, Obj(|ms|, seq(|ms|, i requires 0 <= i < |ms| =>
        Member(ms[i].name, Trimmed(ms[i].value)))))
    case _ => v
  }

  /** A number that fits an `int`, not negative or negative, goes through the `int` event. */
  lemma SmallNumber(x: bv64)
    requires x & 0xFFFF_FFFF_8000_0000 == 0
    ensures !Has(OfInt64(x), DOUBLE_FLAG) && Has(OfInt64(x), INT_FLAG)
    ensures SignExtend(Low32(x)) == x
  {
  }

  lemma SmallNegative(x: bv64)
    requires x >= 0xFFFF_FFFF_8000_0000
    ensures !Has(OfInt64(x), DOUBLE_FLAG) && Has(OfInt64(x), INT_FLAG)
    ensures SignExtend(Low32(x)) == x
  {
  }

  /** One that fits only an `unsigned` goes through that event. */
  lemma UnsignedNumber(x: bv64)
    requires x & 0xFFFF_FFFF_8000_0000 != 0 && x & 0xFFFF_FFFF_0000_0000 == 0
    ensures !Has(OfInt64(x), DOUBLE_FLAG) && !Has(OfInt64(x), INT_FLAG) && Has(OfInt64(x), UINT_FLAG)
    ensures Low32(x) as bv64 == x && x & 0x8000_0000_0000_0000 == 0
  {
  }

  lemma LongNumber(x: bv64)
    requires x & 0xFFFF_FFFF_0000_0000 != 0 && x < 0xFFFF_FFFF_8000_0000
    ensures !Has(OfInt64(x), DOUBLE_FLAG) && !Has(OfInt64(x), INT_FLAG) && !Has(OfInt64(x), UINT_FLAG)
    ensures Has(OfInt64(x), INT64_FLAG)
  {
  }

  lemma HugeNumber(x: bv64)
    requires x & 0x8000_0000_0000_0000 != 0
    ensures !Has(OfUint64(x), DOUBLE_FLAG) && !Has(OfUint64(x), INT_FLAG)
    ensures !Has(OfUint64(x), UINT_FLAG) && !Has(OfUint64(x), INT64_FLAG)
  {
  }

  lemma WordCases(x: bv64)
    ensures x >= 0xFFFF_FFFF_8000_0000 ==> x & 0xFFFF_FFFF_0000_0000 != 0
    ensures x & 0xFFFF_FFFF_0000_0000 != 0 ==> x & 0xFFFF_FFFF_8000_0000 != 0
  {
  }

  lemma Int64RoundTrip(x: bv64)
    ensures RebuiltNumber(OfInt64(x)) == OfInt64(x)
  {
    var low := Low32(x);
    assert OfInt64(x).data == Num(x);
    WordCases(x);
    if x & 0xFFFF_FFFF_8000_0000 == 0 {
      SmallNumber(x);
      IntIsInt64(low);
      hide OfInt64, OfInt, SignExtend, Low32, Has;
    } else if x & 0xFFFF_FFFF_0000_0000 == 0 {
      UnsignedNumber(x);
      UintIsUint64(low);
      Int64IsUint64(x);
      hide OfInt64, OfUint64, OfUint, Low32, Has;
    } else if x < 0xFFFF_FFFF_8000_0000 {
      LongNumber(x);
      hide OfInt64, Low32, Has;
    } else {
      SmallNegative(x);
      IntIsInt64(low);
      hide OfInt64, OfInt, SignExtend, Low32, Has;
    }
  }

  lemma Uint64RoundTrip(x: bv64)
    ensures RebuiltNumber(OfUint64(x)) == OfUint64(x)
  {
    if x & 0x8000_0000_0000_0000 == 0 {
      Int64IsUint64(x);
      Int64RoundTrip(x);
      hide RebuiltNumber, OfInt64, OfUint64;
    } else {
      HugeNumber(x);
      hide OfUint64, Has;
    }
  }

  lemma DoubleRoundTrip(bits: bv64)
    ensures RebuiltNumber(OfDouble(bits)) == OfDouble(bits)
  {
  }

  lemma RebuiltNumberIsBuilt(v: Value)
    requires v.data.Num?
    ensures IsBuiltNumber(RebuiltNumber(v))
  {
    var low := Low32(v.data.bits);
    IntIsInt64(low);
    UintIsUint64(low);
    hide OfInt64, OfUint64, OfInt, OfUint, OfDouble, SignExtend, Low32, Has;
    assert OfInt(low) == OfInt64(SignExtend(low));
  }

  /** A number survives exactly when one of the number constructors made it. */
  lemma NumberRoundTrip(v: Value)
    requires v.data.Num?
    ensures RebuiltNumber(v) == v <==> IsBuiltNumber(v)
  {
    var bits := v.data.bits;
    RebuiltNumberIsBuilt(v);
    Int64RoundTrip(bits);
    Uint64RoundTrip(bits);
    DoubleRoundTrip(bits);
    hide RebuiltNumber, OfInt64, OfUint64, OfDouble;
  }

  lemma StringRoundTrip(v: Value)
    requires IsString(v)
    ensures RebuiltString(v) == v <==> IsBuiltString(v)
  {
  }

  lemma LeafRoundTrip(v: Value)
    requires Shaped(v) && IsLeaf(v)
    ensures Rebuilt(v) == v <==> Built(v)
  {
    if v.data.Num? {
      NumberRoundTrip(v);
    }
    if IsString(v) {
      StringRoundTrip(v);
    }
  }

  /** Running the events of a value leaves the value itself, spare capacity aside, exactly
    * when the typed constructors built it. */
  lemma {:induction false} RoundTrip(v: Value)
    requires Shaped(v)
    ensures Rebuilt(v) == Trimmed(v) <==> Built(v)
    decreases v
  {
    if Type(v) == OBJECT_TYPE {
      ObjectRoundTrip(v);
    } else if Type(v) == ARRAY_TYPE {
      ArrayRoundTrip(v);
    } else {
      LeafRoundTrip(v);
    }
  }

  lemma {:induction false} ObjectRoundTrip(v: Value)
    requires Shaped(v) && Type(v) == OBJECT_TYPE
    ensures Rebuilt(v) == Trimmed(v) <==> Built(v)
    decreases v, 0
  {
    hide Has, IsString, IsBuiltString, RebuiltString, RebuiltNumber;
    var ms, rs, ts := v.data.members, Rebuilt(v).data.members, Trimmed(v).data.members;
    forall i | 0 <= i < |ms|
      ensures rs[i] == ts[i] <==> IsBuiltString(ms[i].name) && Built(ms[i].value)
    {
      StringRoundTrip(ms[i].name);
      RoundTrip(ms[i].value);
      assert rs[i] == Member(RebuiltString(ms[i].name), Rebuilt(ms[i].value));
      assert ts[i] == Member(ms[i].name, Trimmed(ms[i].value));
    }
    assert rs == ts <==> forall i | 0 <= i < |ms| :: rs[i] == ts[i];
  }

  lemma {:induction false} ArrayRoundTrip(v: Value)
    requires Shaped(v) && Type(v) == ARRAY_TYPE
    ensures Rebuilt(v) == Trimmed(v) <==> Built(v)
    decreases v, 0
  {
    hide Has, IsString, IsBuiltString, RebuiltString, RebuiltNumber;
    var es, rs, ts := v.data.elements, Rebuilt(v).data.elements, Trimmed(v).data.elements;
    forall i | 0 <= i < |es| ensures rs[i] == ts[i] <==> Built(es[i]) {
      RoundTrip(es[i]);
    }
    assert rs == ts <==> forall i | 0 <= i < |es| :: rs[i] == ts[i];
  }

  /** The copy is always built, whatever was copied. */
  lemma {:induction false} RebuiltIsBuilt(v: Value)
    requires Shaped(v)
    ensures Built(Rebuilt(v))
    decreases v
  {
    hide Has, IsString, IsBuiltString, RebuiltNumber, StringOf;
    if Type(v) == OBJECT_TYPE {
      var ms := v.data.members;
      forall i | 0 <= i < |ms|
        ensures IsBuiltString(RebuiltString(ms[i].name)) && Built(Rebuilt(ms[i].value))
      {
        RebuiltStringIsBuilt(ms[i].name);
        RebuiltIsBuilt(ms[i].value);
      }
    } else if Type(v) == ARRAY_TYPE {
      forall i | 0 <= i < |v.data.elements| ensures Built(Rebuilt(v.data.elements[i])) {
        RebuiltIsBuilt(v.data.elements[i]);
      }
    } else if Type(v) == STRING_TYPE {
      RebuiltStringIsBuilt(v);
    } else if Type(v) == NUMBER_TYPE {
      RebuiltNumberIsBuilt(v);
    }
  }

  lemma RebuiltStringIsBuilt(v: Value)
    requires IsString(v)
    ensures IsBuiltString(RebuiltString(v))
  {
  }

  /** So a copy of a copy is the copy. */
  lemma CopyOfCopy(v: Value)
    requires Shaped(v)
    ensures Shaped(Rebuilt(v)) && Rebuilt(Rebuilt(v)) == Trimmed(Rebuilt(v))
  {
    RebuiltIsBuilt(v);
    BuiltIsShaped(Rebuilt(v));
    RoundTrip(Rebuilt(v));
  }

  /** The number constructor for no number in particular does not survive: its flags say
    * double before they say int. */
  lemma AnyNumberBecomesDouble()
    ensures Shaped(AnyNumber()) && !Built(AnyNumber())
    ensures Rebuilt(AnyNumber()) == OfDouble(0)
  {
  }

  // ---------- The document ----------

  class Document {
    var stack: seq<Value>
    var root: Value
    ghost var seen: seq<Event>

    constructor ()
      ensures stack == [] && root == JsonValue.Null() && seen == []
    {
      stack, root, seen := [], JsonValue.Null(), [];
    }

    twostate predicate Handled(e: Event)
      reads this
    {
      && seen == old(seen) + [e]
      && Step(old(stack), e) == Some(stack)
      && root == old(root)
    }

    method Null() returns (ok: bool)
      modifies this
      ensures ok && Handled(Event.Null)
    {
      stack := stack + [JsonValue.Null()];
      seen := seen + [Event.Null];
      return true;
    }

    method Bool(b: bool) returns (ok: bool)
      modifies this
      ensures ok && Handled(Event.Bool(b))
    {
      stack := stack + [OfBool(b)];
      seen := seen + [Event.Bool(b)];
      return true;
    }

    method Int(i: bv32) returns (ok: bool)
      modifies this
      ensures ok && Handled(Event.Int(i))
    {
      stack := stack + [OfInt(i)];
      seen := seen + [Event.Int(i)];
      return true;
    }

    method Uint(u: bv32) returns (ok: bool)
      modifies this
      ensures ok && Handled(Event.Uint(u))
    {
      stack := stack + [OfUint(u)];
      seen := seen + [Event.Uint(u)];
      return true;
    }

    method Int64(i: bv64) returns (ok: bool)
      modifies this
      ensures ok && Handled(Event.Int64(i))
    {
      stack := stack + [OfInt64(i)];
      seen := seen + [Event.Int64(i)];
      return true;
    }

    method Uint64(u: bv64) returns (ok: bool)
      modifies this
      ensures ok && Handled(Event.Uint64(u))
    {
      stack := stack + [OfUint64(u)];
      seen := seen + [Event.Uint64(u)];
      return true;
    }

    method Double(bits: bv64) returns (ok: bool)
      modifies this
      ensures ok && Handled(Event.Double(bits))
    {
      stack := stack + [OfDouble(bits)];
      seen := seen + [Event.Double(bits)];
      return true;
    }

    method String(chars: seq<bv8>, copy: bool) returns (ok: bool)
      modifies this
      ensures ok && Handled(Event.String(chars, copy))
    {
      if copy {
        stack := stack + [CopyString(chars)];
      } else {
        stack := stack + [ConstString(chars)];
      }
      seen := seen + [Event.String(chars, copy)];
      return true;
    }

    method Key(chars: seq<bv8>, copy: bool) returns (ok: bool)
      modifies this
      ensures ok && Handled(Event.Key(chars, copy))
    {
      ghost var before := seen;
      ok := String(chars, copy);
      seen := before + [Event.Key(chars, copy)];
    }

    method StartObject() returns (ok: bool)
      modifies this
      ensures ok && Handled(Event.StartObject)
    {
      stack := stack + [EmptyObject()];
      seen := seen + [Event.StartObject];
      return true;
    }

    method EndObject(memberCount: nat) returns (ok: bool)
      requires |stack| >= 2 * memberCount + 1
      modifies this
      ensures ok && Handled(Event.EndObject(memberCount))
    {
      var base := |stack| - 2 * memberCount;
      var members := Paired(stack[base..], memberCount);
      stack := stack[..base - 1] + [OfObject(members)];
      seen := seen + [Event.EndObject(memberCount)];
      return true;
    }

    method StartArray() returns (ok: bool)
      modifies this
      ensures ok && Handled(Event.StartArray)
    {
      stack := stack + [EmptyArray()];
      seen := seen + [Event.StartArray];
      return true;
    }

    method EndArray(elementCount: nat) returns (ok: bool)
      requires |stack| >= elementCount + 1
      modifies this
      ensures ok && Handled(Event.EndArray(elementCount))
    {
      var base := |stack| - elementCount;
      var elements := stack[base..];
      stack := stack[..base - 1] + [OfArray(elements)];
      seen := seen + [Event.EndArray(elementCount)];
      return true;
    }

    /** Populate the document with the events of `v`: `document.Populate(v)`, the deep copy. */
    method Populate(v: Value)
      requires Shaped(v) && stack == []
      modifies this
      ensures root == Rebuilt(v) && stack == []
      ensures Built(v) ==> root == Trimmed(v)
      ensures seen == old(seen) + Events(v)
    {
      var ok := Accept(v, this);
      if ok {
        root := stack[|stack| - 1];
      }
      stack := [];
      RoundTrip(v);
    }
  }

  /** Send the value to the document. */
  method Accept(v: Value, doc: Document) returns (ok: bool)
    requires Shaped(v)
    modifies doc
    ensures ok && doc.root == old(doc.root)
    ensures doc.seen == old(doc.seen) + Events(v)
    ensures doc.stack == old(doc.stack) + [Rebuilt(v)]
    decreases v, 2
  {
    if Type(v) == OBJECT_TYPE {
      ok := AcceptObject(v, doc);
    } else if Type(v) == ARRAY_TYPE {
      ok := AcceptArray(v, doc);
    } else {
      ok := AcceptLeaf(v, doc);
    }
  }

  method AcceptLeaf(v: Value, doc: Document) returns (ok: bool)
    requires Shaped(v) && IsLeaf(v)
    modifies doc
    ensures ok && doc.root == old(doc.root)
    ensures doc.seen == old(doc.seen) + [LeafEvent(v)]
    ensures doc.stack == old(doc.stack) + [Rebuilt(v)]
  {
    if Type(v) == NULL_TYPE {
      ok := doc.Null();
    } else if Type(v) == FALSE_TYPE {
      ok := doc.Bool(false);
    } else if Type(v) == TRUE_TYPE {
      ok := doc.Bool(true);
    } else if Type(v) == STRING_TYPE {
      ok := doc.String(v.data.chars, Has(v, COPY_FLAG));
    } else if Has(v, DOUBLE_FLAG) {
      ok := doc.Double(v.data.bits);
    } else if Has(v, INT_FLAG) {
      ok := doc.Int(Low32(v.data.bits));
    } else if Has(v, UINT_FLAG) {
      ok := doc.Uint(Low32(v.data.bits));
    } else if Has(v, INT64_FLAG) {
      ok := doc.Int64(v.data.bits);
    } else {
      ok := doc.Uint64(v.data.bits);
    }
    LeafReplayed(v, old(doc.stack));
  }

  method AcceptObject(v: Value, doc: Document) returns (ok: bool)
    requires Shaped(v) && Type(v) == OBJECT_TYPE
    modifies doc
    ensures ok && doc.root == old(doc.root)
    ensures doc.seen == old(doc.seen) + Events(v)
    ensures doc.stack == old(doc.stack) + [Rebuilt(v)]
    decreases v, 1
  {
    ghost var ms := Rebuilt(v).data.members;
    assert Rebuilt(v) == OfObject(ms) && |ms| == |v.data.members|;
    assert Events(v) == [StartObject] + MemberEvents(v, |ms|) + [EndObject(|ms|)];
    hide Rebuilt, Laid, Paired, Step, Events, MemberEvents;
    ok := doc.StartObject();
    Opened(old(doc.stack));
    if !ok { return false; }
    ok := AcceptMembers(v, doc);
    if !ok { return false; }
    ObjectClosed(old(doc.stack), ms);
    ok := doc.EndObject(|v.data.members|);
  }

  /** The loop over an object's members. */
  method AcceptMembers(v: Value, doc: Document) returns (ok: bool)
    requires Shaped(v) && Type(v) == OBJECT_TYPE
    modifies doc
    ensures ok && doc.root == old(doc.root)
    ensures doc.seen == old(doc.seen) + MemberEvents(v, |v.data.members|)
    ensures doc.stack == old(doc.stack) + Laid(Rebuilt(v).data.members)
    decreases v, 0
  {
    ghost var ms := Rebuilt(v).data.members;
    assert |ms| == |v.data.members|;
    assert MemberEvents(v, 0) == [];
    assert Laid(ms[..0]) == [];
    hide Rebuilt, RebuiltString, Laid, Events, MemberEvents;
    var i := 0;
    while i < |v.data.members|
      invariant 0 <= i <= |ms|
      invariant doc.root == old(doc.root)
      invariant doc.seen == old(doc.seen) + MemberEvents(v, i)
      invariant doc.stack == old(doc.stack) + Laid(ms[..i])
    {
      ok := AcceptMember(v.data.members[i], doc);
      if !ok { return false; }
      MemberReplayed(v, i);
      i := i + 1;
    }
    assert ms[..i] == ms;
    ok := true;
  }

  lemma MemberReplayed(v: Value, n: nat)
    requires Shaped(v) && Type(v) == OBJECT_TYPE && n < |v.data.members|
    ensures var m, ms := v.data.members[n], Rebuilt(v).data.members;
            && |ms| == |v.data.members|
            && MemberEvents(v, n + 1) == MemberEvents(v, n) + ([KeyEvent(m.name)] + Events(m.value))
            && Laid(ms[..n + 1]) == Laid(ms[..n]) + [RebuiltString(m.name), Rebuilt(m.value)]
  {
    hide Laid, RebuiltString;
    LaidOne(Rebuilt(v).data.members, n);
  }

  method AcceptMember(m: Member, doc: Document) returns (ok: bool)
    requires IsString(m.name) && Shaped(m.value)
    modifies doc
    ensures ok && doc.root == old(doc.root)
    ensures doc.seen == old(doc.seen) + ([KeyEvent(m.name)] + Events(m.value))
    ensures doc.stack == old(doc.stack) + [RebuiltString(m.name), Rebuilt(m.value)]
    decreases m, 0
  {
    hide Has, Events, Rebuilt, RebuiltString, Step;
    KeyReplayed(m.name, doc.stack);
    ok := doc.Key(m.name.data.chars, Has(m.name, COPY_FLAG));
    if !ok { return false; }
    ok := Accept(m.value, doc);
  }

  method AcceptArray(v: Value, doc: Document) returns (ok: bool)
    requires Shaped(v) && Type(v) == ARRAY_TYPE
    modifies doc
    ensures ok && doc.root == old(doc.root)
    ensures doc.seen == old(doc.seen) + Events(v)
    ensures doc.stack == old(doc.stack) + [Rebuilt(v)]
    decreases v, 0
  {
    hide Has, LeafEvent, RebuiltNumber, IsString, Step;
    var elements := v.data.elements;
    ghost var es := Rebuilt(v).data.elements;
    ghost var before, base := old(doc.seen) + [StartArray], old(doc.stack) + [EmptyArray()];
    ok := doc.StartArray();
    Opened(old(doc.stack));
    if !ok { return false; }
    var i := 0;
    while i < |elements|
      invariant 0 <= i <= |elements|
      invariant doc.root == old(doc.root)
      invariant doc.seen == before + ElementEvents(v, i)
      invariant doc.stack == base + es[..i]
    {
      ok := Accept(elements[i], doc);
      if !ok { return false; }
      i := i + 1;
    }
    assert es[..i] == es;
    ArrayClosed(old(doc.stack), es);
    ok := doc.EndArray(|elements|);
  }
}
