/**
 * The behaviour of the code the macro generates: a builder state with one
 * slot per field, the setters as state transitions, and `build`
 * (src/lib.rs, the `builder()`, setter and `build` bodies inside the quoted
 * code). Field values are abstract: strings, numbers, booleans and lists
 * stand in for whatever the field types hold.
 */
module Generated {

  import opened Results
  import opened Emitter

  /** A value of some field type. */
  datatype Value = Str(s: string) | Num(n: nat) | Bool(b: bool) | List(items: seq<Value>)

  /** The contents of one builder slot: an `Option<T>` or a `Vec<T>`. */
  datatype SlotState = OptionState(opt: Option<Value>) | VecState(items: seq<Value>)

  /** A `<Name>Builder` value: its slots, in field order. */
  datatype Builder = Builder(slots: seq<SlotState>)

  /** A setter's argument: one value, or a whole vector for a bulk setter. */
  datatype Arg = One(v: Value) | Many(vs: seq<Value>)

  /** A field of the assembled struct: `T`, `Option<T>` or `Vec<T>`. */
  datatype FieldValue = Plain(v: Value) | Maybe(opt: Option<Value>) | Values(vs: seq<Value>)

  /** One field of the assembled struct with its name. */
  datatype Member = Member(ident: string, value: FieldValue)

  /** A method call: which generated method, with which argument. */
  datatype Call = Call(setter: Method, arg: Arg)

  function KindOf(s: SlotState): SlotKind {
    if s.VecState? then VecSlot else OptionSlot
  }

  /** The state has the slots the builder struct declares. */
  predicate Fits(spec: BuilderSpec, b: Builder) {
    && |b.slots| == |spec.slots|
    && forall i :: 0 <= i < |b.slots| ==> KindOf(b.slots[i]) == spec.slots[i].kind
  }

  /** The argument has the parameter type the method declares: a Replace takes a vector, the others one value. */
  predicate ArgFits(m: Method, arg: Arg) {
    arg.Many? <==> m.kind == Replace
  }

  /** The call is to a method the builder has, with a well-typed argument. */
  predicate CallFits(spec: BuilderSpec, c: Call) {
    c.setter in spec.methods && ArgFits(c.setter, c.arg)
  }

  /** No slot has been given a value yet. */
  predicate IsEmpty(b: Builder) {
    forall i :: 0 <= i < |b.slots| ==> b.slots[i] == OptionState(None) || b.slots[i] == VecState([])
  }

  /** `Name::builder()`: every `Option` slot `None`, every `Vec` slot empty. */
  function Initial(spec: BuilderSpec): (b: Builder)
    requires Consistent(spec)
    ensures Fits(spec, b)
    ensures IsEmpty(b)
  {
    Builder(seq(|spec.defaults|, i requires 0 <= i < |spec.defaults| =>
      if spec.defaults[i].init == EmptyVecInit then VecState([]) else OptionState(None)))
  }

  /**
   * One setter call. The target slot becomes `Some(v)` for a plain setter,
   * gains `v` at its end for an `each` method, or becomes exactly the given
   * vector for a bulk setter; every other slot is left as it was.
   */
  function Apply(spec: BuilderSpec, b: Builder, c: Call): (b': Builder)
    requires Consistent(spec) && Fits(spec, b) && CallFits(spec, c)
    ensures Fits(spec, b')
    ensures forall j :: 0 <= j < |b.slots| && j != c.setter.target ==> b'.slots[j] == b.slots[j]
    ensures c.setter.kind == SetSome ==> b'.slots[c.setter.target] == OptionState(Some(c.arg.v))
    ensures c.setter.kind == Push ==>
              b'.slots[c.setter.target] == VecState(b.slots[c.setter.target].items + [c.arg.v])
    ensures c.setter.kind == Replace ==> b'.slots[c.setter.target] == VecState(c.arg.vs)
  {
    var t := c.setter.target;
    var s := match c.setter.kind
      case SetSome => OptionState(Some(c.arg.v))
      case Push => VecState(b.slots[t].items + [c.arg.v])
      case Replace => VecState(c.arg.vs);
    Builder(b.slots[t := s])
  }

  /** A chain of setter calls, left to right, as in `b.name(..).age(..)`. */
  function Run(spec: BuilderSpec, b: Builder, calls: seq<Call>): (b': Builder)
    requires Consistent(spec) && Fits(spec, b)
    requires forall k :: 0 <= k < |calls| ==> CallFits(spec, calls[k])
    ensures Fits(spec, b')
    decreases |calls|
  {
    if |calls| == 0 then b else Run(spec, Apply(spec, b, calls[0]), calls[1..])
  }

  /** Step `i` of `build` would fail: it unwraps a slot that is still `None`. */
  predicate Missing(spec: BuilderSpec, b: Builder, i: nat)
    requires Consistent(spec) && Fits(spec, b) && i < |spec.plan|
  {
    spec.plan[i].Unwrap? && b.slots[i] == OptionState(None)
  }

  /** Step `i` is the first failing step at or after step `k`. */
  predicate FirstMissing(spec: BuilderSpec, b: Builder, k: nat, i: nat)
    requires Consistent(spec) && Fits(spec, b)
  {
    && k <= i < |spec.plan|
    && Missing(spec, b, i)
    && forall j :: k <= j < i ==> !Missing(spec, b, j)
  }

  /** The message `build` reports for a missing required field. */
  function MissingMessage(ident: string): string {
    "missing required field: " + ident
  }

  /**
   * The struct field that step `i` produces from the slots of `b`. For an
   * unwrap of an empty slot the value is a placeholder that `build` never
   * returns, because it stops at that step with an error.
   */
  function StepValue(spec: BuilderSpec, b: Builder, i: nat): (v: FieldValue)
    requires Consistent(spec) && Fits(spec, b) && i < |spec.plan|
    ensures spec.plan[i].Unwrap? && !Missing(spec, b, i) ==>
              b.slots[i].OptionState? && b.slots[i].opt.Some? && v == Plain(b.slots[i].opt.value)
    ensures spec.plan[i].CopyOption? ==> b.slots[i].OptionState? && v == Maybe(b.slots[i].opt)
    ensures spec.plan[i].CopyVec? ==> b.slots[i].VecState? && v == Values(b.slots[i].items)
  {
    match spec.plan[i]
    case Unwrap(_, _) => Plain(if b.slots[i].opt.Some? then b.slots[i].opt.value else Str(""))
    case CopyOption(_, _) => Maybe(b.slots[i].opt)
    case CopyVec(_, _) => Values(b.slots[i].items)
  }

  /** Steps `k..` of `build`, stopping at the first one that fails. */
  function BuildFrom(spec: BuilderSpec, b: Builder, k: nat): (r: Result<seq<Member>, string>)
    requires Consistent(spec) && Fits(spec, b) && k <= |spec.plan|
    ensures r.Ok? <==> forall i :: k <= i < |spec.plan| ==> !Missing(spec, b, i)
    ensures r.Err? ==> exists i: nat :: FirstMissing(spec, b, k, i) && r.error == MissingMessage(spec.plan[i].ident)
    ensures r.Ok? ==> |r.value| == |spec.plan| - k
    ensures r.Ok? ==> forall i :: k <= i < |spec.plan| ==>
              r.value[i - k] == Member(spec.plan[i].ident, StepValue(spec, b, i))
    decreases |spec.plan| - k
  {
    if k == |spec.plan| then Ok([])
    else if Missing(spec, b, k) then
      assert FirstMissing(spec, b, k, k);
      Err(MissingMessage(spec.plan[k].ident))
    else match BuildFrom(spec, b, k + 1)
      case Err(e) =>
        FirstMissingEarlier(spec, b, k, e);
        Err(e)
      case Ok(rest) =>
        var r := [Member(spec.plan[k].ident, StepValue(spec, b, k))] + rest;
        assert forall j :: 0 <= j < |rest| ==> r[j + 1] == rest[j];
        Ok(r)
  }

  /** A step that does not fail, placed before the first failing step, leaves that step the first failing one. */
  lemma FirstMissingEarlier(spec: BuilderSpec, b: Builder, k: nat, e: string)
    requires Consistent(spec) && Fits(spec, b) && k < |spec.plan| && !Missing(spec, b, k)
    requires exists i: nat :: FirstMissing(spec, b, k + 1, i) && e == MissingMessage(spec.plan[i].ident)
    ensures exists i: nat :: FirstMissing(spec, b, k, i) && e == MissingMessage(spec.plan[i].ident)
  {
    var i: nat :| FirstMissing(spec, b, k + 1, i) && e == MissingMessage(spec.plan[i].ident);
    assert FirstMissing(spec, b, k, i);
  }

  /**
   * `build`: the struct, field by field in declaration order, when every
   * required slot holds a value; otherwise the error naming the first
   * required field, in declaration order, that was never set. Optional
   * slots are copied as they are and vectors are copied whole. The builder
   * is only read, so it is the same after `build` as before.
   */
  function Build(spec: BuilderSpec, b: Builder): (r: Result<seq<Member>, string>)
    requires Consistent(spec) && Fits(spec, b)
    ensures r.Ok? <==> forall i :: 0 <= i < |spec.plan| ==> !Missing(spec, b, i)
    ensures r.Err? ==> exists i: nat :: FirstMissing(spec, b, 0, i) && r.error == MissingMessage(spec.plan[i].ident)
    ensures r.Ok? ==> |r.value| == |spec.plan|
    ensures r.Ok? ==> forall i :: 0 <= i < |spec.plan| ==> r.value[i].ident == spec.plan[i].ident
    ensures r.Ok? ==> forall i :: 0 <= i < |spec.plan| ==>
              match spec.plan[i]
              case Unwrap(_, _) => b.slots[i].OptionState? && b.slots[i].opt.Some? && r.value[i].value == Plain(b.slots[i].opt.value)
              case CopyOption(_, _) => r.value[i].value == Maybe(b.slots[i].opt)
              case CopyVec(_, _) => r.value[i].value == Values(b.slots[i].items)
  {
    var r := BuildFrom(spec, b, 0);
    assert r.Ok? ==> forall i :: 0 <= i < |spec.plan| ==> r.value[i] == Member(spec.plan[i].ident, StepValue(spec, b, i));
    r
  }
}
