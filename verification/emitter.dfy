/**
 * What `_derive_strict_builder` in src/lib.rs emits, as data rather than
 * tokens: the `<Name>Builder` storage slots, the defaults of
 * `Name::builder()`, the setter methods, and the plan `build` follows.
 */
module Emitter {

  import opened Results
  import opened Syntax
  import opened Classify
  import opened Aggregate

  /** A storage slot is `Option<T>` or `Vec<T>`. */
  datatype SlotKind = OptionSlot | VecSlot

  /** One builder field: its name, its kind, and the `T` inside `Option<T>`/`Vec<T>`. */
  datatype Slot = Slot(ident: string, kind: SlotKind, ty: Type)

  /** The initial value of a slot in `builder()`: `None` or `Vec::new()`. */
  datatype Init = NoneInit | EmptyVecInit

  datatype Default = Default(ident: string, init: Init)

  /** What a setter does to its slot: store `Some(v)`, push `v`, or replace the whole vector. */
  datatype MethodKind = SetSome | Push | Replace

  /**
   * A generated method `name`, acting on slot number `target`. `param` is
   * the `T` of the parameter; a Replace method takes `Vec<T>`.
   */
  datatype Method = Method(name: string, kind: MethodKind, target: nat, param: Type)

  /** One field initialiser of `build`: unwrap a required slot, or copy an optional or vector slot. */
  datatype Step =
    | Unwrap(ident: string, slot: nat)
    | CopyOption(ident: string, slot: nat)
    | CopyVec(ident: string, slot: nat)

  /** Everything the macro emits for one struct. */
  datatype BuilderSpec = BuilderSpec(
    name: string,
    builderName: string,
    slots: seq<Slot>,
    defaults: seq<Default>,
    methods: seq<Method>,
    plan: seq<Step>)

  /** The slot kind a method needs: SetSome works on `Option`, Push and Replace on `Vec`. */
  function TargetKind(k: MethodKind): SlotKind {
    if k == SetSome then OptionSlot else VecSlot
  }

  /** The slot kind a build step reads. */
  function StepKind(s: Step): SlotKind {
    if s.CopyVec? then VecSlot else OptionSlot
  }

  /** The emitted pieces agree with each other: one default and one step per slot, in slot order, and every method aims at a slot of the right kind. */
  predicate Consistent(spec: BuilderSpec) {
    && |spec.defaults| == |spec.slots|
    && |spec.plan| == |spec.slots|
    && (forall i :: 0 <= i < |spec.slots| ==>
          && spec.defaults[i].ident == spec.slots[i].ident
          && (spec.defaults[i].init == EmptyVecInit <==> spec.slots[i].kind == VecSlot)
          && spec.plan[i].slot == i
          && spec.plan[i].ident == spec.slots[i].ident
          && StepKind(spec.plan[i]) == spec.slots[i].kind)
    && (forall m :: m in spec.methods ==>
          m.target < |spec.slots| && TargetKind(m.kind) == spec.slots[m.target].kind)
  }

  /**
   * The setters of field `f` stored in slot `i`. A Required or Optional
   * field gets one setter storing `Some(v)` under its own name. A
   * Repeatable field gets an `each` method under its annotation's name, and
   * a bulk setter under its own name unless the two names coincide.
   */
  function FieldMethods(f: Field, i: nat): (ms: seq<Method>)
    ensures forall m :: m in ms ==> m.target == i && m.param == f.ty
    ensures forall m :: m in ms ==> TargetKind(m.kind) == (if f.Repeatable? then VecSlot else OptionSlot)
    ensures forall m :: m in ms ==> m.name == (if m.kind == Push && f.Repeatable? then f.eachIdent else f.ident)
    ensures !f.Repeatable? ==> ms == [Method(f.ident, SetSome, i, f.ty)]
    ensures f.Repeatable? ==> Method(f.eachIdent, Push, i, f.ty) in ms
    ensures (exists m :: m in ms && m.kind == Replace) <==> f.Repeatable? && f.eachIdent != f.ident
  {
    match f
    case Required(ident, ty) => [Method(ident, SetSome, i, ty)]
    case Optional(ident, ty) => [Method(ident, SetSome, i, ty)]
    case Repeatable(ident, ty, each) =>
      [Method(each, Push, i, ty)] + (if ident == each then [] else [Method(ident, Replace, i, ty)])
  }

  /**
   * The setters of fields `k..`, field after field. Each method belongs to
   * the field whose slot it targets, every field's setters are present, and
   * the methods come in field order.
   */
  function MethodsFrom(fields: seq<Field>, k: nat): (ms: seq<Method>)
    requires k <= |fields|
    ensures forall m :: m in ms ==> k <= m.target < |fields| && m in FieldMethods(fields[m.target], m.target)
    ensures forall j, m :: k <= j < |fields| && m in FieldMethods(fields[j], j) ==> m in ms
    ensures forall a, b :: 0 <= a <= b < |ms| ==> ms[a].target <= ms[b].target
    decreases |fields| - k
  {
    if k == |fields| then []
    else FieldMethods(fields[k], k) + MethodsFrom(fields, k + 1)
  }

  /** One slot per field, in field order. */
  function SlotsOf(fields: seq<Field>): (slots: seq<Slot>)
    ensures |slots| == |fields|
    ensures forall i :: 0 <= i < |fields| ==>
              slots[i] == Slot(fields[i].ident, if fields[i].Repeatable? then VecSlot else OptionSlot, fields[i].ty)
  {
    seq(|fields|, i requires 0 <= i < |fields| =>
      Slot(fields[i].ident, if fields[i].Repeatable? then VecSlot else OptionSlot, fields[i].ty))
  }

  /** One initialiser per field, in field order. */
  function DefaultsOf(fields: seq<Field>): (ds: seq<Default>)
    ensures |ds| == |fields|
    ensures forall i :: 0 <= i < |fields| ==>
              ds[i] == Default(fields[i].ident, if fields[i].Repeatable? then EmptyVecInit else NoneInit)
  {
    seq(|fields|, i requires 0 <= i < |fields| =>
      Default(fields[i].ident, if fields[i].Repeatable? then EmptyVecInit else NoneInit))
  }

  function StepOf(f: Field, i: nat): (s: Step)
    ensures s.slot == i && s.ident == f.ident
    ensures s.Unwrap? <==> f.Required?
    ensures s.CopyVec? <==> f.Repeatable?
  {
    match f
    case Required(ident, _) => Unwrap(ident, i)
    case Optional(ident, _) => CopyOption(ident, i)
    case Repeatable(ident, _, _) => CopyVec(ident, i)
  }

  /** One build step per field, in field order. */
  function PlanOf(fields: seq<Field>): (plan: seq<Step>)
    ensures |plan| == |fields|
    ensures forall i :: 0 <= i < |fields| ==> plan[i] == StepOf(fields[i], i)
  {
    seq(|fields|, i requires 0 <= i < |fields| => StepOf(fields[i], i))
  }

  /**
   * The builder for struct `name` with classified `fields`. Slots,
   * defaults and build steps follow field order; Required and Optional
   * fields get an `Option` slot starting at `None`, Repeatable fields a
   * `Vec` slot starting empty; `build` unwraps exactly the Required slots.
   */
  function Emit(name: string, fields: seq<Field>): (spec: BuilderSpec)
    ensures spec.name == name && spec.builderName == name + "Builder"
    ensures Consistent(spec)
    ensures |spec.slots| == |fields|
    ensures forall i :: 0 <= i < |fields| ==>
              && spec.slots[i].ident == fields[i].ident
              && spec.slots[i].ty == fields[i].ty
              && (spec.slots[i].kind == VecSlot <==> fields[i].Repeatable?)
              && (spec.plan[i].Unwrap? <==> fields[i].Required?)
    ensures forall m :: m in spec.methods ==> m.target < |fields| && m in FieldMethods(fields[m.target], m.target)
    ensures forall i, m :: 0 <= i < |fields| && m in FieldMethods(fields[i], i) ==> m in spec.methods
    ensures forall a, b :: 0 <= a <= b < |spec.methods| ==> spec.methods[a].target <= spec.methods[b].target
  {
    BuilderSpec(name, name + "Builder", SlotsOf(fields), DefaultsOf(fields), MethodsFrom(fields, 0), PlanOf(fields))
  }

  /**
   * The whole macro: classify the fields (all errors gathered) and emit the
   * builder only when every field classified.
   */
  function DeriveStrictBuilder(input: DeriveInput): (r: Result<BuilderSpec, Error>)
    ensures r.Ok? <==> ParseFields(input).Ok?
    ensures r.Err? ==> r == Err(ParseFields(input).error)
    ensures r.Ok? ==> r.value.builderName == input.ident + "Builder"
    ensures r.Ok? ==> |r.value.slots| == |input.data.fields|
    ensures r.Ok? ==> forall i :: 0 <= i < |r.value.slots| ==>
              input.data.fields[i].ident == Some(r.value.slots[i].ident)
    ensures r.Ok? ==> Consistent(r.value)
    ensures r.Ok? ==> forall i :: 0 <= i < |r.value.slots| ==>
              && ParseField(input.data.fields[i]).Ok?
              && r.value.slots[i].ty == ParseField(input.data.fields[i]).value.ty
              && (r.value.slots[i].kind == VecSlot <==> ParseField(input.data.fields[i]).value.Repeatable?)
              && (r.value.plan[i].Unwrap? <==> ParseField(input.data.fields[i]).value.Required?)
    ensures r.Ok? ==> forall m :: m in r.value.methods ==>
              m.target < |input.data.fields| && m in FieldMethods(ParseField(input.data.fields[m.target]).value, m.target)
    ensures r.Ok? ==> forall i, m :: 0 <= i < |input.data.fields| && m in FieldMethods(ParseField(input.data.fields[i]).value, i) ==>
              m in r.value.methods
  {
    match ParseFields(input)
    case Err(e) => Err(e)
    case Ok(fields) => Ok(Emit(input.ident, fields))
  }

  /**
   * The setters aimed at a field's slot: one SetSome named after a Required
   * or Optional field; for a Repeatable field a Push named by its `each`
   * annotation, and any Replace named after the field.
   */
  lemma SettersOfField(name: string, fields: seq<Field>, i: nat)
    requires i < |fields|
    ensures var ms := Emit(name, fields).methods;
      && (!fields[i].Repeatable? ==> Method(fields[i].ident, SetSome, i, fields[i].ty) in ms)
      && (fields[i].Repeatable? ==> Method(fields[i].eachIdent, Push, i, fields[i].ty) in ms)
      && (forall m :: m in ms && m.target == i && m.kind == SetSome ==> m.name == fields[i].ident)
      && (forall m :: m in ms && m.target == i && m.kind == Replace ==> m.name == fields[i].ident)
      && (forall m :: m in ms && m.target == i && m.kind == Push ==> m.name == fields[i].eachIdent)
  {
    var own := FieldMethods(fields[i], i);
    assert own[0] in Emit(name, fields).methods;
  }

  /**
   * A field has a bulk setter exactly when it is Repeatable and its `each`
   * name differs from its own name.
   */
  lemma BulkSetterOfField(name: string, fields: seq<Field>, i: nat)
    requires i < |fields|
    ensures var ms := Emit(name, fields).methods;
      (exists m :: m in ms && m.target == i && m.kind == Replace)
      <==> fields[i].Repeatable? && fields[i].eachIdent != fields[i].ident
  {
    var ms := Emit(name, fields).methods;
    var own := FieldMethods(fields[i], i);
    if fields[i].Repeatable? && fields[i].eachIdent != fields[i].ident {
      assert own[1] in ms;
    }
  }

  /** The struct whose fields declare `fields`, in order (see `Classify.Declare`). */
  function DeclareAll(name: string, fields: seq<Field>): (input: DeriveInput)
    ensures input.data.Struct? && |input.data.fields| == |fields|
    ensures forall i :: 0 <= i < |fields| ==> input.data.fields[i] == Declare(fields[i])
  {
    DeriveInput(name, Struct(seq(|fields|, i requires 0 <= i < |fields| => Declare(fields[i]))))
  }

  /**
   * Writing classified fields back as a struct declaration and deriving
   * from it emits the builder for exactly those fields: classification
   * loses nothing and keeps the order.
   */
  lemma DeriveDeclared(name: string, fields: seq<Field>)
    requires forall i :: 0 <= i < |fields| ==> Declarable(fields[i])
    ensures DeriveStrictBuilder(DeclareAll(name, fields)) == Ok(Emit(name, fields))
  {
    var input := DeclareAll(name, fields);
    forall i | 0 <= i < |fields|
      ensures ParseField(input.data.fields[i]) == Ok(fields[i])
    {
      ClassifyDeclare(fields[i]);
    }
    var r := ParseFields(input);
    assert r.Ok?;
    assert r.value == fields;
  }
}
