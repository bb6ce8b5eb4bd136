/**
 * The annotated `Player` of tests/07-repeated-field.rs run through the
 * model: the macro's classification of its fields, the setter chain the
 * test makes, and what `build` returns; then an Optional field set or
 * left unset in any builder, and a few malformed inputs.
 *
 * Lemmas about the one struct or the one chain of the test take it as a
 * parameter pinned by a `requires` (`fields == PlayerFields()`,
 * `calls == PlayerCalls()`) rather than naming the constant in their
 * contract: the solver then keeps the literal folded unless a proof step
 * asks for its elements, which keeps each proof small.
 */
module Scenarios {

  import opened Results
  import opened Syntax
  import opened Wrapped
  import opened EachAttr
  import opened Classify
  import opened Aggregate
  import opened Emitter
  import opened Generated
  import opened BuilderLaws

  function Named(ty: string): Type {
    PathType(false, SimplePath(ty))
  }

  /** `Player` of tests/07-repeated-field.rs, as classified fields. */
  function PlayerFields(): seq<Field> {
    [ Required("name", Named("String")),
      Required("age", Named("u8")),
      Repeatable("friends", Named("String"), "friend"),
      Repeatable("siblings", Named("String"), "siblings"),
      Required("swimming", Named("bool")),
      Required("running", Named("bool")) ]
  }

  /** The macro classifies the annotated `Player` as written and emits `PlayerBuilder`. */
  lemma PlayerDerives(fields: seq<Field>)
    requires fields == PlayerFields()
    ensures DeriveStrictBuilder(DeclareAll("Player", fields)) == Ok(Emit("Player", fields))
  {
    PlayerDeclarable(fields);
    DeriveDeclared("Player", fields);
  }

  lemma PlayerDeclarable(fields: seq<Field>)
    requires fields == PlayerFields()
    ensures forall i :: 0 <= i < |fields| ==> Declarable(fields[i])
  {
  }

  /** The setter chain of tests/07-repeated-field.rs lines 18-26. */
  function PlayerCalls(): seq<Call> {
    [ Call(Method("name", SetSome, 0, Named("String")), One(Str("Kvothe"))),
      Call(Method("age", SetSome, 1, Named("u8")), One(Num(16))),
      Call(Method("friends", Replace, 2, Named("String")), Many([Str("Willem"), Str("Simmon")])),
      Call(Method("friend", Push, 2, Named("String")), One(Str("Devi"))),
      Call(Method("siblings", Push, 3, Named("String")), One(Str("Auri"))),
      Call(Method("siblings", Push, 3, Named("String")), One(Str("Devi"))),
      Call(Method("swimming", SetSome, 4, Named("bool")), One(Bool(true))),
      Call(Method("running", SetSome, 5, Named("bool")), One(Bool(false))) ]
  }

  /** The build steps `PlayerBuilder::build` takes, in field order. */
  function PlayerPlan(): seq<Step> {
    [ Unwrap("name", 0), Unwrap("age", 1), CopyVec("friends", 2), CopyVec("siblings", 3),
      Unwrap("swimming", 4), Unwrap("running", 5) ]
  }

  /** What the setter chain needs to know of the emitted `PlayerBuilder`. */
  predicate PlayerShape(spec: BuilderSpec, calls: seq<Call>) {
    && Consistent(spec)
    && spec.plan == PlayerPlan()
    && forall k :: 0 <= k < |calls| ==> CallFits(spec, calls[k])
  }

  /** The emitted `PlayerBuilder` has the setters the test calls, and `siblings` has no bulk setter. */
  lemma PlayerEmitted(fields: seq<Field>, calls: seq<Call>)
    requires fields == PlayerFields() && calls == PlayerCalls()
    ensures PlayerShape(Emit("Player", fields), calls)
    ensures forall m :: m in Emit("Player", fields).methods && m.target == 3 ==> m.kind == Push
  {
    PlayerPlanEmitted(fields);
    PlayerCallsExist(fields, calls);
    SettersOfField("Player", fields, 3);
    BulkSetterOfField("Player", fields, 3);
  }

  lemma PlayerPlanEmitted(fields: seq<Field>)
    requires fields == PlayerFields()
    ensures Emit("Player", fields).plan == PlayerPlan()
  {
    assert Emit("Player", fields).plan == PlanOf(fields);
    PlayerPlanOf(fields);
  }

  lemma PlayerPlanOf(fields: seq<Field>)
    requires fields == PlayerFields()
    ensures PlanOf(fields) == PlayerPlan()
  {
    var plan := PlanOf(fields);
    forall i | 0 <= i < 6
      ensures plan[i] == PlayerPlan()[i]
    {
      assert plan[i] == StepOf(fields[i], i);
    }
  }

  lemma PlayerCallsExist(fields: seq<Field>, calls: seq<Call>)
    requires fields == PlayerFields() && calls == PlayerCalls()
    ensures forall k :: 0 <= k < |calls| ==> CallFits(Emit("Player", fields), calls[k])
  {
    forall k | 0 <= k < |calls|
      ensures CallFits(Emit("Player", fields), calls[k])
    {
      var m := calls[k].setter;
      assert m in FieldMethods(fields[m.target], m.target);
    }
  }

  /** The builder's slots before the chain and after each of its calls. */
  function PlayerStates(): seq<seq<SlotState>> {
    [ [OptionState(None), OptionState(None), VecState([]), VecState([]), OptionState(None), OptionState(None)],
      [OptionState(Some(Str("Kvothe"))), OptionState(None), VecState([]), VecState([]), OptionState(None), OptionState(None)],
      [OptionState(Some(Str("Kvothe"))), OptionState(Some(Num(16))), VecState([]), VecState([]), OptionState(None), OptionState(None)],
      [OptionState(Some(Str("Kvothe"))), OptionState(Some(Num(16))), VecState([Str("Willem"), Str("Simmon")]), VecState([]), OptionState(None), OptionState(None)],
      [OptionState(Some(Str("Kvothe"))), OptionState(Some(Num(16))), VecState([Str("Willem"), Str("Simmon"), Str("Devi")]), VecState([]), OptionState(None), OptionState(None)],
      [OptionState(Some(Str("Kvothe"))), OptionState(Some(Num(16))), VecState([Str("Willem"), Str("Simmon"), Str("Devi")]), VecState([Str("Auri")]), OptionState(None), OptionState(None)],
      [OptionState(Some(Str("Kvothe"))), OptionState(Some(Num(16))), VecState([Str("Willem"), Str("Simmon"), Str("Devi")]), VecState([Str("Auri"), Str("Devi")]), OptionState(None), OptionState(None)],
      [OptionState(Some(Str("Kvothe"))), OptionState(Some(Num(16))), VecState([Str("Willem"), Str("Simmon"), Str("Devi")]), VecState([Str("Auri"), Str("Devi")]), OptionState(Some(Bool(true))), OptionState(None)],
      [OptionState(Some(Str("Kvothe"))), OptionState(Some(Num(16))), VecState([Str("Willem"), Str("Simmon"), Str("Devi")]), VecState([Str("Auri"), Str("Devi")]), OptionState(Some(Bool(true))), OptionState(Some(Bool(false)))] ]
  }

  /** The builder states of the table all have `PlayerBuilder`'s slots. */
  lemma PlayerStatesFit(spec: BuilderSpec, calls: seq<Call>, k: nat)
    requires calls == PlayerCalls() && PlayerShape(spec, calls) && k < 9
    ensures Fits(spec, Builder(PlayerStates()[k]))
  {
    var slots := PlayerStates()[k];
    forall i | 0 <= i < 6
      ensures KindOf(slots[i]) == spec.slots[i].kind
    {
      assert spec.slots[i].kind == StepKind(spec.plan[i]);
    }
  }

  /** Call `k` of the chain takes the builder from state `k` to state `k + 1`. */
  lemma PlayerStep(spec: BuilderSpec, calls: seq<Call>, k: nat)
    requires calls == PlayerCalls() && PlayerShape(spec, calls) && k < 8
    requires Fits(spec, Builder(PlayerStates()[k]))
    ensures Apply(spec, Builder(PlayerStates()[k]), calls[k]) == Builder(PlayerStates()[k + 1])
  {
    var before := PlayerStates()[k];
    var after := Apply(spec, Builder(before), calls[k]).slots;
    var expected := PlayerStates()[k + 1];
    var t := calls[k].setter.target;
    PlayerTableFrame(calls, k);
    PlayerTableTarget(spec, calls, k);
    assert |after| == |expected| == 6;
    forall i | 0 <= i < 6
      ensures after[i] == expected[i]
    {
      if i != t {
        assert after[i] == before[i];
      }
    }
  }

  /** Consecutive states of the table differ at most in the slot the call between them targets. */
  lemma PlayerTableFrame(calls: seq<Call>, k: nat)
    requires calls == PlayerCalls() && k < 8
    ensures forall i :: 0 <= i < 6 && i != calls[k].setter.target ==> PlayerStates()[k + 1][i] == PlayerStates()[k][i]
  {
  }

  /** Call `k` gives its target slot the contents the next state of the table lists. */
  lemma PlayerTableTarget(spec: BuilderSpec, calls: seq<Call>, k: nat)
    requires calls == PlayerCalls() && PlayerShape(spec, calls) && k < 8
    requires Fits(spec, Builder(PlayerStates()[k]))
    ensures calls[k].setter.target < 6
    ensures Apply(spec, Builder(PlayerStates()[k]), calls[k]).slots[calls[k].setter.target]
         == PlayerStates()[k + 1][calls[k].setter.target]
  {
  }

  /** The slots after the chain of tests/07-repeated-field.rs lines 18-26. */
  lemma PlayerChain(spec: BuilderSpec, calls: seq<Call>)
    requires calls == PlayerCalls() && PlayerShape(spec, calls)
    ensures Run(spec, Initial(spec), calls).slots == PlayerStates()[8]
  {
    var b0 := Initial(spec);
    var states := PlayerStates();
    PlayerStatesFit(spec, calls, 0);
    assert b0.slots == states[0] by {
      forall i | 0 <= i < 6
        ensures b0.slots[i] == states[0][i]
      {
        assert KindOf(b0.slots[i]) == spec.slots[i].kind == StepKind(spec.plan[i]);
      }
    }
    PlayerRunFrom(spec, calls, 0);
    assert calls[0..] == calls;
  }

  /** From state `k`, the remaining calls lead to the final state. */
  lemma {:induction false} PlayerRunFrom(spec: BuilderSpec, calls: seq<Call>, k: nat)
    requires calls == PlayerCalls() && PlayerShape(spec, calls) && k <= 8
    ensures Fits(spec, Builder(PlayerStates()[k]))
    ensures Run(spec, Builder(PlayerStates()[k]), calls[k..]) == Builder(PlayerStates()[8])
    decreases 8 - k
  {
    PlayerStatesFit(spec, calls, k);
    if k < 8 {
      PlayerStep(spec, calls, k);
      PlayerRunFrom(spec, calls, k + 1);
      assert calls[k..][0] == calls[k];
      assert calls[k..][1..] == calls[k + 1..];
    }
  }

  /**
   * The chain of tests/07-repeated-field.rs builds the player the test
   * expects: the bulk `friends` list followed by the appended friend, and
   * the siblings in call order through the `each` method that shares the
   * field's name.
   */
  lemma PlayerRepeatedFieldScenario(fields: seq<Field>, calls: seq<Call>)
    requires fields == PlayerFields() && calls == PlayerCalls()
    ensures var spec := Emit("Player", fields);
      && (forall k :: 0 <= k < |calls| ==> CallFits(spec, calls[k]))
      && Build(spec, Run(spec, Initial(spec), calls)) == Ok(ExpectedPlayer())
  {
    var spec := Emit("Player", fields);
    PlayerEmitted(fields, calls);
    PlayerBuilds(spec, calls);
  }

  /** The player the test expects. */
  function ExpectedPlayer(): seq<Member> {
    [ Member("name", Plain(Str("Kvothe"))),
      Member("age", Plain(Num(16))),
      Member("friends", Values([Str("Willem"), Str("Simmon"), Str("Devi")])),
      Member("siblings", Values([Str("Auri"), Str("Devi")])),
      Member("swimming", Plain(Bool(true))),
      Member("running", Plain(Bool(false))) ]
  }

  lemma PlayerBuilds(spec: BuilderSpec, calls: seq<Call>)
    requires calls == PlayerCalls() && PlayerShape(spec, calls)
    ensures Build(spec, Run(spec, Initial(spec), calls)) == Ok(ExpectedPlayer())
  {
    PlayerChain(spec, calls);
    PlayerStatesFit(spec, calls, 8);
    PlayerBuildsFinal(spec, Run(spec, Initial(spec), calls));
  }

  /** `build` on the final state returns the expected player. */
  lemma PlayerBuildsFinal(spec: BuilderSpec, b: Builder)
    requires Consistent(spec) && spec.plan == PlayerPlan()
    requires b.slots == PlayerStates()[8] && Fits(spec, b)
    ensures Build(spec, b) == Ok(ExpectedPlayer())
  {
    PlayerNothingMissing(spec, b);
    var r := Build(spec, b);
    var expected := ExpectedPlayer();
    forall i | 0 <= i < 6
      ensures r.value[i] == expected[i]
    {
      PlayerMember(spec, b, r.value, i);
    }
    assert r.value == expected;
  }

  /** Every required slot of the final state holds a value. */
  lemma PlayerNothingMissing(spec: BuilderSpec, b: Builder)
    requires Consistent(spec) && spec.plan == PlayerPlan()
    requires b.slots == PlayerStates()[8] && Fits(spec, b)
    ensures Build(spec, b).Ok? && |Build(spec, b).value| == 6
  {
    assert forall i :: 0 <= i < 6 ==> !Missing(spec, b, i);
  }

  /** Field `i` of the built player is the one the test expects. */
  lemma PlayerMember(spec: BuilderSpec, b: Builder, built: seq<Member>, i: nat)
    requires Consistent(spec) && spec.plan == PlayerPlan()
    requires b.slots == PlayerStates()[8] && Fits(spec, b)
    requires Build(spec, b) == Ok(built) && i < 6
    ensures built[i] == ExpectedPlayer()[i]
  {
    assert built[i].ident == spec.plan[i].ident;
  }

  /** Leaving out `.name(..)` from the chain: `build` reports the name field. */
  lemma PlayerMissingNameScenario(fields: seq<Field>, calls: seq<Call>)
    requires fields == PlayerFields() && calls == PlayerCalls()
    ensures var spec := Emit("Player", fields);
      var rest := calls[1..];
      && (forall k :: 0 <= k < |rest| ==> CallFits(spec, rest[k]))
      && Build(spec, Run(spec, Initial(spec), rest)) == Err(MissingMessage("name"))
  {
    PlayerEmitted(fields, calls);
    PlayerMissingName(Emit("Player", fields), calls);
  }

  lemma PlayerMissingName(spec: BuilderSpec, calls: seq<Call>)
    requires calls == PlayerCalls() && PlayerShape(spec, calls)
    ensures Build(spec, Run(spec, Initial(spec), calls[1..])) == Err(MissingMessage("name"))
  {
    var b0 := Initial(spec);
    assert b0.slots[0] == OptionState(None) by {
      assert KindOf(b0.slots[0]) == spec.slots[0].kind == StepKind(spec.plan[0]);
    }
    assert forall k :: 1 <= k < |calls| ==> calls[k].setter.target != 0;
    UntouchedFirstRequired(spec, b0, calls[1..]);
  }

  /**
   * An Optional field never set comes out `None`, and set once comes out
   * `Some` of the value, without affecting whether `build` succeeds.
   */
  lemma OptionalFieldScenario(name: string, fields: seq<Field>, b: Builder, i: nat, m: Method, v: Value)
    requires i < |fields| && fields[i].Optional?
    requires Fits(Emit(name, fields), b) && b.slots[i] == OptionState(None)
    requires m == Method(fields[i].ident, SetSome, i, fields[i].ty)
    ensures var spec := Emit(name, fields);
      && m in spec.methods
      && var b' := Apply(spec, b, Call(m, One(v)));
      && (Build(spec, b).Ok? <==> Build(spec, b').Ok?)
      && (Build(spec, b).Ok? ==> Build(spec, b).value[i] == Member(fields[i].ident, Maybe(None)))
      && (Build(spec, b').Ok? ==> Build(spec, b').value[i] == Member(fields[i].ident, Maybe(Some(v))))
  {
    var spec := Emit(name, fields);
    assert m in FieldMethods(fields[i], i);
    var b' := Apply(spec, b, Call(m, One(v)));
    assert forall j :: 0 <= j < |spec.plan| ==> (Missing(spec, b, j) <==> Missing(spec, b', j));
  }

  /** A struct with two independently malformed fields and one good one. */
  function TwoBadFields(): seq<FieldDecl> {
    [ FieldDecl([EachAttribute("item")], Some("items"), Named("String")),
      FieldDecl([DocComment()], Some("count"), Named("u8")),
      FieldDecl([], Some("flag"), Named("bool")) ]
  }

  /** Both failures are reported, in declaration order, as one error; nothing is emitted. */
  lemma TwoErrorsAggregated(decls: seq<FieldDecl>)
    requires decls == TwoBadFields()
    ensures DeriveStrictBuilder(DeriveInput("Bad", Struct(decls))) == Err(Error([RepeatedMessage, AttributeMessage]))
  {
    TwoBadFieldsClassified(decls);
    assert FieldErrors(decls[2..]) == [] by {
      assert decls[2..][1..] == [];
    }
    assert decls[1..][1..] == decls[2..];
    assert FieldErrors(decls[1..]) == [AttributeMessage];
    assert FieldErrors(decls) == [RepeatedMessage, AttributeMessage];
  }

  /** The first field's annotation asks for a `Vec`, the second starts with a doc comment, the third is fine. */
  lemma TwoBadFieldsClassified(decls: seq<FieldDecl>)
    requires decls == TwoBadFields()
    ensures ParseField(decls[0]) == Err(Single(RepeatedMessage))
    ensures ParseField(decls[1]) == Err(Single(AttributeMessage))
    ensures ParseField(decls[2]).Ok?
  {
    AnnotatedStringRejected(decls[0]);
    DocumentedFieldRejected(decls[1]);
  }

  lemma AnnotatedStringRejected(decl: FieldDecl)
    requires decl == FieldDecl([EachAttribute("item")], Some("items"), Named("String"))
    ensures ParseField(decl) == Err(Single(RepeatedMessage))
  {
    ParseEachAttribute("item", []);
    assert [EachAttribute("item")] + [] == [EachAttribute("item")];
    assert ExtractWrappedType(decl.ty, "Vec").None?;
    AnnotatedPrecedence(decl);
  }

  lemma DocumentedFieldRejected(decl: FieldDecl)
    requires decl == FieldDecl([DocComment()], Some("count"), Named("u8"))
    ensures ParseField(decl) == Err(Single(AttributeMessage))
  {
    DocCommentFirstRejected([]);
    assert [DocComment()] + [] == [DocComment()];
    AnnotatedPrecedence(decl);
  }

  /** An enum is refused before any field is looked at. */
  lemma EnumRefused(name: string)
    ensures DeriveStrictBuilder(DeriveInput(name, Enum)) == Err(Error([EnumMessage]))
  {
  }

  /** A tuple struct's fields fail as unnamed, one message per field. */
  lemma TupleStructRefused(ty: Type, other: Type)
    ensures DeriveStrictBuilder(DeriveInput("Pair", Struct([FieldDecl([], None, ty), FieldDecl([], None, other)])))
         == Err(Error([NamedMessage, NamedMessage]))
  {
    var decls := [FieldDecl([], None, ty), FieldDecl([], None, other)];
    assert FieldErrors(decls[1..][1..]) == [] by {
      assert decls[1..][1..] == [];
    }
    assert FieldErrors(decls[1..]) == [NamedMessage];
    assert FieldErrors(decls) == [NamedMessage, NamedMessage];
  }
}
