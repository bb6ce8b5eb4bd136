/**
 * The `Player` of tests/06-optional-field.rs run through the model: an
 * un-annotated `friends: Vec<String>` and an optional
 * `siblings: Option<Vec<String>>`, built once without and once with a
 * `siblings(..)` call.
 *
 * As in the `Scenarios` module, lemmas about the one struct of the test take
 * it as a parameter pinned by a `requires` (`fields == OptionalPlayerFields()`)
 * rather than naming the constant inside: the solver then keeps the
 * field list folded and the proofs stay small.
 */
module OptionalScenario {

  import opened Results
  import opened Syntax
  import opened Wrapped
  import opened Classify
  import opened Emitter
  import opened Generated
  import opened BuilderLaws
  import opened Scenarios

  /** `Vec<String>`. */
  function Strings(): Type {
    Wrap("Vec", Named("String"))
  }

  /** `Player` of tests/06-optional-field.rs lines 4-11, as classified fields. */
  function OptionalPlayerFields(): seq<Field> {
    [ Required("name", Named("String")),
      Required("age", Named("u8")),
      Required("friends", Strings()),
      Optional("siblings", Strings()),
      Required("swimming", Named("bool")),
      Required("running", Named("bool")) ]
  }

  /** The macro input is the struct as written: `friends` a plain `Vec<String>`, `siblings` an `Option<Vec<String>>`. */
  lemma OptionalPlayerDeclared(fields: seq<Field>)
    requires fields == OptionalPlayerFields()
    ensures DeclareAll("Player", fields).data.fields[2] == FieldDecl([], Some("friends"), Wrap("Vec", Named("String")))
    ensures DeclareAll("Player", fields).data.fields[3]
         == FieldDecl([], Some("siblings"), Wrap("Option", Wrap("Vec", Named("String"))))
  {
  }

  /** The macro classifies that struct back into its fields and emits its builder. */
  lemma OptionalPlayerDerives(fields: seq<Field>)
    requires fields == OptionalPlayerFields()
    ensures DeriveStrictBuilder(DeclareAll("Player", fields)) == Ok(Emit("Player", fields))
  {
    OptionalDeclarable(fields);
    DeriveDeclared("Player", fields);
  }

  lemma OptionalDeclarable(fields: seq<Field>)
    requires fields == OptionalPlayerFields()
    ensures forall i :: 0 <= i < |fields| ==> Declarable(fields[i])
  {
  }

  /** `siblings: Option<Vec<String>>` of tests/06-optional-field.rs is Optional over `Vec<String>`. */
  lemma OptionalSiblingsClassified()
    ensures ParseField(FieldDecl([], Some("siblings"), Wrap("Option", Wrap("Vec", Named("String")))))
         == Ok(Optional("siblings", Wrap("Vec", Named("String"))))
  {
    ExtractWrap("Option", Wrap("Vec", Named("String")));
  }

  /** An un-annotated `friends: Vec<String>`, as in tests/06-optional-field.rs, is Required with its whole type. */
  lemma PlainFriendsClassified()
    ensures ParseField(FieldDecl([], Some("friends"), Wrap("Vec", Named("String"))))
         == Ok(Required("friends", Wrap("Vec", Named("String"))))
  {
    UnannotatedVecIsRequired("friends", Named("String"));
  }

  /** The build steps of this `PlayerBuilder`: only `siblings` is copied rather than unwrapped. */
  function OptionalPlan(): seq<Step> {
    [ Unwrap("name", 0), Unwrap("age", 1), Unwrap("friends", 2), CopyOption("siblings", 3),
      Unwrap("swimming", 4), Unwrap("running", 5) ]
  }

  lemma OptionalPlanEmitted(fields: seq<Field>)
    requires fields == OptionalPlayerFields()
    ensures Emit("Player", fields).plan == OptionalPlan()
  {
    assert Emit("Player", fields).plan == PlanOf(fields);
    OptionalPlanOf(fields);
  }

  lemma OptionalPlanOf(fields: seq<Field>)
    requires fields == OptionalPlayerFields()
    ensures PlanOf(fields) == OptionalPlan()
  {
    var plan := PlanOf(fields);
    forall i | 0 <= i < 6
      ensures plan[i] == OptionalPlan()[i]
    {
      assert plan[i] == StepOf(fields[i], i);
    }
  }

  /** The chain of tests/06-optional-field.rs lines 17-22: `siblings` is never set. */
  function FirstChain(): seq<Call> {
    [ Call(Method("name", SetSome, 0, Named("String")), One(Str("Kvothe"))),
      Call(Method("age", SetSome, 1, Named("u8")), One(Num(16))),
      Call(Method("friends", SetSome, 2, Strings()), One(List([Str("Willem"), Str("Simmon")]))),
      Call(Method("swimming", SetSome, 4, Named("bool")), One(Bool(true))),
      Call(Method("running", SetSome, 5, Named("bool")), One(Bool(false))) ]
  }

  /** The chain of tests/06-optional-field.rs lines 38-44: `siblings` is set too. */
  function SecondChain(): seq<Call> {
    [ Call(Method("name", SetSome, 0, Named("String")), One(Str("Kvothe"))),
      Call(Method("age", SetSome, 1, Named("u8")), One(Num(16))),
      Call(Method("friends", SetSome, 2, Strings()), One(List([Str("Willem"), Str("Simmon")]))),
      Call(Method("siblings", SetSome, 3, Strings()), One(List([Str("Devi"), Str("Auri")]))),
      Call(Method("swimming", SetSome, 4, Named("bool")), One(Bool(true))),
      Call(Method("running", SetSome, 5, Named("bool")), One(Bool(false))) ]
  }

  /** What the chains need to know of the emitted builder. */
  predicate OptionalShape(spec: BuilderSpec, calls: seq<Call>) {
    && Consistent(spec)
    && spec.plan == OptionalPlan()
    && forall k :: 0 <= k < |calls| ==> CallFits(spec, calls[k])
  }

  lemma OptionalEmitted(fields: seq<Field>, calls: seq<Call>)
    requires fields == OptionalPlayerFields() && calls == SecondChain()
    ensures OptionalShape(Emit("Player", fields), calls)
  {
    OptionalPlanEmitted(fields);
    OptionalCallsExist(fields, calls);
  }

  /** Every call of the second chain is to a setter the macro emits. */
  lemma OptionalCallsExist(fields: seq<Field>, calls: seq<Call>)
    requires fields == OptionalPlayerFields() && calls == SecondChain()
    ensures forall k :: 0 <= k < |calls| ==> CallFits(Emit("Player", fields), calls[k])
  {
    forall k | 0 <= k < |calls|
      ensures CallFits(Emit("Player", fields), calls[k])
    {
      var m := calls[k].setter;
      assert m in FieldMethods(fields[m.target], m.target);
    }
  }

  /** The first chain is the second without its `siblings` call, so it fits the builder too. */
  lemma FirstChainShape(spec: BuilderSpec, calls: seq<Call>)
    requires calls == FirstChain() && OptionalShape(spec, SecondChain())
    ensures OptionalShape(spec, calls)
  {
    var second := SecondChain();
    assert forall k :: 0 <= k < 5 ==> calls[k] == second[if k < 3 then k else k + 1];
  }

  /** The slots after the first chain. */
  function FirstSlots(): seq<SlotState> {
    [ OptionState(Some(Str("Kvothe"))), OptionState(Some(Num(16))),
      OptionState(Some(List([Str("Willem"), Str("Simmon")]))), OptionState(None),
      OptionState(Some(Bool(true))), OptionState(Some(Bool(false))) ]
  }

  /** The slots after the second chain. */
  function SecondSlots(): seq<SlotState> {
    [ OptionState(Some(Str("Kvothe"))), OptionState(Some(Num(16))),
      OptionState(Some(List([Str("Willem"), Str("Simmon")]))), OptionState(Some(List([Str("Devi"), Str("Auri")]))),
      OptionState(Some(Bool(true))), OptionState(Some(Bool(false))) ]
  }

  /** Each call of the first chain sets a field no later call touches, so its value is the one kept. */
  lemma FirstSlot(spec: BuilderSpec, calls: seq<Call>, k: nat)
    requires calls == FirstChain() && OptionalShape(spec, calls) && k < 5
    ensures calls[k].setter.target < 6
    ensures Run(spec, Initial(spec), calls).slots[calls[k].setter.target] == OptionState(Some(calls[k].arg.v))
  {
    assert forall l :: 0 <= l < 5 ==> calls[l].setter.kind == SetSome && calls[l].setter.target == (if l < 3 then l else l + 1);
    RunLastSetWins(spec, Initial(spec), calls, k);
  }

  /** The first table lists, at every field but `siblings`, the value of the call that sets it. */
  lemma FirstTable(calls: seq<Call>)
    requires calls == FirstChain()
    ensures forall k :: 0 <= k < 5 ==> calls[k].setter.target < 6 && calls[k].setter.target != 3
    ensures forall k :: 0 <= k < 5 ==> FirstSlots()[calls[k].setter.target] == OptionState(Some(calls[k].arg.v))
    ensures forall k :: 0 <= k < 3 ==> calls[k].setter.target == k
    ensures forall k :: 3 <= k < 5 ==> calls[k].setter.target == k + 1
  {
  }

  /** No call of the first chain targets `siblings`, so it keeps the fresh builder's `None`. */
  lemma FirstSiblingsUnset(spec: BuilderSpec, calls: seq<Call>)
    requires calls == FirstChain() && OptionalShape(spec, calls)
    ensures Run(spec, Initial(spec), calls).slots[3] == OptionState(None)
  {
    var b0 := Initial(spec);
    assert b0.slots[3] == OptionState(None) by {
      assert KindOf(b0.slots[3]) == spec.slots[3].kind == StepKind(spec.plan[3]);
    }
    assert forall l :: 0 <= l < |calls| ==> calls[l].setter.target != 3;
    RunFrame(spec, b0, calls, 3);
  }

  lemma FirstChainSlots(spec: BuilderSpec, calls: seq<Call>)
    requires calls == FirstChain() && OptionalShape(spec, calls)
    ensures Run(spec, Initial(spec), calls).slots == FirstSlots()
  {
    var r := Run(spec, Initial(spec), calls);
    FirstTable(calls);
    FirstSiblingsUnset(spec, calls);
    forall j | 0 <= j < 3
      ensures r.slots[j] == FirstSlots()[j]
    {
      FirstSlot(spec, calls, j);
      assert calls[j].setter.target == j;
    }
    forall j | 4 <= j < 6
      ensures r.slots[j] == FirstSlots()[j]
    {
      FirstSlot(spec, calls, j - 1);
      assert calls[j - 1].setter.target == j;
    }
  }

  /** Each call of the second chain sets its own field, and no later call touches it. */
  lemma SecondSlot(spec: BuilderSpec, calls: seq<Call>, k: nat)
    requires calls == SecondChain() && OptionalShape(spec, calls) && k < 6
    ensures Run(spec, Initial(spec), calls).slots[k] == OptionState(Some(calls[k].arg.v))
  {
    assert forall l :: 0 <= l < 6 ==> calls[l].setter.kind == SetSome && calls[l].setter.target == l;
    RunLastSetWins(spec, Initial(spec), calls, k);
  }

  /** The second table lists, at every field, the value of the call that sets it. */
  lemma SecondTable(calls: seq<Call>)
    requires calls == SecondChain()
    ensures forall k :: 0 <= k < 6 ==> SecondSlots()[k] == OptionState(Some(calls[k].arg.v))
  {
  }

  lemma SecondChainSlots(spec: BuilderSpec, calls: seq<Call>)
    requires calls == SecondChain() && OptionalShape(spec, calls)
    ensures Run(spec, Initial(spec), calls).slots == SecondSlots()
  {
    var r := Run(spec, Initial(spec), calls);
    SecondTable(calls);
    forall k | 0 <= k < 6
      ensures r.slots[k] == SecondSlots()[k]
    {
      SecondSlot(spec, calls, k);
    }
  }

  /** The player of tests/06-optional-field.rs lines 26-34: `siblings` is `None`. */
  function FirstPlayer(): seq<Member> {
    [ Member("name", Plain(Str("Kvothe"))),
      Member("age", Plain(Num(16))),
      Member("friends", Plain(List([Str("Willem"), Str("Simmon")]))),
      Member("siblings", Maybe(None)),
      Member("swimming", Plain(Bool(true))),
      Member("running", Plain(Bool(false))) ]
  }

  /** The player of tests/06-optional-field.rs lines 49-60: `siblings` is `Some` of the list given. */
  function SecondPlayer(): seq<Member> {
    [ Member("name", Plain(Str("Kvothe"))),
      Member("age", Plain(Num(16))),
      Member("friends", Plain(List([Str("Willem"), Str("Simmon")]))),
      Member("siblings", Maybe(Some(List([Str("Devi"), Str("Auri")])))),
      Member("swimming", Plain(Bool(true))),
      Member("running", Plain(Bool(false))) ]
  }

  /** `build` on the slots the first chain leaves: `siblings` comes out `None`. */
  lemma FirstBuilds(spec: BuilderSpec, b: Builder)
    requires Consistent(spec) && spec.plan == OptionalPlan()
    requires b.slots == FirstSlots() && Fits(spec, b)
    ensures Build(spec, b) == Ok(FirstPlayer())
  {
    assert forall i :: 0 <= i < 6 ==> !Missing(spec, b, i);
    var r := Build(spec, b);
    assert |r.value| == 6;
    forall i | 0 <= i < 6
      ensures r.value[i] == FirstPlayer()[i]
    {
      FirstMember(spec, b, r.value, i);
    }
    assert r.value == FirstPlayer();
  }

  lemma FirstMember(spec: BuilderSpec, b: Builder, built: seq<Member>, i: nat)
    requires Consistent(spec) && spec.plan == OptionalPlan()
    requires b.slots == FirstSlots() && Fits(spec, b)
    requires Build(spec, b) == Ok(built) && i < 6
    ensures built[i] == FirstPlayer()[i]
  {
    assert built[i].ident == spec.plan[i].ident;
  }

  /** `build` on the slots the second chain leaves: `siblings` comes out `Some`. */
  lemma SecondBuilds(spec: BuilderSpec, b: Builder)
    requires Consistent(spec) && spec.plan == OptionalPlan()
    requires b.slots == SecondSlots() && Fits(spec, b)
    ensures Build(spec, b) == Ok(SecondPlayer())
  {
    assert forall i :: 0 <= i < 6 ==> !Missing(spec, b, i);
    var r := Build(spec, b);
    assert |r.value| == 6;
    forall i | 0 <= i < 6
      ensures r.value[i] == SecondPlayer()[i]
    {
      SecondMember(spec, b, r.value, i);
    }
    assert r.value == SecondPlayer();
  }

  lemma SecondMember(spec: BuilderSpec, b: Builder, built: seq<Member>, i: nat)
    requires Consistent(spec) && spec.plan == OptionalPlan()
    requires b.slots == SecondSlots() && Fits(spec, b)
    requires Build(spec, b) == Ok(built) && i < 6
    ensures built[i] == SecondPlayer()[i]
  {
    assert built[i].ident == spec.plan[i].ident;
  }

  /**
   * tests/06-optional-field.rs lines 14-34: the chain that never sets
   * `siblings` fits the emitted builder, and `build` succeeds with
   * `siblings` `None` and every other field as set.
   */
  lemma OptionalUnsetScenario(fields: seq<Field>, calls: seq<Call>)
    requires fields == OptionalPlayerFields() && calls == FirstChain()
    ensures var spec := Emit("Player", fields);
      && (forall k :: 0 <= k < |calls| ==> CallFits(spec, calls[k]))
      && Build(spec, Run(spec, Initial(spec), calls)) == Ok(FirstPlayer())
  {
    var spec := Emit("Player", fields);
    OptionalEmitted(fields, SecondChain());
    FirstChainShape(spec, calls);
    FirstChainSlots(spec, calls);
    FirstBuilds(spec, Run(spec, Initial(spec), calls));
  }

  /**
   * tests/06-optional-field.rs lines 36-60: with `.siblings(..)` in the
   * chain, `build` yields `siblings` as `Some` of the given list.
   */
  lemma OptionalSetScenario(fields: seq<Field>, calls: seq<Call>)
    requires fields == OptionalPlayerFields() && calls == SecondChain()
    ensures var spec := Emit("Player", fields);
      && (forall k :: 0 <= k < |calls| ==> CallFits(spec, calls[k]))
      && Build(spec, Run(spec, Initial(spec), calls)) == Ok(SecondPlayer())
  {
    var spec := Emit("Player", fields);
    OptionalEmitted(fields, calls);
    SecondChainSlots(spec, calls);
    SecondBuilds(spec, Run(spec, Initial(spec), calls));
  }
}
