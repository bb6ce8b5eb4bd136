/**
 * Properties of the generated builder that relate several calls: `each`
 * methods append in call order, bulk setters overwrite, a set slot stays
 * set, calls on different fields commute, and `build` names the first
 * required field left unset.
 */
module BuilderLaws {

  import opened Results
  import opened Classify
  import opened Emitter
  import opened Generated

  /** The calls `m(v)` for each `v` of `vs`, in order. */
  function EachCalls(m: Method, vs: seq<Value>): (calls: seq<Call>)
    ensures |calls| == |vs|
    ensures forall k :: 0 <= k < |vs| ==> calls[k] == Call(m, One(vs[k]))
  {
    seq(|vs|, k requires 0 <= k < |vs| => Call(m, One(vs[k])))
  }

  /** Calling an `each` method once per value appends the values, in call order, after what the slot held. */
  lemma {:induction false} PushesAppend(spec: BuilderSpec, b: Builder, m: Method, vs: seq<Value>)
    requires Consistent(spec) && Fits(spec, b)
    requires m in spec.methods && m.kind == Push
    ensures Run(spec, b, EachCalls(m, vs)).slots[m.target] == VecState(b.slots[m.target].items + vs)
    ensures forall j :: 0 <= j < |b.slots| && j != m.target ==> Run(spec, b, EachCalls(m, vs)).slots[j] == b.slots[j]
    decreases |vs|
  {
    if |vs| > 0 {
      var calls := EachCalls(m, vs);
      var b1 := Apply(spec, b, calls[0]);
      assert calls[1..] == EachCalls(m, vs[1..]);
      PushesAppend(spec, b1, m, vs[1..]);
      assert b.slots[m.target].items + vs == b.slots[m.target].items + [vs[0]] + vs[1..];
    } else {
      assert b.slots[m.target].items + vs == b.slots[m.target].items;
    }
  }

  /** Whatever calls came before, a bulk setter leaves exactly the given vector in its slot. */
  lemma ReplaceOverwrites(spec: BuilderSpec, b: Builder, calls: seq<Call>, m: Method, vs: seq<Value>)
    requires Consistent(spec) && Fits(spec, b)
    requires forall k :: 0 <= k < |calls| ==> CallFits(spec, calls[k])
    requires m in spec.methods && m.kind == Replace
    ensures Run(spec, b, calls + [Call(m, Many(vs))]).slots[m.target] == VecState(vs)
  {
    RunAppend(spec, b, calls, [Call(m, Many(vs))]);
  }

  /** Running two chains one after the other is running their concatenation. */
  lemma {:induction false} RunAppend(spec: BuilderSpec, b: Builder, xs: seq<Call>, ys: seq<Call>)
    requires Consistent(spec) && Fits(spec, b)
    requires forall k :: 0 <= k < |xs| ==> CallFits(spec, xs[k])
    requires forall k :: 0 <= k < |ys| ==> CallFits(spec, ys[k])
    ensures Run(spec, b, xs + ys) == Run(spec, Run(spec, b, xs), ys)
    decreases |xs|
  {
    if |xs| == 0 {
      assert xs + ys == ys;
    } else {
      assert (xs + ys)[0] == xs[0];
      assert (xs + ys)[1..] == xs[1..] + ys;
      RunAppend(spec, Apply(spec, b, xs[0]), xs[1..], ys);
    }
  }

  /** A chain of calls leaves alone every slot that none of its calls targets. */
  lemma {:induction false} RunFrame(spec: BuilderSpec, b: Builder, calls: seq<Call>, j: nat)
    requires Consistent(spec) && Fits(spec, b) && j < |b.slots|
    requires forall k :: 0 <= k < |calls| ==> CallFits(spec, calls[k])
    requires forall k :: 0 <= k < |calls| ==> calls[k].setter.target != j
    ensures Run(spec, b, calls).slots[j] == b.slots[j]
    decreases |calls|
  {
    if |calls| > 0 {
      RunFrame(spec, Apply(spec, b, calls[0]), calls[1..], j);
    }
  }

  /**
   * In a chain of calls, the value of the last plain setter call on a slot
   * is what the slot holds at the end.
   */
  lemma RunLastSetWins(spec: BuilderSpec, b: Builder, calls: seq<Call>, k: nat)
    requires Consistent(spec) && Fits(spec, b)
    requires forall l :: 0 <= l < |calls| ==> CallFits(spec, calls[l])
    requires k < |calls| && calls[k].setter.kind == SetSome
    requires forall l :: k < l < |calls| ==> calls[l].setter.target != calls[k].setter.target
    ensures Run(spec, b, calls).slots[calls[k].setter.target] == OptionState(Some(calls[k].arg.v))
  {
    var c := calls[k];
    var before := calls[..k];
    var after := calls[k + 1..];
    assert calls == before + ([c] + after);
    RunAppend(spec, b, before, [c] + after);
    var mid := Run(spec, b, before);
    var b1 := Apply(spec, mid, c);
    assert Run(spec, mid, [c] + after) == Run(spec, b1, after) by {
      assert ([c] + after)[0] == c;
      assert ([c] + after)[1..] == after;
    }
    RunFrame(spec, b1, after, c.setter.target);
  }

  /** Once an `Option` slot holds a value, no later call makes it `None` again. */
  lemma {:induction false} RunKeepsSet(spec: BuilderSpec, b: Builder, calls: seq<Call>, j: nat)
    requires Consistent(spec) && Fits(spec, b) && j < |b.slots|
    requires forall k :: 0 <= k < |calls| ==> CallFits(spec, calls[k])
    requires b.slots[j].OptionState? && b.slots[j].opt.Some?
    ensures Run(spec, b, calls).slots[j].OptionState? && Run(spec, b, calls).slots[j].opt.Some?
    decreases |calls|
  {
    if |calls| > 0 {
      RunKeepsSet(spec, Apply(spec, b, calls[0]), calls[1..], j);
    }
  }

  /** Calls to setters of different fields can be made in either order. */
  lemma CallsCommute(spec: BuilderSpec, b: Builder, c: Call, d: Call)
    requires Consistent(spec) && Fits(spec, b)
    requires CallFits(spec, c) && CallFits(spec, d)
    requires c.setter.target != d.setter.target
    ensures Apply(spec, Apply(spec, b, c), d) == Apply(spec, Apply(spec, b, d), c)
  {
    var x := Apply(spec, Apply(spec, b, c), d);
    var y := Apply(spec, Apply(spec, b, d), c);
    assert |x.slots| == |y.slots|;
    forall j | 0 <= j < |x.slots|
      ensures x.slots[j] == y.slots[j]
    {
    }
  }

  /** A second plain setter call overwrites the first. */
  lemma SetterLastWins(spec: BuilderSpec, b: Builder, m: Method, v: Value, w: Value)
    requires Consistent(spec) && Fits(spec, b)
    requires m in spec.methods && m.kind == SetSome
    ensures Apply(spec, Apply(spec, b, Call(m, One(v))), Call(m, One(w))) == Apply(spec, b, Call(m, One(w)))
  {
    var x := Apply(spec, Apply(spec, b, Call(m, One(v))), Call(m, One(w)));
    var y := Apply(spec, b, Call(m, One(w)));
    assert |x.slots| == |y.slots|;
    forall j | 0 <= j < |x.slots|
      ensures x.slots[j] == y.slots[j]
    {
    }
  }

  /**
   * For the builder the macro emits, `build` succeeds exactly when every
   * Required field's slot holds a value, and otherwise reports
   * "missing required field: <name>" for the first Required field, in
   * declaration order, whose slot is `None`.
   */
  lemma BuildNamesFirstMissingRequired(name: string, fields: seq<Field>, b: Builder)
    requires Fits(Emit(name, fields), b)
    ensures var r := Build(Emit(name, fields), b);
      && (r.Ok? <==> forall i :: 0 <= i < |fields| && fields[i].Required? ==> b.slots[i] != OptionState(None))
      && (r.Err? ==> exists i :: 0 <= i < |fields| && fields[i].Required? && b.slots[i] == OptionState(None)
                       && (forall j :: 0 <= j < i && fields[j].Required? ==> b.slots[j] != OptionState(None))
                       && r.error == "missing required field: " + fields[i].ident)
  {
    var spec := Emit(name, fields);
    var r := Build(spec, b);
    assert forall i :: 0 <= i < |fields| ==> (Missing(spec, b, i) <==> fields[i].Required? && b.slots[i] == OptionState(None));
    if r.Err? {
      var i: nat :| FirstMissing(spec, b, 0, i) && r.error == MissingMessage(spec.plan[i].ident);
      assert spec.plan[i].ident == fields[i].ident;
    }
  }

  /**
   * A fresh builder: `build` succeeds only for a struct without Required
   * fields, every Optional field then comes out `None` and every vector
   * empty; otherwise it names the first Required field.
   */
  lemma BuildFresh(name: string, fields: seq<Field>)
    ensures var spec := Emit(name, fields);
      var r := Build(spec, Initial(spec));
      && (r.Ok? <==> forall i :: 0 <= i < |fields| ==> !fields[i].Required?)
      && (r.Ok? ==> forall i :: 0 <= i < |fields| ==>
            r.value[i].value == (if fields[i].Optional? then Maybe(None) else Values([])))
      && (r.Err? ==> exists i :: 0 <= i < |fields| && fields[i].Required?
                       && (forall j :: 0 <= j < i ==> !fields[j].Required?)
                       && r.error == "missing required field: " + fields[i].ident)
  {
    var spec := Emit(name, fields);
    var b := Initial(spec);
    forall i | 0 <= i < |fields|
      ensures b.slots[i] == (if fields[i].Repeatable? then VecState([]) else OptionState(None))
    {
      assert KindOf(b.slots[i]) == spec.slots[i].kind;
    }
    BuildNamesFirstMissingRequired(name, fields, b);
  }

  /** When the first step unwraps a slot that no call of a chain touches, `build` after the chain names that field. */
  lemma UntouchedFirstRequired(spec: BuilderSpec, b: Builder, calls: seq<Call>)
    requires Consistent(spec) && Fits(spec, b)
    requires |spec.plan| > 0 && spec.plan[0].Unwrap? && b.slots[0] == OptionState(None)
    requires forall k :: 0 <= k < |calls| ==> CallFits(spec, calls[k]) && calls[k].setter.target != 0
    ensures Build(spec, Run(spec, b, calls)) == Err(MissingMessage(spec.plan[0].ident))
  {
    RunFrame(spec, b, calls, 0);
    var b' := Run(spec, b, calls);
    assert Missing(spec, b', 0);
    var r := Build(spec, b');
    var i: nat :| FirstMissing(spec, b', 0, i) && r.error == MissingMessage(spec.plan[i].ident);
    assert i == 0;
  }
}
