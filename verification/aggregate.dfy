/**
 * Classifying every field of the input and merging the failures
 * (`extract_fields`, `combine_errors` and `parse_fields` in src/lib.rs).
 * Unlike the generated `build`, this stage does not stop at the first
 * failure: every failing field contributes its error, in declaration order,
 * and no field list is produced unless none failed.
 */
module Aggregate {

  import opened Results
  import opened Syntax
  import opened Classify

  const EnumMessage: string := "Expected Struct found Enum"
  const UnionMessage: string := "Expected Struct found Union"

  /** The declared fields of a struct; enums and unions are refused outright. */
  function ExtractFields(input: DeriveInput): (r: Result<seq<FieldDecl>, Error>)
    ensures r.Ok? <==> input.data.Struct?
    ensures r.Ok? ==> r.value == input.data.fields
    ensures input.data.Enum? ==> r == Err(Single(EnumMessage))
    ensures input.data.Union? ==> r == Err(Single(UnionMessage))
  {
    match input.data
    case Struct(fields) => Ok(fields)
    case Enum => Err(Single(EnumMessage))
    case Union => Err(Single(UnionMessage))
  }

  /** The errors among `rs`, in order (the `filter_map` over `Err`). */
  function Failures<T>(rs: seq<Result<T, Error>>): (es: seq<Error>)
    ensures |es| <= |rs|
    ensures |es| == 0 <==> forall i :: 0 <= i < |rs| ==> rs[i].Ok?
  {
    if |rs| == 0 then []
    else (if rs[0].Err? then [rs[0].error] else []) + Failures(rs[1..])
  }

  /** The successes among `rs`, in order (the `filter_map` over `ok`). */
  function Successes<T>(rs: seq<Result<T, Error>>): (vs: seq<T>)
    ensures |vs| <= |rs|
    ensures (forall i :: 0 <= i < |rs| ==> rs[i].Ok?) ==>
              |vs| == |rs| && forall i :: 0 <= i < |rs| ==> vs[i] == rs[i].value
  {
    if |rs| == 0 then []
    else (if rs[0].Ok? then [rs[0].value] else []) + Successes(rs[1..])
  }

  /** Every message of `es`, error after error. */
  function Messages(es: seq<Error>): seq<string> {
    if |es| == 0 then [] else es[0].messages + Messages(es[1..])
  }

  /** The left fold `acc.combine(e)` over `es`. */
  function CombineAll(acc: Error, es: seq<Error>): (r: Error)
    ensures r.messages == acc.messages + Messages(es)
    decreases |es|
  {
    if |es| == 0 then acc else CombineAll(Combine(acc, es[0]), es[1..])
  }

  /**
   * One error holding the messages of every failure in `rs`, in order, or
   * `None` when nothing failed.
   */
  function CombineErrors<T>(rs: seq<Result<T, Error>>): (r: Option<Error>)
    ensures r.None? <==> forall i :: 0 <= i < |rs| ==> rs[i].Ok?
    ensures r.Some? ==> r.value.messages == Messages(Failures(rs))
  {
    var es := Failures(rs);
    if |es| == 0 then None else Some(CombineAll(es[0], es[1..]))
  }

  /** Every field classified independently, in declaration order. */
  function ParseAll(decls: seq<FieldDecl>): (rs: seq<Result<Field, Error>>)
    ensures |rs| == |decls|
    ensures forall i :: 0 <= i < |decls| ==> rs[i] == ParseField(decls[i])
  {
    seq(|decls|, i requires 0 <= i < |decls| => ParseField(decls[i]))
  }

  /** Reference definition: the messages of the failing fields, field by field. */
  function FieldErrors(decls: seq<FieldDecl>): seq<string> {
    if |decls| == 0 then []
    else
      (match ParseField(decls[0]) case Err(e) => e.messages case Ok(_) => [])
      + FieldErrors(decls[1..])
  }

  /** The number of fields that fail to classify. */
  function FailingCount(decls: seq<FieldDecl>): nat {
    if |decls| == 0 then 0
    else (if ParseField(decls[0]).Err? then 1 else 0) + FailingCount(decls[1..])
  }

  /**
   * The classified fields of a struct, one per declared field and in
   * declaration order; or the refusal of an enum or union; or one error
   * gathering the messages of every failing field in declaration order.
   */
  function ParseFields(input: DeriveInput): (r: Result<seq<Field>, Error>)
    ensures !input.data.Struct? ==> r == Err(ExtractFields(input).error)
    ensures input.data.Struct? && r.Ok? ==>
              |r.value| == |input.data.fields|
              && forall i :: 0 <= i < |r.value| ==> ParseField(input.data.fields[i]) == Ok(r.value[i])
    ensures input.data.Struct? ==>
              (r.Ok? <==> forall i :: 0 <= i < |input.data.fields| ==> ParseField(input.data.fields[i]).Ok?)
    ensures input.data.Struct? && r.Err? ==> r.error.messages == FieldErrors(input.data.fields)
  {
    match ExtractFields(input)
    case Err(e) => Err(e)
    case Ok(decls) =>
      var results := ParseAll(decls);
      match CombineErrors(results)
      case Some(e) =>
        FailuresOfParseAll(decls);
        Err(e)
      case None => Ok(Successes(results))
  }

  /** Gathering the failures of the classified fields gives the reference messages. */
  lemma {:induction false} FailuresOfParseAll(decls: seq<FieldDecl>)
    ensures Messages(Failures(ParseAll(decls))) == FieldErrors(decls)
  {
    if |decls| > 0 {
      var rs := ParseAll(decls);
      assert rs[1..] == ParseAll(decls[1..]);
      FailuresOfParseAll(decls[1..]);
      MessagesAppend(if rs[0].Err? then [rs[0].error] else [], Failures(rs[1..]));
    }
  }

  lemma {:induction false} MessagesAppend(a: seq<Error>, b: seq<Error>)
    ensures Messages(a + b) == Messages(a) + Messages(b)
  {
    if |a| == 0 {
      assert a + b == b;
    } else {
      assert (a + b)[0] == a[0];
      assert (a + b)[1..] == a[1..] + b;
      MessagesAppend(a[1..], b);
    }
  }

  /** Each failing field contributes exactly one message. */
  lemma {:induction false} FieldErrorsCount(decls: seq<FieldDecl>)
    ensures |FieldErrors(decls)| == FailingCount(decls)
  {
    if |decls| > 0 {
      FieldErrorsCount(decls[1..]);
    }
  }

  /** An error from a struct names at least one failing field. */
  lemma {:induction false} FieldErrorsNonEmpty(decls: seq<FieldDecl>)
    ensures FieldErrors(decls) == [] <==> forall i :: 0 <= i < |decls| ==> ParseField(decls[i]).Ok?
  {
    FieldErrorsCount(decls);
    if |decls| > 0 {
      FieldErrorsNonEmpty(decls[1..]);
      assert forall i :: 1 <= i < |decls| ==> decls[i] == decls[1..][i - 1];
    }
  }
}
