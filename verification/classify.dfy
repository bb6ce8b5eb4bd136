/**
 * Classifying one field as Repeatable, Optional or Required
 * (`Field::parse_repeated`, `parse_optional`, `parse_required` and
 * `parse_field` in src/lib.rs). The probes run in that order; the first
 * that produces a field wins and the first that errs decides the error.
 */
module Classify {

  import opened Results
  import opened Syntax
  import opened Wrapped
  import opened EachAttr

  const NamedMessage: string := "Expected named field"
  /** The source formats `stringify!(ident)`, which is the word `ident`, not the field's name. */
  const RepeatedMessage: string := "Expected Vec<T> for repeated field ident"
  const ValidFieldMessage: string := "Expected valid field"

  /**
   * A classified field. `ty` is the declared type for Required and the
   * wrapped type `T` for Optional (`Option<T>`) and Repeatable (`Vec<T>`).
   */
  datatype Field =
    | Required(ident: string, ty: Type)
    | Optional(ident: string, ty: Type)
    | Repeatable(ident: string, ty: Type, eachIdent: string)

  /** The fallback probe: any named field is Required. */
  function ParseRequired(decl: FieldDecl): (r: Result<Option<Field>, Error>)
    ensures decl.ident.None? <==> r == Err(Single(NamedMessage))
    ensures decl.ident.Some? ==> r == Ok(Some(Required(decl.ident.value, decl.ty)))
  {
    match decl.ident
    case None => Err(Single(NamedMessage))
    case Some(ident) => Ok(Some(Required(ident, decl.ty)))
  }

  /** The `Option<T>` probe: not applicable (`Ok(None)`) unless the type is `Option<T>`. */
  function ParseOptional(decl: FieldDecl): (r: Result<Option<Field>, Error>)
    ensures decl.ident.None? <==> r == Err(Single(NamedMessage))
    ensures decl.ident.Some? ==> r.Ok?
    ensures r.Ok? && r.value.Some? ==> r.value.value.Optional?
    ensures forall t :: decl.ident.Some? && HeadedBy(decl.ty, WrapperSegment("Option", t))
              ==> r == Ok(Some(Optional(decl.ident.value, t)))
    ensures r == Ok(None) <==> decl.ident.Some? && ExtractWrappedType(decl.ty, "Option").None?
    ensures r.Ok? && r.value.Some? ==> decl.ident == Some(r.value.value.ident)
  {
    match decl.ident
    case None => Err(Single(NamedMessage))
    case Some(ident) =>
      match ExtractWrappedType(decl.ty, "Option")
      case Some(inner) => Ok(Some(Optional(ident, inner)))
      case None => Ok(None)
  }

  /**
   * The `each` probe: not applicable when the field has no attribute, an
   * error when the annotation is malformed or the type is not `Vec<T>`.
   */
  function ParseRepeated(decl: FieldDecl): (r: Result<Option<Field>, Error>)
    ensures decl.ident.None? ==> r == Err(Single(NamedMessage))
    ensures decl.ident.Some? && ParseEach(decl.attrs).Err? ==> r == Err(ParseEach(decl.attrs).error)
    ensures decl.ident.Some? && ParseEach(decl.attrs) == Ok(None) ==> r == Ok(None)
    ensures forall each :: decl.ident.Some? && ParseEach(decl.attrs) == Ok(Some(each)) ==>
              if ExtractWrappedType(decl.ty, "Vec").Some?
              then r == Ok(Some(Repeatable(decl.ident.value, ExtractWrappedType(decl.ty, "Vec").value, each)))
              else r == Err(Single(RepeatedMessage))
    ensures r.Err? ==> |r.error.messages| == 1
    ensures r.Ok? && r.value.Some? ==> decl.ident == Some(r.value.value.ident)
  {
    match decl.ident
    case None => Err(Single(NamedMessage))
    case Some(ident) =>
      match ParseEach(decl.attrs)
      case Err(e) => Err(e)
      case Ok(None) => Ok(None)
      case Ok(Some(each)) =>
        match ExtractWrappedType(decl.ty, "Vec")
        case Some(inner) => Ok(Some(Repeatable(ident, inner, each)))
        case None => Err(Single(RepeatedMessage))
  }

  /**
   * Tries Repeatable, then Optional, then Required; the final error branch
   * is kept as written. A tuple field fails as unnamed, a success keeps the
   * declared name, and an error carries one message. The order in which the
   * probes decide is stated by `AnnotatedPrecedence` and
   * `UnannotatedPrecedence`.
   */
  function ParseField(decl: FieldDecl): (r: Result<Field, Error>)
    ensures decl.ident.None? ==> r == Err(Single(NamedMessage))
    ensures r.Ok? ==> decl.ident == Some(r.value.ident)
    ensures r.Err? ==> |r.error.messages| == 1
  {
    match ParseRepeated(decl)
    case Err(e) => Err(e)
    case Ok(Some(f)) => Ok(f)
    case Ok(None) =>
      match ParseOptional(decl)
      case Err(e) => Err(e)
      case Ok(Some(f)) => Ok(f)
      case Ok(None) =>
        match ParseRequired(decl)
        case Err(e) => Err(e)
        case Ok(Some(f)) => Ok(f)
        case Ok(None) => Err(Single(ValidFieldMessage))
  }

  /**
   * A named field with an attribute is decided by the annotation alone: a
   * malformed annotation is the error even on an `Option<T>` field, and an
   * `each` name makes the field Repeatable when its type is `Vec<T>` and an
   * error otherwise.
   */
  lemma AnnotatedPrecedence(decl: FieldDecl)
    requires decl.ident.Some?
    ensures ParseEach(decl.attrs).Err? ==> ParseField(decl) == Err(ParseEach(decl.attrs).error)
    ensures forall each, t :: ParseEach(decl.attrs) == Ok(Some(each))
              && HeadedBy(decl.ty, WrapperSegment("Vec", t))
              ==> ParseField(decl) == Ok(Repeatable(decl.ident.value, t, each))
    ensures ParseEach(decl.attrs).Ok? && ParseEach(decl.attrs).value.Some? && ExtractWrappedType(decl.ty, "Vec").None?
            ==> ParseField(decl) == Err(Single(RepeatedMessage))
  {
  }

  /**
   * A named field without an attribute is Optional over `T` when its type
   * is `Option<T>`, and Required with its whole type otherwise (an
   * un-annotated `Vec<T>` included).
   */
  lemma UnannotatedPrecedence(decl: FieldDecl)
    requires decl.ident.Some? && ParseEach(decl.attrs) == Ok(None)
    ensures forall t :: HeadedBy(decl.ty, WrapperSegment("Option", t)) ==> ParseField(decl) == Ok(Optional(decl.ident.value, t))
    ensures ExtractWrappedType(decl.ty, "Option").None? ==> ParseField(decl) == Ok(Required(decl.ident.value, decl.ty))
  {
  }

  /** The closing "Expected valid field" error can never be produced: the Required probe always decides. */
  lemma ValidFieldErrorUnreachable(decl: FieldDecl)
    ensures ParseField(decl) != Err(Single(ValidFieldMessage))
  {
  }

  /** The `Vec<T>` type of a repeatable field is left as a plain Required field without the annotation. */
  lemma UnannotatedVecIsRequired(name: string, t: Type)
    ensures ParseField(FieldDecl([], Some(name), Wrap("Vec", t))) == Ok(Required(name, Wrap("Vec", t)))
  {
  }

  /**
   * A declaration that a field classifies back to: `Option<T>` for
   * Optional, `Vec<T>` with an `each` annotation for Repeatable, the type
   * itself with no attribute for Required.
   */
  function Declare(f: Field): FieldDecl {
    match f
    case Required(ident, ty) => FieldDecl([], Some(ident), ty)
    case Optional(ident, ty) => FieldDecl([], Some(ident), Wrap("Option", ty))
    case Repeatable(ident, ty, each) => FieldDecl([EachAttribute(each)], Some(ident), Wrap("Vec", ty))
  }

  /** A classification that a declaration can produce: a Required type is not `Option<_>`, an `each` name is quote-free at its ends. */
  predicate Declarable(f: Field) {
    match f
    case Required(_, ty) => ExtractWrappedType(ty, "Option").None?
    case Optional(_, _) => true
    case Repeatable(_, _, each) => Unquoted(each)
  }

  /** Declaring a classified field and classifying it again gives the same field. */
  lemma ClassifyDeclare(f: Field)
    requires Declarable(f)
    ensures ParseField(Declare(f)) == Ok(f)
  {
    if f.Repeatable? {
      ParseEachAttribute(f.eachIdent, []);
      assert [EachAttribute(f.eachIdent)] + [] == [EachAttribute(f.eachIdent)];
      ExtractWrap("Vec", f.ty);
    } else if f.Optional? {
      ExtractWrap("Option", f.ty);
    }
  }
}
