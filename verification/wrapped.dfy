/**
 * Recognising a single-argument wrapper type `Name<T>` and extracting `T`
 * (`extract_wrapped_type` in src/lib.rs). A non-match is an ordinary
 * outcome: the matcher never reports an error.
 */
module Wrapped {

  import opened Results
  import opened Syntax

  /** The path segment `wrapper<inner>`. */
  function WrapperSegment(wrapper: string, inner: Type): Segment {
    Segment(wrapper, AngleBracketed([TypeArg(inner)]))
  }

  /** The type `wrapper<inner>` written as a one-segment path. */
  function Wrap(wrapper: string, inner: Type): Type {
    PathType(false, Path(false, [WrapperSegment(wrapper, inner)]))
  }

  /** `ty` is an unqualified path type whose FIRST segment is `seg`; later segments are not looked at. */
  predicate HeadedBy(ty: Type, seg: Segment) {
    && ty.PathType?
    && !ty.hasQSelf
    && |ty.path.segments| > 0
    && ty.path.segments[0] == seg
  }

  /**
   * The inner type of `ty` when `ty` has the shape `wrapper<T>`. Only the
   * first path segment is inspected, a qualified self type never matches,
   * and the angle brackets must hold exactly one argument, which must be a
   * type. The two contracts together say: `Some(t)` exactly when the first
   * segment is `wrapper<t>`.
   */
  function ExtractWrappedType(ty: Type, wrapper: string): (r: Option<Type>)
    ensures r.Some? ==> HeadedBy(ty, WrapperSegment(wrapper, r.value))
    ensures forall t :: HeadedBy(ty, WrapperSegment(wrapper, t)) ==> r == Some(t)
  {
    match ty
    case OtherType(_) => None
    case PathType(qself, path) =>
      if qself || |path.segments| == 0 then None
      else
        var segment := path.segments[0];
        if segment.ident != wrapper then None
        else
          match segment.arguments
          case AngleBracketed(args) =>
            if |args| != 1 then None
            else (match args[0]
                  case TypeArg(inner) =>
                    assert args == [TypeArg(inner)];
                    Some(inner)
                  case _ => None)
          case _ => None
  }

  /** Wrapping then matching with the same name gives back the inner type. */
  lemma ExtractWrap(wrapper: string, inner: Type)
    ensures ExtractWrappedType(Wrap(wrapper, inner), wrapper) == Some(inner)
  {
  }

  /** A wrapper with another name is not matched. */
  lemma ExtractWrapOtherName(wrapper: string, other: string, inner: Type)
    requires wrapper != other
    ensures ExtractWrappedType(Wrap(wrapper, inner), other) == None
  {
  }

  /**
   * Only the first segment matters: `Vec<T>::Iter` still yields `T`, and
   * `std::vec::Vec<T>` yields nothing because its first segment is `std`.
   */
  lemma ExtractIgnoresLaterSegments(qself: bool, colon: bool, first: Segment, rest: seq<Segment>, more: seq<Segment>, wrapper: string)
    ensures ExtractWrappedType(PathType(qself, Path(colon, [first] + rest)), wrapper)
         == ExtractWrappedType(PathType(qself, Path(colon, [first] + more)), wrapper)
  {
    assert ([first] + rest)[0] == first;
    assert ([first] + more)[0] == first;
  }

  /** A qualified path (`<X as Tr>::Vec<T>`) is never a wrapper. */
  lemma ExtractQualifiedIsNone(path: Path, wrapper: string)
    ensures ExtractWrappedType(PathType(true, path), wrapper) == None
  {
  }
}
