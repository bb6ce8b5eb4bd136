/**
 * The slice of Rust syntax the derive macro inspects: types, attributes,
 * the token trees inside an attribute, field declarations and the derive
 * input itself, plus the compile-time diagnostic the macro reports.
 */
module Syntax {

  import opened Results

  /** One segment of a path, such as `Vec<T>` in `Vec<T>` or `std` in `std::vec::Vec<T>`. */
  datatype Segment = Segment(ident: string, arguments: PathArguments)

  /** What follows a path segment: nothing, `<...>`, or `(...) -> ...`. */
  datatype PathArguments =
    | NoArguments
    | AngleBracketed(args: seq<GenericArgument>)
    | Parenthesized

  /** One argument inside `<...>`: a type, or something that is not a type. */
  datatype GenericArgument =
    | TypeArg(ty: Type)
    | LifetimeArg(name: string)
    | ConstArg
    | AssocArg

  /** A path such as `::std::vec::Vec<T>`. */
  datatype Path = Path(leadingColon: bool, segments: seq<Segment>)

  /**
   * A type expression. Only path types are looked into; every other kind
   * (references, tuples, arrays, ...) is opaque and named by `kind`.
   * `hasQSelf` marks a qualified path such as `<T as Trait>::Assoc`.
   */
  datatype Type =
    | PathType(hasQSelf: bool, path: Path)
    | OtherType(kind: string)

  /** A token inside an attribute's parentheses. `Literal` keeps the literal's source text, quotes included. */
  datatype TokenTree =
    | Ident(name: string)
    | Punct(ch: char)
    | Literal(text: string)
    | Group(delimiter: char)

  /** The three shapes of attribute content: `#[p]`, `#[p(...)]`, `#[p = ...]`. */
  datatype Meta =
    | MetaPath(path: Path)
    | MetaList(path: Path, tokens: seq<TokenTree>)
    | MetaNameValue(path: Path)
  {
    /** The attribute's path, whatever its shape. */
    function AttrPath(): Path {
      match this
      case MetaPath(p) => p
      case MetaList(p, _) => p
      case MetaNameValue(p) => p
    }
  }

  /** An outer attribute `#[...]`; a doc comment is `#[doc = "..."]`. */
  datatype Attribute = Attribute(meta: Meta)

  /** A field as declared: its attributes, its name (absent in a tuple struct) and its type. */
  datatype FieldDecl = FieldDecl(attrs: seq<Attribute>, ident: Option<string>, ty: Type)

  /** The body of the item the macro is applied to. */
  datatype Data =
    | Struct(fields: seq<FieldDecl>)
    | Enum
    | Union

  /** The item the derive macro receives: its name and body. */
  datatype DeriveInput = DeriveInput(ident: string, data: Data)

  /**
   * A compile-time diagnostic. Each error created at one place carries one
   * message; combining errors keeps every message, in order.
   */
  datatype Error = Error(messages: seq<string>)

  /** An error created at one place with one message. */
  function Single(msg: string): (e: Error)
    ensures e.messages == [msg]
  {
    Error([msg])
  }

  /** Merges `other` into `e`, keeping the messages of both in order. */
  function Combine(e: Error, other: Error): (r: Error)
    ensures |r.messages| == |e.messages| + |other.messages|
    ensures r.messages[..|e.messages|] == e.messages
    ensures r.messages[|e.messages|..] == other.messages
  {
    Error(e.messages + other.messages)
  }

  /** A single-segment path with no arguments, such as `builder` or `doc`. */
  function SimplePath(name: string): Path {
    Path(false, [Segment(name, NoArguments)])
  }

  /**
   * `Path::is_ident`: the path is exactly the bare identifier `name`
   * (no leading `::`, one segment, no generic arguments).
   */
  predicate IsIdent(p: Path, name: string) {
    && !p.leadingColon
    && |p.segments| == 1
    && p.segments[0].arguments == NoArguments
    && p.segments[0].ident == name
  }
}
