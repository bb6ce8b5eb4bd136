/**
 * The `#[builder(each = "name")]` annotation grammar (`parse_each` in
 * src/lib.rs). Only a field's first attribute is read; within it only the
 * first three tokens are checked, and the first mismatch decides the error.
 */
module EachAttr {

  import opened Results
  import opened Syntax

  const AttributeMessage: string := "Expected #[builder(...)] attribute"
  const EachMessage: string := "Expected #[builder(each = \"...\")]"

  /** Every character of `s` is a double quote. */
  predicate AllQuotes(s: string) {
    forall k :: 0 <= k < |s| ==> s[k] == '"'
  }

  /** `s` neither starts nor ends with a double quote. */
  predicate Unquoted(s: string) {
    |s| == 0 || (s[0] != '"' && s[|s| - 1] != '"')
  }

  /** `s` with every leading double quote removed. */
  function TrimStart(s: string): (r: string)
    ensures |r| <= |s| && r == s[|s| - |r|..]
    ensures AllQuotes(s[..|s| - |r|])
    ensures |r| == 0 || r[0] != '"'
  {
    if |s| > 0 && s[0] == '"' then TrimStart(s[1..]) else s
  }

  /** `s` with every trailing double quote removed. */
  function TrimEnd(s: string): (r: string)
    ensures |r| <= |s| && r == s[..|r|]
    ensures AllQuotes(s[|r|..])
    ensures |r| == 0 || r[|r| - 1] != '"'
  {
    if |s| > 0 && s[|s| - 1] == '"' then
      var r := TrimEnd(s[..|s| - 1]);
      assert s[|r|..] == s[..|s| - 1][|r|..] + [s[|s| - 1]];
      r
    else s
  }

  /** `r` sits in `s` at offset `i` with nothing but quotes before and after it. */
  predicate QuotedAt(s: string, r: string, i: nat) {
    && i + |r| <= |s|
    && s[i..i + |r|] == r
    && AllQuotes(s[..i])
    && AllQuotes(s[i + |r|..])
  }

  /**
   * Rust's `trim_matches('"')`: the middle part of `s` that is bordered by
   * nothing but quotes and neither starts nor ends with one.
   */
  function TrimQuotes(s: string): (r: string)
    ensures |r| <= |s|
    ensures Unquoted(r)
    ensures exists i: nat :: QuotedAt(s, r, i)
  {
    var t := TrimStart(s);
    var r := TrimEnd(t);
    MiddleOf(s, t, r);
    r
  }

  /**
   * Trimming quotes from the front of `s` (giving `t`) and then from the
   * back of `t` (giving `r`) leaves `r` at the start trim's offset in `s`.
   */
  lemma {:induction false} MiddleOf(s: string, t: string, r: string)
    requires |t| <= |s| && t == s[|s| - |t|..] && AllQuotes(s[..|s| - |t|]) && (|t| == 0 || t[0] != '"')
    requires |r| <= |t| && r == t[..|r|] && AllQuotes(t[|r|..]) && (|r| == 0 || r[|r| - 1] != '"')
    ensures Unquoted(r)
    ensures QuotedAt(s, r, |s| - |t|)
  {
    var i := |s| - |t|;
    assert t == s[i..];
    assert r == t[..|r|];
    assert s[i..i + |r|] == r by {
      assert s[i..i + |r|] == s[i..][..|r|];
    }
    assert s[i + |r|..] == t[|r|..] by {
      assert s[i + |r|..] == s[i..][|r|..];
    }
    assert |r| > 0 ==> r[0] == t[0];
  }

  /** The attribute is `#[builder(...)]`: path exactly `builder`, content a parenthesised list. */
  predicate IsBuilderList(attr: Attribute) {
    IsIdent(attr.meta.AttrPath(), "builder") && attr.meta.MetaList?
  }

  /** The tokens begin with `each`, `=`, and a literal; anything after those is not looked at. */
  predicate EachTokens(tokens: seq<TokenTree>) {
    && |tokens| >= 3
    && tokens[0] == Ident("each")
    && tokens[1] == Punct('=')
    && tokens[2].Literal?
  }

  /** Token-by-token check of `each = <literal>`; the first token that does not fit ends it. */
  function ParseEachTokens(tokens: seq<TokenTree>): Result<string, Error> {
    if |tokens| == 0 then Err(Single(EachMessage))
    else match tokens[0]
      case Ident(name) =>
        if name != "each" then Err(Single(EachMessage))
        else if |tokens| == 1 then Err(Single(EachMessage))
        else (match tokens[1]
          case Punct(ch) =>
            if ch != '=' then Err(Single(EachMessage))
            else if |tokens| == 2 then Err(Single(EachMessage))
            else (match tokens[2]
              case Literal(text) => Ok(TrimQuotes(text))
              case _ => Err(Single(EachMessage)))
          case _ => Err(Single(EachMessage)))
      case _ => Err(Single(EachMessage))
  }

  /**
   * The name given by a field's `each` annotation, `None` when the field
   * has no attribute at all, or the syntax error. Only the first attribute
   * is read, and a doc comment is an attribute too: a field whose first
   * attribute is a doc comment is rejected here.
   */
  function ParseEach(attrs: seq<Attribute>): (r: Result<Option<string>, Error>)
    ensures |attrs| == 0 ==> r == Ok(None)
    ensures |attrs| > 0 && !IsBuilderList(attrs[0]) ==> r == Err(Single(AttributeMessage))
    ensures |attrs| > 0 && IsBuilderList(attrs[0]) && !EachTokens(attrs[0].meta.tokens)
            ==> r == Err(Single(EachMessage))
    ensures |attrs| > 0 && IsBuilderList(attrs[0]) && EachTokens(attrs[0].meta.tokens)
            ==> r == Ok(Some(TrimQuotes(attrs[0].meta.tokens[2].text)))
    ensures r.Err? ==> |r.error.messages| == 1
  {
    if |attrs| == 0 then Ok(None)
    else
      var attr := attrs[0];
      if !IsIdent(attr.meta.AttrPath(), "builder") then Err(Single(AttributeMessage))
      else match attr.meta
        case MetaList(_, tokens) =>
          (match ParseEachTokens(tokens)
           case Ok(each) => Ok(Some(each))
           case Err(e) => Err(e))
        case _ => Err(Single(AttributeMessage))
  }

  /** The string literal `"name"` as it appears in source. */
  function Quote(name: string): string {
    "\"" + name + "\""
  }

  /** The annotation `#[builder(each = "name")]`. */
  function EachAttribute(name: string): Attribute {
    Attribute(MetaList(SimplePath("builder"), [Ident("each"), Punct('='), Literal(Quote(name))]))
  }

  /** A doc comment `/// ...`, which reaches the macro as `#[doc = "..."]`. */
  function DocComment(): Attribute {
    Attribute(MetaNameValue(SimplePath("doc")))
  }

  /** Quoting a name that does not itself start or end with a quote, then trimming, gives the name back. */
  lemma {:induction false} TrimQuote(name: string)
    requires Unquoted(name)
    ensures TrimQuotes(Quote(name)) == name
  {
    var q := Quote(name);
    assert q[1..] == name + "\"";
    if |name| == 0 {
      assert TrimStart(q) == TrimStart("\"") == TrimStart("");
    } else {
      assert TrimStart(name + "\"") == name + "\"";
      assert (name + "\"")[..|name|] == name;
    }
  }

  /** Writing the annotation and parsing it back gives the name, whatever attributes follow. */
  lemma ParseEachAttribute(name: string, rest: seq<Attribute>)
    requires Unquoted(name)
    ensures ParseEach([EachAttribute(name)] + rest) == Ok(Some(name))
  {
    TrimQuote(name);
  }

  /** A doc comment written before the annotation makes the field an error. */
  lemma DocCommentFirstRejected(rest: seq<Attribute>)
    ensures ParseEach([DocComment()] + rest) == Err(Single(AttributeMessage))
  {
  }

  /** Attributes after the first never change the outcome. */
  lemma ParseEachFirstOnly(attr: Attribute, rest: seq<Attribute>)
    ensures ParseEach([attr] + rest) == ParseEach([attr])
  {
  }

  /** Tokens after the literal never change the outcome. */
  lemma ParseEachIgnoresTrailingTokens(path: Path, tokens: seq<TokenTree>, extra: seq<TokenTree>)
    requires |tokens| >= 3
    ensures ParseEach([Attribute(MetaList(path, tokens + extra))]) == ParseEach([Attribute(MetaList(path, tokens))])
  {
    assert (tokens + extra)[..3] == tokens[..3];
  }
}
