/**
 Python's `str.format(**kwargs)` restricted to what endpoint templates use:
 literal text, `{{` and `}}` escapes, and `{name}` fields looked up by
 keyword. Field names with an attribute, index, conversion or format spec
 (`.`, `[`, `!`, `:`) and nested braces are outside the model and give
 `Unsupported`.
 */
module StrFormat {
  import opened Wrappers
  import opened Errors
  import opened Strings

  /** Position of the first `}` in `s`, or `|s|` when there is none. */
  function CloseIndex(s: string): (n: nat)
    ensures n <= |s|
    ensures forall i :: 0 <= i < n ==> s[i] != '}'
    ensures n < |s| ==> s[n] == '}'
  {
    if |s| == 0 || s[0] == '}' then 0 else 1 + CloseIndex(s[1..])
  }

  predicate SimpleName(name: string) {
    forall i :: 0 <= i < |name| ==> name[i] !in {'{', '}', '.', '[', '!', ':'}
  }

  /**
   The value of one field: an empty or all-digit name is positional and
   there are no positional arguments; any other simple name is a keyword.
   */
  function Lookup(name: string, kwargs: map<string, string>): (r: Result<string>)
    ensures r.Ok? <==> SimpleName(name) && !AllDigits(name) && name in kwargs
    ensures r.Ok? ==> r.value == kwargs[name]
    ensures SimpleName(name) && AllDigits(name) ==> r == Err(PositionalPlaceholder(name))
    ensures SimpleName(name) && !AllDigits(name) && name !in kwargs ==> r == Err(MissingPlaceholder(name))
  {
    if !SimpleName(name) then Err(Unsupported("field " + name))
    else if AllDigits(name) then Err(PositionalPlaceholder(name))
    else if name in kwargs then Ok(kwargs[name])
    else Err(MissingPlaceholder(name))
  }

  function Prepend(prefix: string, r: Result<string>): Result<string> {
    match r
    case Ok(s) => Ok(prefix + s)
    case Err(e) => Err(e)
  }

  /**
   `template.format(**kwargs)`, scanning left to right and failing at the
   first problem met: a `ValueError` for unbalanced braces, a `KeyError`
   for a missing keyword, an `IndexError` for a positional field.
   */
  function Format(t: string, kwargs: map<string, string>): (r: Result<string>)
    ensures r.Err? ==> || r.error == FormatSyntax || r.error.MissingPlaceholder?
                       || r.error.PositionalPlaceholder? || r.error.Unsupported?
    ensures BraceFree(t) ==> r == Ok(t)
    decreases |t|
  {
    if t == [] then Ok([])
    else if t[0] == '{' then
      if |t| >= 2 && t[1] == '{' then Prepend("{", Format(t[2..], kwargs))
      else
        var s := t[1..];
        var e := CloseIndex(s);
        if e == |s| then Err(FormatSyntax)
        else
          match Lookup(s[..e], kwargs)
          case Err(err) => Err(err)
          case Ok(v) => Prepend(v, Format(s[e + 1..], kwargs))
    else if t[0] == '}' then
      if |t| >= 2 && t[1] == '}' then Prepend("}", Format(t[2..], kwargs))
      else Err(FormatSyntax)
    else
      assert BraceFree(t) ==> BraceFree(t[1..]);
      assert [t[0]] + t[1..] == t;
      Prepend([t[0]], Format(t[1..], kwargs))
  }

  // ---------------------------------------------------------------------
  // The template as a sequence of pieces

  datatype Piece = Lit(c: char) | Field(name: string)

  function PrependPiece(p: Piece, r: Result<seq<Piece>>): Result<seq<Piece>> {
    match r
    case Ok(ps) => Ok([p] + ps)
    case Err(e) => Err(e)
  }

  /** The syntax of a template, independent of the arguments. */
  function Parse(t: string): Result<seq<Piece>>
    decreases |t|
  {
    if t == [] then Ok([])
    else if t[0] == '{' then
      if |t| >= 2 && t[1] == '{' then PrependPiece(Lit('{'), Parse(t[2..]))
      else
        var s := t[1..];
        var e := CloseIndex(s);
        if e == |s| then Err(FormatSyntax)
        else if !SimpleName(s[..e]) then Err(Unsupported("field " + s[..e]))
        else PrependPiece(Field(s[..e]), Parse(s[e + 1..]))
    else if t[0] == '}' then
      if |t| >= 2 && t[1] == '}' then PrependPiece(Lit('}'), Parse(t[2..]))
      else Err(FormatSyntax)
    else PrependPiece(Lit(t[0]), Parse(t[1..]))
  }

  /** The pieces with every field replaced by its keyword value. */
  function Render(ps: seq<Piece>, kwargs: map<string, string>): Result<string> {
    if ps == [] then Ok([])
    else
      match ps[0]
      case Lit(c) => Prepend([c], Render(ps[1..], kwargs))
      case Field(n) =>
        match Lookup(n, kwargs)
        case Err(err) => Err(err)
        case Ok(v) => Prepend(v, Render(ps[1..], kwargs))
  }

  /** Formatting succeeds exactly when the template parses and every field has a value, and then renders the pieces. */
  lemma {:induction false} FormatIsParseThenRender(t: string, kwargs: map<string, string>)
    ensures Format(t, kwargs).Ok? <==> Parse(t).Ok? && Render(Parse(t).value, kwargs).Ok?
    ensures Format(t, kwargs).Ok? ==> Format(t, kwargs) == Render(Parse(t).value, kwargs)
    decreases |t|
  {
    if t == [] {
    } else if t[0] == '{' {
      if |t| >= 2 && t[1] == '{' {
        FormatIsParseThenRender(t[2..], kwargs);
      } else {
        var s := t[1..];
        var e := CloseIndex(s);
        if e < |s| {
          FormatIsParseThenRender(s[e + 1..], kwargs);
        }
      }
    } else if t[0] == '}' {
      if |t| >= 2 && t[1] == '}' {
        FormatIsParseThenRender(t[2..], kwargs);
      }
    } else {
      FormatIsParseThenRender(t[1..], kwargs);
    }
  }

  /** The template text of one piece: braces doubled, fields in braces. */
  function UnparsePiece(p: Piece): string {
    match p
    case Lit(c) => if c == '{' then "{{" else if c == '}' then "}}" else [c]
    case Field(n) => "{" + n + "}"
  }

  function Unparse(ps: seq<Piece>): string {
    if ps == [] then [] else UnparsePiece(ps[0]) + Unparse(ps[1..])
  }

  predicate SimpleFields(ps: seq<Piece>) {
    forall i :: 0 <= i < |ps| ==> ps[i].Field? ==> SimpleName(ps[i].name)
  }

  lemma ParsePiece(p: Piece, rest: string)
    requires p.Field? ==> SimpleName(p.name)
    ensures Parse(UnparsePiece(p) + rest) == PrependPiece(p, Parse(rest))
  {
    var t := UnparsePiece(p) + rest;
    match p
    case Lit(c) =>
      if c == '{' || c == '}' {
        assert t[2..] == rest;
      } else {
        assert t[1..] == rest;
      }
    case Field(n) =>
      var s := t[1..];
      assert s == n + "}" + rest;
      CloseIndexAt(s, |n|);
      assert s[..|n|] == n;
      assert s[|n| + 1..] == rest;
  }

  lemma CloseIndexAt(s: string, n: nat)
    requires n < |s| && s[n] == '}' && forall i :: 0 <= i < n ==> s[i] != '}'
    ensures CloseIndex(s) == n
  {
  }

  /** Parsing the text of a piece sequence gives the pieces back. */
  lemma {:induction false} ParseUnparse(ps: seq<Piece>)
    requires SimpleFields(ps)
    ensures Parse(Unparse(ps)) == Ok(ps)
  {
    if ps != [] {
      ParseUnparse(ps[1..]);
      ParsePiece(ps[0], Unparse(ps[1..]));
      assert [ps[0]] + ps[1..] == ps;
    }
  }

  predicate BraceFree(t: string) {
    forall i :: 0 <= i < |t| ==> t[i] != '{' && t[i] != '}'
  }

  /** A template without braces formats to itself, whatever the arguments. */
  lemma {:induction false} BraceFreeUnchanged(t: string, kwargs: map<string, string>)
    requires BraceFree(t)
    ensures Format(t, kwargs) == Ok(t)
  {
    if t != [] {
      BraceFreeUnchanged(t[1..], kwargs);
      assert [t[0]] + t[1..] == t;
    }
  }

  lemma FormatLiteral(t: string, kwargs: map<string, string>)
    requires t != [] && t[0] != '{' && t[0] != '}'
    ensures Format(t, kwargs) == Prepend([t[0]], Format(t[1..], kwargs))
  {
  }

  lemma PrependTwice(a: string, b: string, r: Result<string>)
    ensures Prepend(a, Prepend(b, r)) == Prepend(a + b, r)
  {
    if r.Ok? {
      assert a + (b + r.value) == (a + b) + r.value;
    }
  }

  /** A field is replaced by its looked-up value, or the lookup's error ends the formatting. */
  lemma FormatField(name: string, rest: string, kwargs: map<string, string>)
    requires forall i :: 0 <= i < |name| ==> name[i] != '}'
    requires |name| > 0 ==> name[0] != '{'
    ensures Lookup(name, kwargs).Err? ==> Format("{" + name + "}" + rest, kwargs) == Err(Lookup(name, kwargs).error)
    ensures Lookup(name, kwargs).Ok? ==>
              Format("{" + name + "}" + rest, kwargs) == Prepend(Lookup(name, kwargs).value, Format(rest, kwargs))
  {
    var t := "{" + name + "}" + rest;
    var s := t[1..];
    assert s == name + "}" + rest;
    CloseIndexAt(s, |name|);
    assert s[..|name|] == name;
    assert s[|name| + 1..] == rest;
  }

  /** Literal text in front of a template is copied through unchanged. */
  lemma {:induction false} BraceFreePrefix(a: string, b: string, kwargs: map<string, string>)
    requires BraceFree(a)
    ensures Format(a + b, kwargs) == Prepend(a, Format(b, kwargs))
    decreases |a|
  {
    if a == [] {
      assert a + b == b;
      var r := Format(b, kwargs);
      if r.Ok? {
        assert a + r.value == r.value;
      }
    } else {
      var t := a + b;
      assert t[0] == a[0] && a[0] != '{' && a[0] != '}';
      FormatLiteral(t, kwargs);
      assert t[1..] == a[1..] + b;
      assert BraceFree(a[1..]);
      BraceFreePrefix(a[1..], b, kwargs);
      PrependTwice([a[0]], a[1..], Format(b, kwargs));
      assert [a[0]] + a[1..] == a;
    }
  }
}
