/** Python's `str.format(**kwargs)` for templates with named fields.
    A template is text in which `{{` and `}}` stand for literal braces and
    `{name}` is replaced by the keyword argument `name`. Templates are
    described here as lists of pieces; `Render` writes such a list as
    template text, and the round trip `Format(Render(p), env)` gives the
    pieces' text with the fields filled in. */
module PyFormat {
  import opened Outcomes
  import opened Strings

  datatype Piece = Lit(text: string) | Field(name: string)

  /** ValueError (unbalanced or misplaced brace) and KeyError/IndexError
      (a field with no keyword argument; `{}` asks for a positional one). */
  datatype FormatError = BadFormat | MissingArgument(name: string)

  type Env = map<string, string>

  function Prefixed(p: string, r: Result<string, FormatError>): (q: Result<string, FormatError>)
    ensures q.Ok? <==> r.Ok?
  {
    match r
    case Ok(s) => Ok(p + s)
    case Err(e) => Err(e)
  }

  /** The interpreter: scans left to right and stops at the first error. */
  function Format(t: string, env: Env): (r: Result<string, FormatError>)
    decreases |t|
  {
    if t == [] then Ok([])
    else if t[0] == '{' then
      if |t| >= 2 && t[1] == '{' then Prefixed("{", Format(t[2..], env))
      else
        var k := IndexOf(t[1..], '}');
        if k < 0 then Err(BadFormat)
        else
          var name := t[1..k + 1];
          if '{' in name then Err(BadFormat)
          else if name == [] || name !in env then Err(MissingArgument(name))
          else Prefixed(env[name], Format(t[k + 2..], env))
    else if t[0] == '}' then
      if |t| >= 2 && t[1] == '}' then Prefixed("}", Format(t[2..], env)) else Err(BadFormat)
    else Prefixed([t[0]], Format(t[1..], env))
  }

  /** Doubles every brace, so that the text formats to itself. */
  function Escape(s: string): (r: string)
    ensures |r| >= |s|
  {
    if s == [] then []
    else if s[0] == '{' || s[0] == '}' then [s[0], s[0]] + Escape(s[1..])
    else [s[0]] + Escape(s[1..])
  }

  predicate ValidName(n: string) {
    n != [] && '{' !in n && '}' !in n
  }

  /** Every field of `pieces` is a plain name that `env` supplies. */
  predicate Fills(pieces: seq<Piece>, env: Env) {
    forall i :: 0 <= i < |pieces| && pieces[i].Field? ==> ValidName(pieces[i].name) && pieces[i].name in env
  }

  function Render(pieces: seq<Piece>): string {
    if pieces == [] then []
    else
      match pieces[0]
      case Lit(s) => Escape(s) + Render(pieces[1..])
      case Field(n) => "{" + n + "}" + Render(pieces[1..])
  }

  /** The text the pieces stand for once every field is replaced. */
  function Subst(pieces: seq<Piece>, env: Env): string
    requires Fills(pieces, env)
  {
    if pieces == [] then []
    else
      match pieces[0]
      case Lit(s) => s + Subst(pieces[1..], env)
      case Field(n) => env[n] + Subst(pieces[1..], env)
  }

  lemma PrefixedTwice(a: string, b: string, r: Result<string, FormatError>)
    ensures Prefixed(a, Prefixed(b, r)) == Prefixed(a + b, r)
  {
    if r.Ok? {
      assert a + (b + r.value) == (a + b) + r.value;
    }
  }

  /** A doubled brace formats to one brace. */
  lemma FormatBraceStep(c: char, tail: string, env: Env)
    requires c == '{' || c == '}'
    ensures Format([c, c] + tail, env) == Prefixed([c], Format(tail, env))
  {
    var t := [c, c] + tail;
    assert t[0] == c && t[1] == c && t[2..] == tail;
  }

  /** Any other character formats to itself. */
  lemma FormatPlainStep(c: char, tail: string, env: Env)
    requires c != '{' && c != '}'
    ensures Format([c] + tail, env) == Prefixed([c], Format(tail, env))
  {
    var t := [c] + tail;
    assert t[0] == c && t[1..] == tail;
  }

  /** Escaped literal text formats back to itself. */
  lemma {:induction false} FormatEscape(s: string, rest: string, env: Env)
    ensures Format(Escape(s) + rest, env) == Prefixed(s, Format(rest, env))
    decreases |s|
  {
    if s == [] {
      assert Escape(s) + rest == rest;
      match Format(rest, env)
      case Ok(u) => assert [] + u == u;
      case Err(_) =>
    } else {
      FormatEscape(s[1..], rest, env);
      FormatEscapeStep(s, rest, env);
    }
  }

  /** One character more of escaped text: the step of `FormatEscape`. */
  lemma FormatEscapeStep(s: string, rest: string, env: Env)
    requires s != []
    requires Format(Escape(s[1..]) + rest, env) == Prefixed(s[1..], Format(rest, env))
    ensures Format(Escape(s) + rest, env) == Prefixed(s, Format(rest, env))
  {
    var tail := Escape(s[1..]) + rest;
    var head := if s[0] == '{' || s[0] == '}' then [s[0], s[0]] else [s[0]];
    EscapeHead(s, head, rest);
    FormatHead(s[0], head, tail, env);
    PrefixedCons(s, Format(head + tail, env), Format(tail, env), Format(rest, env));
  }

  lemma PrefixedCons(s: string, a: Result<string, FormatError>, b: Result<string, FormatError>, r: Result<string, FormatError>)
    requires s != []
    requires a == Prefixed([s[0]], b) && b == Prefixed(s[1..], r)
    ensures a == Prefixed(s, r)
  {
    PrefixedTwice([s[0]], s[1..], r);
    assert [s[0]] + s[1..] == s;
  }

  lemma EscapeHead(s: string, head: string, rest: string)
    requires s != []
    requires head == if s[0] == '{' || s[0] == '}' then [s[0], s[0]] else [s[0]]
    ensures Escape(s) + rest == head + (Escape(s[1..]) + rest)
  {
    var e := Escape(s[1..]);
    assert Escape(s) == head + e;
    ConcatAssoc(head, e, rest);
  }

  lemma ConcatAssoc(a: string, b: string, c: string)
    ensures (a + b) + c == a + (b + c)
  {
  }

  /** The escaped form of one character formats to that character. */
  lemma FormatHead(c: char, head: string, tail: string, env: Env)
    requires head == if c == '{' || c == '}' then [c, c] else [c]
    ensures Format(head + tail, env) == Prefixed([c], Format(tail, env))
  {
    if c == '{' || c == '}' {
      FormatBraceStep(c, tail, env);
    } else {
      FormatPlainStep(c, tail, env);
    }
  }

  /** A field written `{name}` formats to its argument. */
  lemma FormatField(n: string, rest: string, env: Env)
    requires ValidName(n) && n in env
    ensures Format("{" + n + "}" + rest, env) == Prefixed(env[n], Format(rest, env))
  {
    var t := "{" + n + "}" + rest;
    assert t[1..] == n + "}" + rest;
    IndexOfAfter(n, '}', rest);
    assert t[1..|n| + 1] == n;
    assert t[|n| + 2..] == rest;
    FormatOpenField(t, |n|, env);
  }

  /** The case of `Format` that reads a field: `{`, then a name closed by
      the first `}`. */
  lemma FormatOpenField(t: string, k: nat, env: Env)
    requires |t| >= 2 && t[0] == '{' && t[1] != '{'
    requires k + 1 < |t| && IndexOf(t[1..], '}') == k
    requires ValidName(t[1..k + 1]) && t[1..k + 1] in env
    ensures Format(t, env) == Prefixed(env[t[1..k + 1]], Format(t[k + 2..], env))
  {
  }

  /** The round trip: a rendered template formats to its substitution. */
  lemma {:induction false} FormatRender(pieces: seq<Piece>, env: Env)
    requires Fills(pieces, env)
    ensures Format(Render(pieces), env) == Ok(Subst(pieces, env))
    decreases |pieces|
  {
    if pieces != [] {
      assert Fills(pieces[1..], env) by {
        forall i | 0 <= i < |pieces[1..]| && pieces[1..][i].Field?
          ensures ValidName(pieces[1..][i].name) && pieces[1..][i].name in env
        {
          assert pieces[1..][i] == pieces[i + 1];
        }
      }
      FormatRender(pieces[1..], env);
      match pieces[0]
      case Lit(s) =>
        FormatEscape(s, Render(pieces[1..]), env);
      case Field(n) =>
        assert pieces[0].Field?;
        FormatField(n, Render(pieces[1..]), env);
    }
  }

  /** Filling a template with two fields between three literals. */
  lemma SubstTwoFields(a: string, x: string, b: string, y: string, c: string, env: Env)
    requires ValidName(x) && x in env && ValidName(y) && y in env
    ensures Fills([Lit(a), Field(x), Lit(b), Field(y), Lit(c)], env)
    ensures Subst([Lit(a), Field(x), Lit(b), Field(y), Lit(c)], env) == a + env[x] + b + env[y] + c
  {
    var ps := [Lit(a), Field(x), Lit(b), Field(y), Lit(c)];
    assert Fills(ps, env);
    assert ps[4..][1..] == [];
    assert Subst(ps[4..], env) == c;
    assert ps[3..][1..] == ps[4..];
    assert Subst(ps[3..], env) == env[y] + c;
    assert ps[2..][1..] == ps[3..];
    assert Subst(ps[2..], env) == b + (env[y] + c);
    assert ps[1..][1..] == ps[2..];
    assert Subst(ps[1..], env) == env[x] + (b + (env[y] + c));
    assert ps[0..] == ps;
  }

  /** Filling a template with three fields between four literals. */
  lemma SubstThreeFields(a: string, x: string, b: string, y: string, c: string, z: string, d: string, env: Env)
    requires ValidName(x) && x in env && ValidName(y) && y in env && ValidName(z) && z in env
    ensures Fills([Lit(a), Field(x), Lit(b), Field(y), Lit(c), Field(z), Lit(d)], env)
    ensures Subst([Lit(a), Field(x), Lit(b), Field(y), Lit(c), Field(z), Lit(d)], env)
            == a + env[x] + b + env[y] + c + env[z] + d
  {
    var ps := [Lit(a), Field(x), Lit(b), Field(y), Lit(c), Field(z), Lit(d)];
    assert ps[1..][1..] == [Lit(b), Field(y), Lit(c), Field(z), Lit(d)];
    SubstTwoFields(b, y, c, z, d, env);
    assert ps[1..] == [Field(x)] + ps[1..][1..];
  }

  /** A lone `}` makes `format` raise, whatever literal text comes before
      it and whatever arguments are given: a template that is some text
      written with its braces doubled, then a `}` not followed by another. */
  lemma LoneCloseBrace(a: string, b: string, env: Env)
    requires b == [] || b[0] != '}'
    ensures Format(Escape(a) + "}" + b, env) == Err(BadFormat)
  {
    var rest := "}" + b;
    assert rest[0] == '}' && (|rest| >= 2 ==> rest[1] == b[0]);
    assert Format(rest, env) == Err(BadFormat);
    FormatEscape(a, rest, env);
    assert Escape(a) + "}" + b == Escape(a) + rest;
  }

  /** A two-field template formats to its fill. */
  lemma FormatTwoFields(a: string, x: string, b: string, y: string, c: string, env: Env)
    requires ValidName(x) && x in env && ValidName(y) && y in env
    ensures Format(Render([Lit(a), Field(x), Lit(b), Field(y), Lit(c)]), env) == Ok(a + env[x] + b + env[y] + c)
  {
    SubstTwoFields(a, x, b, y, c, env);
    FormatRender([Lit(a), Field(x), Lit(b), Field(y), Lit(c)], env);
  }
}
