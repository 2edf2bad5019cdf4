/*
 * `Scraper.get_url` (new.py:18-19): the scraper's URL template filled in by
 * Python's `str.format`, called with keyword arguments only (the subclass's
 * extra parameters, then `method`).
 *
 * `Format` covers the part of the format-string grammar that the harvester's
 * URL templates use: literal text is copied, `{{` and `}}` stand for single
 * braces, a lone `}` and an unclosed `{` are errors, and `{name}` is replaced
 * by the keyword argument `name`. Fields are rendered left to right, so the
 * first problem met is the one raised. Conversions (`!r`), format specs
 * (`:>5`), attribute and index lookups (`.x`, `[0]`) and fields nested in a
 * spec are not interpreted: the whole text between the braces is the name.
 */
module Template {
  import opened Wrappers
  import opened Text

  /** `c` in front of a successful result; errors pass through. */
  function Prepend(c: char, r: Result<string>): Result<string> {
    match r
    case Ok(s) => Ok([c] + s)
    case Err(e) => Err(e)
  }

  /** The first `}` at or after `i`: where a replacement field opened before `i` closes. */
  function CloseAt(t: string, i: nat): (r: Option<nat>)
    requires i <= |t|
    ensures r.Some? ==> i <= r.value < |t| && t[r.value] == '}'
    ensures r.Some? ==> forall k :: i <= k < r.value ==> t[k] != '}'
    ensures r.None? ==> forall k :: i <= k < |t| ==> t[k] != '}'
    decreases |t| - i
  {
    if i == |t| then None else if t[i] == '}' then Some(i) else CloseAt(t, i + 1)
  }

  /** An empty or all-digit field name refers to a positional argument. */
  predicate IsPositional(name: string) {
    forall k :: 0 <= k < |name| ==> IsDigit(name[k])
  }

  /** The value of one field: keyword arguments only, so positional fields fail. */
  function Lookup(name: string, args: map<string, string>): Result<string> {
    if IsPositional(name) then Err(IndexError)
    else if name in args then Ok(args[name])
    else Err(KeyError)
  }

  /** `t.format(**args)`. */
  function Format(t: string, args: map<string, string>): Result<string>
    decreases |t|
  {
    if t == [] then Ok([])
    else if t[0] == '{' && |t| >= 2 && t[1] == '{' then Prepend('{', Format(t[2..], args))
    else if t[0] == '}' && |t| >= 2 && t[1] == '}' then Prepend('}', Format(t[2..], args))
    else if t[0] == '}' then Err(ValueError)
    else if t[0] == '{' then
      match CloseAt(t, 1)
      case None => Err(ValueError)
      case Some(j) =>
        if '{' in t[1..j] then Err(ValueError)
        else
          match Lookup(t[1..j], args)
          case Err(e) => Err(e)
          case Ok(v) =>
            match Format(t[j + 1..], args)
            case Err(e) => Err(e)
            case Ok(rest) => Ok(v + rest)
    else Prepend(t[0], Format(t[1..], args))
  }

  /** Literal text as a template: every brace doubled. */
  function Escape(s: string): (r: string)
    ensures |r| >= |s|
  {
    if s == [] then []
    else if s[0] == '{' || s[0] == '}' then [s[0], s[0]] + Escape(s[1..])
    else [s[0]] + Escape(s[1..])
  }

  predicate NoBraces(s: string) {
    forall k :: 0 <= k < |s| ==> s[k] != '{' && s[k] != '}'
  }

  /**
   * `get_url`: the template filled with the extra keyword arguments and with
   * `method` bound to the scraper's kind; naming `method` twice is a TypeError.
   */
  function GetUrl(template: string, kind: string, args: map<string, string>): Result<string> {
    if "method" in args then Err(TypeError)
    else Format(template, args["method" := kind])
  }

  // ---------------------------------------------------------------------------
  // Properties
  // ---------------------------------------------------------------------------

  /** Formatting escaped text reads one escaped character at a time. */
  lemma FormatEscapeStep(a: string, u: string, args: map<string, string>)
    requires a != []
    ensures Format(Escape(a) + u, args) == Prepend(a[0], Format(Escape(a[1..]) + u, args))
  {
    var t, rest := Escape(a) + u, Escape(a[1..]) + u;
    if a[0] == '{' || a[0] == '}' {
      assert t == [a[0], a[0]] + rest;
      assert t[2..] == rest;
      FormatDoubled(t, args);
    } else {
      assert t == [a[0]] + rest;
      assert t[1..] == rest;
      FormatPlain(t, args);
    }
  }

  /** A doubled brace is copied once. */
  lemma FormatDoubled(t: string, args: map<string, string>)
    requires |t| >= 2 && t[0] == t[1] && (t[0] == '{' || t[0] == '}')
    ensures Format(t, args) == Prepend(t[0], Format(t[2..], args))
  {
  }

  /** A character other than a brace is copied. */
  lemma FormatPlain(t: string, args: map<string, string>)
    requires |t| >= 1 && t[0] != '{' && t[0] != '}'
    ensures Format(t, args) == Prepend(t[0], Format(t[1..], args))
  {
  }

  /** Escaped text in front of a template is copied to the front of the result. */
  lemma {:induction false} FormatAfterEscape(a: string, u: string, args: map<string, string>)
    ensures Format(Escape(a) + u, args) ==
      match Format(u, args)
      case Ok(r) => Ok(a + r)
      case Err(e) => Err(e)
    decreases |a|
  {
    if a == [] {
      assert Escape(a) + u == u;
      match Format(u, args)
      case Ok(r) =>
        assert a + r == r;
      case Err(_) =>
    } else {
      FormatAfterEscape(a[1..], u, args);
      FormatEscapeStep(a, u, args);
      var whole, tail, f := Format(Escape(a) + u, args), Format(Escape(a[1..]) + u, args), Format(u, args);
      PrependAfter(a, whole, tail, f);
    }
  }

  /** `FormatAfterEscape` for `a`, from the same for `a[1..]`. */
  lemma PrependAfter(a: string, whole: Result<string>, tail: Result<string>, f: Result<string>)
    requires a != [] && whole == Prepend(a[0], tail)
    requires tail == match f case Ok(r) => Ok(a[1..] + r) case Err(e) => Err(e)
    ensures whole == match f case Ok(r) => Ok(a + r) case Err(e) => Err(e)
  {
    if f.Ok? {
      assert [a[0]] + (a[1..] + f.value) == a + f.value;
    }
  }

  /** Formatting escaped text gives the text back, whatever the arguments. */
  lemma FormatEscape(s: string, args: map<string, string>)
    ensures Format(Escape(s), args) == Ok(s)
  {
    FormatAfterEscape(s, [], args);
    assert Escape(s) + [] == Escape(s);
    assert s + [] == s;
  }

  /** Text without braces needs no escaping. */
  lemma {:induction false} EscapeNoBraces(s: string)
    requires NoBraces(s)
    ensures Escape(s) == s
    decreases |s|
  {
    if s != [] {
      EscapeNoBraces(s[1..]);
    }
  }

  /** A URL with no braces, such as one an f-string has already filled in, is returned unchanged. */
  lemma FormatNoBraces(s: string, args: map<string, string>)
    requires NoBraces(s)
    ensures Format(s, args) == Ok(s)
  {
    EscapeNoBraces(s);
    FormatEscape(s, args);
  }

  /**
   * A keyword field is replaced by its argument, or fails with KeyError when
   * there is none; the rest of the template is formatted after it.
   */
  lemma FormatField(a: string, name: string, rest: string, args: map<string, string>)
    requires NoBraces(name) && !IsPositional(name)
    ensures Format(Escape(a) + "{" + name + "}" + rest, args) ==
      if name !in args then Err(KeyError)
      else match Format(rest, args)
        case Ok(r) => Ok(a + args[name] + r)
        case Err(e) => Err(e)
  {
    var u := "{" + name + "}" + rest;
    assert Escape(a) + "{" + name + "}" + rest == Escape(a) + u;
    FormatAfterEscape(a, u, args);
    FormatOpenField(name, rest, args);
    if name in args {
      match Format(rest, args)
      case Ok(r) =>
        assert a + (args[name] + r) == a + args[name] + r;
      case Err(_) =>
    }
  }

  /** A template that opens with a field: the field's value, then the rest formatted. */
  lemma FormatOpenField(name: string, rest: string, args: map<string, string>)
    requires NoBraces(name)
    ensures Format("{" + name + "}" + rest, args) ==
      match Lookup(name, args)
      case Err(e) => Err(e)
      case Ok(v) =>
        match Format(rest, args)
        case Err(e) => Err(e)
        case Ok(r) => Ok(v + r)
  {
    var u := "{" + name + "}" + rest;
    CloseAtField(name, rest);
    assert u[1..|name| + 1] == name;
    assert u[|name| + 2..] == rest;
    assert '{' !in name;
  }

  lemma CloseAtField(name: string, rest: string)
    requires NoBraces(name)
    ensures CloseAt("{" + name + "}" + rest, 1) == Some(|name| + 1)
  {
    var u := "{" + name + "}" + rest;
    var k := 1;
    while k < |name| + 1
      invariant 1 <= k <= |name| + 1
      invariant CloseAt(u, k) == CloseAt(u, 1)
    {
      assert u[k] == name[k - 1];
      k := k + 1;
    }
  }

  /** A positional field such as `{}` or `{0}` fails: `get_url` passes no positional arguments. */
  lemma FormatPositional(a: string, name: string, rest: string, args: map<string, string>)
    requires NoBraces(name) && IsPositional(name)
    ensures Format(Escape(a) + "{" + name + "}" + rest, args) == Err(IndexError)
  {
    var u := "{" + name + "}" + rest;
    assert Escape(a) + "{" + name + "}" + rest == Escape(a) + u;
    FormatAfterEscape(a, u, args);
    FormatOpenField(name, rest, args);
  }

  /** A `}` that is not doubled is an error. */
  lemma FormatLoneClose(a: string, rest: string, args: map<string, string>)
    requires rest == [] || rest[0] != '}'
    ensures Format(Escape(a) + "}" + rest, args) == Err(ValueError)
  {
    assert Escape(a) + "}" + rest == Escape(a) + ("}" + rest);
    FormatAfterEscape(a, "}" + rest, args);
  }

  /** A `{` that is never closed is an error. */
  lemma FormatUnclosed(a: string, name: string, args: map<string, string>)
    requires NoBraces(name)
    ensures Format(Escape(a) + "{" + name, args) == Err(ValueError)
  {
    var u := "{" + name;
    assert Escape(a) + "{" + name == Escape(a) + u;
    FormatAfterEscape(a, u, args);
    assert |u| >= 2 ==> u[1] == name[0];
    assert forall k :: 1 <= k < |u| ==> u[k] == name[k - 1];
    assert CloseAt(u, 1) == None;
  }

  /** A field named by a non-ASCII decimal digit, such as `{٠}`, is positional too. */
  lemma NonAsciiIndexIsPositional(a: string, rest: string, args: map<string, string>)
    ensures Format(Escape(a) + "{\U{660}}" + rest, args) == Err(IndexError)
  {
    var name := "\U{660}";
    assert IsDigit(name[0]);
    assert Escape(a) + "{\U{660}}" + rest == Escape(a) + "{" + name + "}" + rest;
    FormatPositional(a, name, rest, args);
  }

  /** `get_url` puts the scraper's kind where the template says `{method}`. */
  lemma GetUrlFillsMethod(a: string, b: string, kind: string, args: map<string, string>)
    requires "method" !in args
    ensures GetUrl(Escape(a) + "{method}" + Escape(b), kind, args) == Ok(a + kind + b)
  {
    var full := args["method" := kind];
    assert !IsPositional("method") by {
      assert !IsDigit("method"[0]);
    }
    assert Escape(a) + "{method}" + Escape(b) == Escape(a) + "{" + "method" + "}" + Escape(b);
    FormatField(a, "method", Escape(b), full);
    FormatEscape(b, full);
  }
}
