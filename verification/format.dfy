/** Python's `str.format` with positional arguments only, as the digest header uses it:
    literal text is copied, `{{` and `}}` stand for single braces, and `{…}` is a
    replacement field whose name (the text before a ':' or '!') is empty for the next
    positional argument, a decimal index, or otherwise a keyword. No keyword arguments
    are ever passed, so a keyword field raises KeyError naming it. */
module StrFormat {
  import opened Json

  /** The first position at or after `from` holding `c`, or `|t|` when there is none. */
  function IndexOf(t: string, c: char, from: nat): (k: nat)
    requires from <= |t|
    ensures from <= k <= |t|
    ensures k < |t| ==> t[k] == c
    ensures forall i | from <= i < k :: t[i] != c
    decreases |t| - from
  {
    if from == |t| then |t|
    else if t[from] == c then from
    else IndexOf(t, c, from + 1)
  }

  /** The name of a replacement field: its text up to the first ':' or '!'. */
  function FieldName(field: string): (name: string)
    ensures |name| <= |field| && name == field[..|name|]
    ensures forall i | 0 <= i < |name| :: name[i] != ':' && name[i] != '!'
    ensures |name| < |field| ==> field[|name|] == ':' || field[|name|] == '!'
  {
    if field == [] || field[0] == ':' || field[0] == '!' then []
    else [field[0]] + FieldName(field[1..])
  }

  /** A field whose first ':' comes at `k`, with no '!' before it, is named by its first
      `k` characters. */
  lemma FieldNameAt(field: string, k: nat)
    requires k < |field| && field[k] == ':'
    requires forall i | 0 <= i < k :: field[i] != ':' && field[i] != '!'
    ensures FieldName(field) == field[..k]
  {
  }

  predicate IsDigits(s: string)
  {
    forall i | 0 <= i < |s| :: '0' <= s[i] <= '9'
  }

  function DigitsValue(s: string): nat
    requires IsDigits(s)
  {
    if s == [] then 0
    else DigitsValue(s[..|s| - 1]) * 10 + (s[|s| - 1] as int - '0' as int)
  }

  /** What one step of `str.format` consumes from the front of the template: the text
      it outputs, how many template characters it used, and the next automatic index. */
  datatype Token = Token(text: string, width: nat, next: nat)

  /** The replacement field at the front of `t` (which starts with `{`): the argument it
      names, or the exception Python raises for it. */
  function Field(t: string, args: seq<string>, next: nat): (r: Result<Token>)
    requires t != [] && t[0] == '{'
    ensures r.Ok? ==> 2 <= r.value.width <= |t|
  {
    var close := IndexOf(t, '}', 1);
    if close == |t| then Err(ValueError)
    else
      var name := FieldName(t[1..close]);
      if name == [] then
        if next < |args| then Ok(Token(args[next], close + 1, next + 1)) else Err(IndexError)
      else if IsDigits(name) then
        var k := DigitsValue(name);
        if k < |args| then Ok(Token(args[k], close + 1, next)) else Err(IndexError)
      else Err(KeyError(name))
  }

  /** The first literal character, escaped brace or replacement field of `t`. */
  function Step(t: string, args: seq<string>, next: nat): (r: Result<Token>)
    requires t != []
    ensures r.Ok? ==> 1 <= r.value.width <= |t|
  {
    if |t| >= 2 && t[0] == '{' && t[1] == '{' then Ok(Token("{", 2, next))
    else if |t| >= 2 && t[0] == '}' && t[1] == '}' then Ok(Token("}", 2, next))
    else if t[0] == '}' then Err(ValueError)
    else if t[0] != '{' then Ok(Token([t[0]], 1, next))
    else Field(t, args, next)
  }

  /** `s` put in front of a successful result; an exception passes through. */
  function Prefixed(s: string, r: Result<string>): Result<string>
  {
    match r
    case Ok(tail) => Ok(s + tail)
    case Err(e) => Err(e)
  }

  /** `t.format(*args)`, where `next` is the index the next automatically numbered field
      takes: the template is consumed step by step, front to back, and the first step
      that raises makes the whole call raise. */
  function Format(t: string, args: seq<string>, next: nat): (r: Result<string>)
    decreases |t|
  {
    if t == [] then Ok([])
    else
      match Step(t, args, next)
      case Err(e) => Err(e)
      case Ok(token) => Prefixed(token.text, Format(t[token.width..], args, token.next))
  }

  predicate NoBraces(s: string)
  {
    forall i | 0 <= i < |s| :: s[i] != '{' && s[i] != '}'
  }

  lemma NoBracesConcat(a: string, b: string)
    requires NoBraces(a) && NoBraces(b)
    ensures NoBraces(a + b)
  {
    assert forall i | |a| <= i < |a + b| :: (a + b)[i] == b[i - |a|];
  }

  /** One character written as literal text of a format string. */
  function Quote(c: char): (q: string)
    ensures |q| == if c == '{' || c == '}' then 2 else 1
  {
    if c == '{' then "{{" else if c == '}' then "}}" else [c]
  }

  /** `s` written as literal text of a format string: every brace doubled. */
  function Escape(s: string): string
  {
    if s == [] then [] else Quote(s[0]) + Escape(s[1..])
  }

  /** Text without braces needs no escaping. */
  lemma {:induction false} EscapeNoBraces(s: string)
    requires NoBraces(s)
    ensures Escape(s) == s
  {
    if s != [] {
      EscapeNoBraces(s[1..]);
      assert [s[0]] + s[1..] == s;
    }
  }

  lemma Associative<T>(a: seq<T>, b: seq<T>, c: seq<T>)
    ensures (a + b) + c == a + (b + c)
  {
  }

  lemma DropPrefix(a: string, b: string)
    ensures (a + b)[|a|..] == b
  {
  }

  lemma PrefixedTwice(a: string, b: string, r: Result<string>)
    ensures Prefixed(a, Prefixed(b, r)) == Prefixed(a + b, r)
  {
    match r
    case Ok(tail) => assert a + (b + tail) == (a + b) + tail;
    case Err(_) =>
  }

  /** A quoted character is read back as that one character. */
  lemma StepQuote(c: char, x: string, args: seq<string>, next: nat)
    ensures Step(Quote(c) + x, args, next) == Ok(Token([c], |Quote(c)|, next))
  {
  }

  /** Escaped text formats back to itself, in front of whatever the rest of the template
      gives. */
  lemma {:induction false} FormatEscaped(s: string, rest: string, args: seq<string>, next: nat)
    ensures Format(Escape(s) + rest, args, next) == Prefixed(s, Format(rest, args, next))
  {
    if s == [] {
      assert Escape(s) + rest == rest;
      match Format(rest, args, next)
      case Ok(tail) => assert s + tail == tail;
      case Err(_) =>
    } else {
      var q, e := Quote(s[0]), Escape(s[1..]);
      var tail := e + rest;
      Associative(q, e, rest);
      StepQuote(s[0], tail, args, next);
      DropPrefix(q, tail);
      FormatEscaped(s[1..], rest, args, next);
      PrefixedTwice([s[0]], s[1..], Format(rest, args, next));
      assert [s[0]] + s[1..] == s;
    }
  }

  /** An empty field at the front takes the next automatic argument. */
  lemma StepAuto(x: string, args: seq<string>, next: nat)
    requires next < |args|
    ensures Step("{}" + x, args, next) == Ok(Token(args[next], 2, next + 1))
  {
    var t := "{}" + x;
    assert t[0] == '{' && t[1] == '}';
    assert IndexOf(t, '}', 1) == 1;
    assert t[1..1] == [];
  }

  /** A template made of escaped text around one `{}` renders the argument in between:
      the property a one-argument `format` call is written for. */
  lemma OneFieldTemplate(before: string, after: string, arg: string)
    ensures Format(Escape(before) + "{}" + Escape(after), [arg], 0) == Ok(before + arg + after)
  {
    var e := Escape(after);
    FormatEscaped(after, "", [arg], 1);
    assert e + "" == e;
    assert Format("", [arg], 1) == Ok([]);
    assert after + [] == after;
    assert Format(e, [arg], 1) == Ok(after);
    var t := "{}" + e;
    StepAuto(e, [arg], 0);
    DropPrefix("{}", e);
    assert Format(t, [arg], 0) == Prefixed(arg, Format(e, [arg], 1));
    FormatEscaped(before, t, [arg], 0);
    Associative(Escape(before), "{}", e);
    Associative(before, arg, after);
  }

  /** A field `{field}` at the front, whose name is not empty and not a number, raises
      KeyError with that name. */
  lemma StepKeyword(field: string, rest: string, args: seq<string>, next: nat)
    requires NoBraces(field)
    requires FieldName(field) != [] && !IsDigits(FieldName(field))
    ensures Step("{" + field + "}" + rest, args, next) == Err(KeyError(FieldName(field)))
  {
    var t := "{" + field + "}" + rest;
    assert forall i | 1 <= i < |field| + 1 :: t[i] == field[i - 1];
    assert t[|field| + 1] == '}';
    assert IndexOf(t, '}', 1) == |field| + 1;
    assert t[1..|field| + 1] == field;
    assert t[0] == '{' && t[1] != '{';
  }

  /** A template whose first step raises raises that exception. */
  lemma FormatStepRaises(t: string, args: seq<string>, next: nat)
    requires t != [] && Step(t, args, next).Err?
    ensures Format(t, args, next) == Err(Step(t, args, next).error)
  {
  }

  /** Literal text followed by a field `{field}` whose name is not empty and not a number
      raises KeyError with that name. */
  lemma KeywordFieldRaises(text: string, field: string, rest: string, args: seq<string>, next: nat)
    requires NoBraces(text)
    requires NoBraces(field)
    requires FieldName(field) != [] && !IsDigits(FieldName(field))
    ensures Format(text + "{" + field + "}" + rest, args, next) == Err(KeyError(FieldName(field)))
  {
    var t := "{" + field + "}" + rest;
    StepKeyword(field, rest, args, next);
    FormatStepRaises(t, args, next);
    EscapeNoBraces(text);
    FormatEscaped(text, t, args, next);
    calc {
      text + "{" + field + "}" + rest;
      { Associative(text + "{" + field, "}", rest); }
      text + "{" + field + ("}" + rest);
      { Associative(text + "{", field, "}" + rest); }
      text + "{" + (field + ("}" + rest));
      { Associative(text, "{", field + ("}" + rest)); }
      text + ("{" + (field + ("}" + rest)));
      { Associative("{", field, "}" + rest); Associative("{" + field, "}", rest); }
      text + t;
    }
  }
}
