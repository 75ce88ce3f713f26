/**
 Path templates and Python's `%` string formatting.

 The client keeps its endpoint paths as Python string literals such as
 `'queues/%s/%s'` and fills them with `template % (vhost, name)`. Here a
 template is a sequence of literal pieces and holes; `Text` gives back the
 Python literal, `Render` fills the holes in order, and `Format` is the
 Python `%` operator itself, restricted to the `%s` and `%%` conversions.
 The lemma `FormatText` ties the two views together.
 */
module Templates {

  datatype Option<T> = None | Some(value: T)

  /** A piece of a template: literal text, or one `%s` conversion. */
  datatype Piece = Lit(text: string) | Hole

  type Template = seq<Piece>

  /** The source text of one piece. */
  function PieceText(p: Piece): string
  {
    match p
    case Lit(s) => s
    case Hole => "%s"
  }

  /** The template written as the Python string literal it stands for. */
  function Text(t: Template): string
  {
    if t == [] then [] else PieceText(t[0]) + Text(t[1..])
  }

  /** The number of `%s` conversions, i.e. the number of arguments it takes. */
  function Holes(t: Template): nat
  {
    if t == [] then 0 else (if t[0].Hole? then 1 else 0) + Holes(t[1..])
  }

  /** Text that contains no `%`, so Python's `%` copies it unchanged. */
  predicate Plain(s: string)
  {
    '%' !in s
  }

  /** Every literal piece of the template is plain. */
  predicate PlainLits(t: Template)
  {
    forall i :: 0 <= i < |t| ==> PlainPiece(t[i])
  }

  predicate PlainPiece(p: Piece)
  {
    p.Lit? ==> Plain(p.text)
  }

  /**
   Fills the holes of `t` with `args`, in order, each argument inserted
   verbatim (no escaping of `/`, `%` or anything else). A template without
   holes renders to its own source text.
   */
  function Render(t: Template, args: seq<string>): (r: string)
    requires |args| == Holes(t)
    ensures Holes(t) == 0 ==> r == Text(t)
    decreases t
  {
    if t == [] then []
    else match t[0]
      case Lit(s) => s + Render(t[1..], args)
      case Hole => args[0] + Render(t[1..], args[1..])
  }

  /** A literal piece in front contributes its text and takes no argument. */
  lemma LitCons(s: string, t: Template, args: seq<string>)
    requires |args| == Holes(t)
    ensures Holes([Lit(s)] + t) == Holes(t)
    ensures Text([Lit(s)] + t) == s + Text(t)
    ensures Render([Lit(s)] + t, args) == s + Render(t, args)
  {
    assert ([Lit(s)] + t)[1..] == t;
  }

  /** A hole in front takes the first argument and inserts it unchanged. */
  lemma HoleCons(a: string, t: Template, args: seq<string>)
    requires |args| == Holes(t)
    ensures Holes([Hole] + t) == 1 + Holes(t)
    ensures Text([Hole] + t) == "%s" + Text(t)
    ensures Render([Hole] + t, [a] + args) == a + Render(t, args)
  {
    assert ([Hole] + t)[1..] == t;
    assert ([a] + args)[1..] == args;
  }

  /** Puts `s` in front of a formatted result, keeping a failure a failure. */
  function Prefix(s: string, o: Option<string>): Option<string>
  {
    match o
    case None => None
    case Some(x) => Some(s + x)
  }

  /**
   Python's `f % tuple(args)` for format strings whose only conversions are
   `%s` (insert the next argument as it is) and `%%` (a literal `%`).
   `None` is the exception Python raises: too few arguments, arguments left
   over ("not all arguments converted"), a trailing lone `%`, or a
   conversion other than these two. Text without `%` comes back unchanged
   when there are no arguments, and raises when there are some.
   */
  function Format(f: string, args: seq<string>): (r: Option<string>)
    ensures Plain(f) ==> r == if |args| == 0 then Some(f) else None
    decreases |f|
  {
    if |f| == 0 then
      if |args| == 0 then Some([]) else None
    else if f[0] != '%' then
      assert f == [f[0]] + f[1..];
      Prefix([f[0]], Format(f[1..], args))
    else if |f| == 1 then
      None
    else if f[1] == '%' then
      Prefix("%", Format(f[2..], args))
    else if f[1] == 's' then
      if |args| == 0 then None else Prefix(args[0], Format(f[2..], args[1..]))
    else
      None
  }

  /** Two prefixes in a row are one prefix. */
  lemma PrefixPrefix(a: string, b: string, o: Option<string>)
    ensures Prefix(a, Prefix(b, o)) == Prefix(a + b, o)
  {
    match o
    case None =>
    case Some(x) =>
      assert a + (b + x) == (a + b) + x;
  }

  /** Plain text in front of a format string is copied through unchanged. */
  lemma {:induction false} FormatPlainPrefix(s: string, rest: string, args: seq<string>)
    requires Plain(s)
    ensures Format(s + rest, args) == Prefix(s, Format(rest, args))
    decreases |s|
  {
    if s == [] {
      assert s + rest == rest;
      match Format(rest, args)
      case None =>
      case Some(x) =>
        assert s + x == x;
    } else {
      var f := s + rest;
      assert f[0] == s[0] && f[0] != '%';
      assert f[1..] == s[1..] + rest;
      FormatPlainPrefix(s[1..], rest, args);
      PrefixPrefix([s[0]], s[1..], Format(rest, args));
      assert [s[0]] + s[1..] == s;
    }
  }

  /**
   Python's `%` applied to the source text of a template whose literals
   hold no `%` succeeds exactly when it is given as many arguments as the
   template has holes, and then yields `Render`: arguments in order and
   verbatim.
   */
  lemma {:induction false} FormatText(t: Template, args: seq<string>)
    requires PlainLits(t)
    ensures Format(Text(t), args) == if |args| == Holes(t) then Some(Render(t, args)) else None
    decreases t
  {
    if t != [] {
      var rest := t[1..];
      assert PlainLits(rest) by {
        forall i | 0 <= i < |rest| ensures PlainPiece(rest[i]) {
          assert rest[i] == t[i + 1];
        }
      }
      assert PlainPiece(t[0]);
      match t[0]
      case Lit(s) =>
        FormatPlainPrefix(s, Text(rest), args);
        FormatText(rest, args);
      case Hole =>
        var f := Text(t);
        assert f == "%s" + Text(rest);
        assert f[0] == '%' && f[1] == 's';
        assert f[2..] == Text(rest);
        if |args| > 0 {
          FormatText(rest, args[1..]);
        }
    }
  }
}
