/**
 * The part of Python's `str.format` that the effect generators use: automatically numbered `{}`
 * fields filled from positional arguments, and the `{{` / `}}` escapes for literal braces.
 */
module StrFormat {
  import opened Outcomes

  datatype FormatError =
    | SingleOpenBrace            // a `{` at the very end of the string
    | SingleCloseBrace           // a `}` that is neither `}}` nor the end of a field
    | UnsupportedField           // a field with a name, an index or a format spec
    | MissingArgument(index: nat) // the field number is past the last positional argument

  function Prepend(s: string, r: Result<string, FormatError>): Result<string, FormatError> {
    match r
    case Ok(v) => Ok(s + v)
    case Err(e) => Err(e)
  }

  ghost predicate BraceFree(s: string) {
    forall i | 0 <= i < |s| :: s[i] != '{' && s[i] != '}'
  }

  /** Formats `t`, whose next automatically numbered field takes `args[k]`. */
  function FormatFrom(t: string, args: seq<string>, k: nat): (r: Result<string, FormatError>)
    ensures BraceFree(t) ==> r == Ok(t)
    decreases |t|
  {
    if t == [] then Ok([])
    else if t[0] == '{' then
      if |t| == 1 then Err(SingleOpenBrace)
      else if t[1] == '{' then Prepend("{", FormatFrom(t[2..], args, k))
      else if t[1] == '}' then
        if k < |args| then Prepend(args[k], FormatFrom(t[2..], args, k + 1))
        else Err(MissingArgument(k))
      else Err(UnsupportedField)
    else if t[0] == '}' then
      if |t| >= 2 && t[1] == '}' then Prepend("}", FormatFrom(t[2..], args, k))
      else Err(SingleCloseBrace)
    else
      assert BraceFree(t) ==> BraceFree(t[1..]) by {
        if BraceFree(t) {
          forall i | 0 <= i < |t[1..]| ensures t[1..][i] != '{' && t[1..][i] != '}' {
            assert t[1..][i] == t[i + 1];
          }
        }
      }
      assert [t[0]] + t[1..] == t;
      Prepend([t[0]], FormatFrom(t[1..], args, k))
  }

  /** `t.format(*args)` */
  function Format(t: string, args: seq<string>): Result<string, FormatError> {
    FormatFrom(t, args, 0)
  }

  /** The literal text `s` as it is written inside a format string. */
  function Escape(s: string): (r: string)
    ensures |r| >= |s|
  {
    if s == [] then []
    else (if s[0] == '{' || s[0] == '}' then [s[0], s[0]] else [s[0]]) + Escape(s[1..])
  }

  /** The format string whose literal parts are `pieces`, with one `{}` field between each two. */
  function Template(pieces: seq<string>): string
    requires |pieces| >= 1
    decreases |pieces|
  {
    if |pieces| == 1 then Escape(pieces[0]) else Escape(pieces[0]) + "{}" + Template(pieces[1..])
  }

  /** The literal parts `pieces` with the arguments spliced in between them, in order. */
  function Fill(pieces: seq<string>, args: seq<string>): string
    requires |pieces| >= 1 && |args| >= |pieces| - 1
    decreases |pieces|
  {
    if |pieces| == 1 then pieces[0] else pieces[0] + args[0] + Fill(pieces[1..], args[1..])
  }

  lemma PrependTwice(a: string, b: string, r: Result<string, FormatError>)
    ensures Prepend(a, Prepend(b, r)) == Prepend(a + b, r)
  {
    match r {
      case Ok(v) => assert a + (b + v) == (a + b) + v;
      case Err(_) =>
    }
  }

  /** One character of escaped literal text formats back to that character. */
  lemma FormatEscapedChar(c: char, rest: string, args: seq<string>, k: nat)
    ensures FormatFrom(Escape([c]) + rest, args, k) == Prepend([c], FormatFrom(rest, args, k))
  {
    assert Escape([c]) == (if c == '{' || c == '}' then [c, c] else [c]) + Escape([]);
    if c == '{' || c == '}' {
      assert ([c, c] + rest)[2..] == rest;
    } else {
      assert ([c] + rest)[1..] == rest;
    }
  }

  /** An escaped literal formats back to itself, whatever follows it. */
  lemma {:induction false} FormatEscaped(a: string, t: string, args: seq<string>, k: nat)
    ensures FormatFrom(Escape(a) + t, args, k) == Prepend(a, FormatFrom(t, args, k))
    decreases |a|
  {
    if a == [] {
      assert Escape(a) + t == t;
      assert Prepend(a, FormatFrom(t, args, k)) == FormatFrom(t, args, k) by {
        match FormatFrom(t, args, k) {
          case Ok(v) => assert a + v == v;
          case Err(_) =>
        }
      }
    } else {
      var c := a[0];
      var rest := Escape(a[1..]) + t;
      assert Escape(a) == Escape([c]) + Escape(a[1..]) by {
        assert [c][1..] == [];
      }
      assert Escape(a) + t == Escape([c]) + rest;
      FormatEscapedChar(c, rest, args, k);
      FormatEscaped(a[1..], t, args, k);
      PrependTwice([c], a[1..], FormatFrom(t, args, k));
      assert [c] + a[1..] == a;
    }
  }

  /** Round trip: formatting the escaped text of `a` with no arguments gives back `a`. */
  lemma FormatEscapeRoundTrip(a: string, args: seq<string>)
    ensures Format(Escape(a), args) == Ok(a)
  {
    FormatEscaped(a, [], args, 0);
    assert Escape(a) + [] == Escape(a);
    assert a + [] == a;
  }

  /**
   * Formatting a template fills its fields with the arguments from `args[k]` on, or fails with
   * Python's IndexError at the first field number that has no argument.
   */
  lemma {:induction false} FormatTemplate(pieces: seq<string>, args: seq<string>, k: nat)
    requires |pieces| >= 1 && k <= |args|
    ensures FormatFrom(Template(pieces), args, k) ==
      if k + |pieces| - 1 <= |args| then Ok(Fill(pieces, args[k..]))
      else Err(MissingArgument(|args|))
    decreases |pieces|
  {
    if |pieces| == 1 {
      FormatEscaped(pieces[0], [], args, k);
      assert Escape(pieces[0]) + [] == Escape(pieces[0]);
      assert pieces[0] + [] == pieces[0];
    } else {
      var tail := Template(pieces[1..]);
      assert Template(pieces) == Escape(pieces[0]) + ("{}" + tail);
      FormatEscaped(pieces[0], "{}" + tail, args, k);
      assert ("{}" + tail)[0] == '{' && ("{}" + tail)[1] == '}' && ("{}" + tail)[2..] == tail;
      if k < |args| {
        FormatTemplate(pieces[1..], args, k + 1);
        PrependTwice(pieces[0], args[k], FormatFrom(tail, args, k + 1));
        if k + |pieces| - 1 <= |args| {
          assert args[k..][1..] == args[k + 1..];
          assert args[k..][0] == args[k];
        }
      }
    }
  }

  /** A template with one field, formatted with a single argument. */
  lemma FormatOneField(head: string, tail: string, x: string)
    ensures Format(Template([head, tail]), [x]) == Ok(head + x + tail)
  {
    FormatTemplate([head, tail], [x], 0);
    assert [x][0..] == [x];
  }

  /** A template with three fields: the first three arguments fill it, fewer raise IndexError. */
  lemma FormatThreeFields(p0: string, p1: string, p2: string, p3: string, args: seq<string>)
    ensures Format(Template([p0, p1, p2, p3]), args) ==
      if |args| >= 3 then Ok(p0 + args[0] + p1 + args[1] + p2 + args[2] + p3)
      else Err(MissingArgument(|args|))
  {
    var pieces := [p0, p1, p2, p3];
    FormatTemplate(pieces, args, 0);
    if |args| >= 3 {
      assert args[0..] == args;
      var a1 := args[1..];
      var a2 := a1[1..];
      assert pieces[1..] == [p1, p2, p3] && [p1, p2, p3][1..] == [p2, p3] && [p2, p3][1..] == [p3];
      assert Fill([p2, p3], a2) == p2 + a2[0] + p3;
      assert Fill([p1, p2, p3], a1) == p1 + a1[0] + Fill([p2, p3], a2);
      assert Fill(pieces, args) == p0 + args[0] + Fill([p1, p2, p3], a1);
      assert a1[0] == args[1] && a2[0] == args[2];
      assert p0 + args[0] + (p1 + args[1] + (p2 + args[2] + p3))
          == p0 + args[0] + p1 + args[1] + p2 + args[2] + p3;
    }
  }

  /** The text of `s` between a leading `head` and a trailing `tail`, when it has both. */
  function Between(s: string, head: string, tail: string): Option<string> {
    if |head| + |tail| <= |s| && s[..|head|] == head && s[|s| - |tail|..] == tail
    then Some(s[|head|..|s| - |tail|])
    else None
  }

  lemma BetweenOfConcat(head: string, x: string, tail: string)
    ensures Between(head + x + tail, head, tail) == Some(x)
  {
    var s := head + x + tail;
    assert s[..|head|] == head;
    assert s[|s| - |tail|..] == tail;
    assert s[|head|..|s| - |tail|] == x;
  }

  lemma BetweenInverse(s: string, head: string, tail: string, x: string)
    requires Between(s, head, tail) == Some(x)
    ensures s == head + x + tail
  {
    assert s == s[..|head|] + s[|head|..|s| - |tail|] + s[|s| - |tail|..];
  }

  /** The argument can be read back from between the literal parts, so splicing is injective. */
  lemma SpliceInjective(head: string, tail: string, x: string, y: string)
    ensures head + x + tail == head + y + tail <==> x == y
  {
    if head + x + tail == head + y + tail {
      BetweenOfConcat(head, x, tail);
      BetweenOfConcat(head, y, tail);
    }
  }
}
