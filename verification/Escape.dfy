/** esc: three replacements that act as one pass. */
module Escape {
  import opened Api

  /** strings.ReplaceAll of a one-character text. */
  function ReplaceAll(s: string, c: char, with: string): string {
    if |s| == 0 then "" else (if s[0] == c then with else [s[0]]) + ReplaceAll(s[1..], c, with)
  }

  function Esc(s: string): string {
    ReplaceAll(ReplaceAll(ReplaceAll(s, '\\', "\\\\"), '\n', "\\n"), '"', "\\\"")
  }

  /** One pass, one character at a time. */
  function EscChar(c: char): string {
    if c == '\\' then "\\\\" else if c == '\n' then "\\n" else if c == '"' then "\\\"" else [c]
  }

  function OnePass(s: string): string {
    if |s| == 0 then "" else EscChar(s[0]) + OnePass(s[1..])
  }

  lemma {:induction false} Associative(x: string, y: string, z: string)
    ensures x + (y + z) == x + y + z
  {
  }

  lemma {:induction false} ReplaceAppend(a: string, b: string, c: char, with: string)
    ensures ReplaceAll(a + b, c, with) == ReplaceAll(a, c, with) + ReplaceAll(b, c, with)
  {
    if |a| == 0 {
      assert a + b == b;
    } else {
      ReplaceAppend(a[1..], b, c, with);
      var s, head := a + b, if a[0] == c then with else [a[0]];
      assert s[0] == a[0] && s[1..] == a[1..] + b;
      Associative(head, ReplaceAll(a[1..], c, with), ReplaceAll(b, c, with));
    }
  }

  lemma {:induction false} ReplaceOne(x: char, c: char, with: string)
    ensures ReplaceAll([x], c, with) == if x == c then with else [x]
  {
    assert [x][1..] == "";
  }

  lemma {:induction false} ReplaceTwo(x: char, y: char, c: char, with: string)
    ensures ReplaceAll([x, y], c, with) == (if x == c then with else [x]) + if y == c then with else [y]
  {
    ReplaceAppend([x], [y], c, with);
    ReplaceOne(x, c, with);
    ReplaceOne(y, c, with);
    assert [x] + [y] == [x, y];
  }

  lemma {:induction false} EscOneChar(x: char)
    ensures Esc([x]) == EscChar(x)
  {
    ReplaceOne(x, '\\', "\\\\");
    ReplaceOne(x, '\n', "\\n");
    ReplaceOne(x, '"', "\\\"");
    ReplaceTwo('\\', '\\', '\n', "\\n");
    ReplaceTwo('\\', '\\', '"', "\\\"");
    ReplaceTwo('\\', 'n', '"', "\\\"");
  }

  /** The order of the replacements makes them one pass: no replacement's
      output is replaced again. */
  lemma {:induction false} EscIsOnePass(s: string)
    ensures Esc(s) == OnePass(s)
  {
    if |s| > 0 {
      EscIsOnePass(s[1..]);
      EscOneChar(s[0]);
      var a, b := [s[0]], s[1..];
      assert s == a + b;
      ReplaceAppend(a, b, '\\', "\\\\");
      ReplaceAppend(ReplaceAll(a, '\\', "\\\\"), ReplaceAll(b, '\\', "\\\\"), '\n', "\\n");
      ReplaceAppend(ReplaceAll(ReplaceAll(a, '\\', "\\\\"), '\n', "\\n"),
        ReplaceAll(ReplaceAll(b, '\\', "\\\\"), '\n', "\\n"), '"', "\\\"");
    }
  }

  function Prepend(c: char, r: Option<(string, string)>): Option<(string, string)> {
    if r.None? then None else Some(([c] + r.value.0, r.value.1))
  }

  /** Reading a quoted label value up to its closing quote: the value and what follows. */
  function ReadQuoted(t: string): Option<(string, string)> {
    if |t| == 0 then None
    else if t[0] == '"' then Some(("", t[1..]))
    else if t[0] == '\\' then
      if |t| == 1 || t[1] !in "\\n\"" then None
      else Prepend(if t[1] == 'n' then '\n' else t[1], ReadQuoted(t[2..]))
    else Prepend(t[0], ReadQuoted(t[1..]))
  }

  lemma {:induction false} ReadOne(c: char, tail: string)
    ensures ReadQuoted(EscChar(c) + tail) == Prepend(c, ReadQuoted(tail))
  {
    var head := EscChar(c);
    assert (head + tail)[|head|..] == tail;
    if |head| == 2 {
      assert (head + tail)[0] == '\\' && (head + tail)[1] == head[1];
    }
  }

  lemma {:induction false} EscMore(c: char, s: string)
    ensures Esc([c] + s) == EscChar(c) + Esc(s)
  {
    EscIsOnePass([c] + s);
    EscIsOnePass(s);
    assert ([c] + s)[1..] == s;
  }

  /** An escaped value between quotes reads back as itself, whatever follows. */
  lemma {:induction false} EscReadsBack(s: string, rest: string)
    ensures ReadQuoted(Esc(s) + "\"" + rest) == Some((s, rest))
  {
    if |s| == 0 {
      EscIsOnePass(s);
      assert Esc(s) + "\"" + rest == "\"" + rest;
      assert ("\"" + rest)[1..] == rest;
    } else {
      EscReadsBack(s[1..], rest);
      assert s == [s[0]] + s[1..];
      EscMore(s[0], s[1..]);
      var head, tail := EscChar(s[0]), Esc(s[1..]) + "\"" + rest;
      assert Esc(s) + "\"" + rest == head + tail;
      ReadOne(s[0], tail);
    }
  }

  /** Hence different values stay different. */
  lemma {:induction false} EscInjective(s: string, t: string)
    ensures Esc(s) == Esc(t) <==> s == t
  {
    EscReadsBack(s, "");
    EscReadsBack(t, "");
  }
}
