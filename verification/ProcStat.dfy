/** Reading /proc/<pid>/stat. */
module ProcStat {
  import opened Api
  import opened Text

  datatype ProcCPU = ProcCPU(comm: string, jiff: int, rss: int)

  const WRAP: int := 0x1_0000_0000_0000_0000

  /** Position of the last c, or -1. */
  function LastIndexOf(s: string, c: char): (i: int)
    ensures -1 <= i < |s| && (i >= 0 ==> s[i] == c) && forall j :: i < j < |s| ==> s[j] != c
  {
    if |s| == 0 then -1 else if s[|s| - 1] == c then |s| - 1 else LastIndexOf(s[..|s| - 1], c)
  }

  /** Length of the first word of a text that does not start with a space. */
  function WordLength(s: string): (n: nat)
    ensures n <= |s| && (n < |s| ==> IsSpace(s[n])) && forall i :: 0 <= i < n ==> !IsSpace(s[i])
  {
    if |s| == 0 || IsSpace(s[0]) then 0 else 1 + WordLength(s[1..])
  }

  /** strings.Fields. */
  function Fields(s: string): seq<string>
    decreases |s|
  {
    if |s| == 0 then []
    else if IsSpace(s[0]) then Fields(s[1..])
    else [s[..WordLength(s)]] + Fields(s[WordLength(s)..])
  }

  function Sum64(a: int, b: int): int { (a + b) % WRAP }

  function Product64(a: int, b: int): int { a * b % WRAP }

  /** parseStat; the sums are those of 64-bit unsigned integers. */
  function ParseStat(stat: string, pageSize: nat): Option<ProcCPU> {
    var open, close := IndexOf(stat, '('), LastIndexOf(stat, ')');
    if open == |stat| || close < open then None
    else
      var rest := Fields(stat[close + 1..]);
      if |rest| < 22 then None
      else Some(ProcCPU(stat[open + 1..close],
                        Sum64(ParseUint(rest[11]), ParseUint(rest[12])),
                        Product64(ParseUint(rest[21]), pageSize)))
  }

  // ---- The kernel's line ----

  predicate IsWord(w: string) { |w| > 0 && forall i :: 0 <= i < |w| ==> !IsSpace(w[i]) }

  function Spaced(fields: seq<string>): (s: string)
    ensures |s| > 0 && IsSpace(s[0])
  {
    if |fields| == 0 then ['\n'] + "" else [' '] + (fields[0] + Spaced(fields[1..]))
  }

  /** pid, the command in parentheses, then the fields from the third on. */
  function StatLine(pid: nat, comm: string, fields: seq<string>): string {
    Decimal(pid) + " " + "(" + comm + ")" + Spaced(fields)
  }

  lemma {:induction false} FieldsOfWord(w: string, s: string)
    requires IsWord(w) && |s| > 0 && IsSpace(s[0])
    ensures Fields(w + s) == [w] + Fields(s)
  {
    var t := w + s;
    var n := WordLength(t);
    assert t[0] == w[0];
    assert t[|w|] == s[0];
    assert n == |w|;
    assert t[..n] == w && t[n..] == s;
  }

  lemma {:induction false} FieldsAfterSpace(c: char, s: string)
    requires IsSpace(c)
    ensures Fields([c] + s) == Fields(s)
  {
    assert ([c] + s)[1..] == s;
  }

  lemma {:induction false} FieldsOfSpaced(fields: seq<string>)
    requires forall i :: 0 <= i < |fields| ==> IsWord(fields[i])
    ensures Fields(Spaced(fields)) == fields
  {
    if |fields| == 0 {
      FieldsAfterSpace('\n', "");
    } else {
      var tail := Spaced(fields[1..]);
      FieldsOfSpaced(fields[1..]);
      FieldsAfterSpace(' ', fields[0] + tail);
      FieldsOfWord(fields[0], tail);
    }
  }

  lemma {:induction false} SpacedAvoids(fields: seq<string>, c: char)
    requires !IsSpace(c) && forall i :: 0 <= i < |fields| ==> c !in fields[i]
    ensures c !in Spaced(fields)
  {
    if |fields| > 0 {
      SpacedAvoids(fields[1..], c);
    }
  }

  lemma {:induction false} FirstAt(head: string, c: char, rest: string)
    requires c !in head
    ensures IndexOf(head + [c] + rest, c) == |head|
  {
    var s := head + [c] + rest;
    assert s[|head|] == c;
    assert forall j :: 0 <= j < |head| ==> s[j] == head[j] && head[j] in head;
  }

  lemma {:induction false} LastAt(front: string, c: char, tail: string)
    requires c !in tail
    ensures LastIndexOf(front + [c] + tail, c) == |front|
  {
    var s := front + [c] + tail;
    assert s[|front|] == c;
    assert forall j :: |front| < j < |s| ==> s[j] == tail[j - |front| - 1] && tail[j - |front| - 1] in tail;
  }

  /** The last closing parenthesis ends the command, whatever it holds. */
  lemma {:induction false} CommandBounds(head: string, comm: string, tail: string)
    requires '(' !in head && ')' !in tail
    ensures var s := head + "(" + comm + ")" + tail;
            var open, close := IndexOf(s, '('), LastIndexOf(s, ')');
            open < close && s[open + 1..close] == comm && s[close + 1..] == tail
  {
    var s, front := head + "(" + comm + ")" + tail, head + "(" + comm;
    FirstAt(head, '(', comm + ")" + tail);
    assert s == head + ['('] + (comm + ")" + tail);
    LastAt(front, ')', tail);
    assert s == front + [')'] + tail;
    assert s[|head| + 1..|front|] == comm && s[|front| + 1..] == tail;
  }

  lemma {:induction false} LineParses(head: string, comm: string, tail: string, pageSize: nat)
    requires '(' !in head && ')' !in tail && |Fields(tail)| >= 22
    ensures var rest := Fields(tail);
            ParseStat(head + "(" + comm + ")" + tail, pageSize) ==
              Some(ProcCPU(comm, Sum64(ParseUint(rest[11]), ParseUint(rest[12])),
                Product64(ParseUint(rest[21]), pageSize)))
  {
    CommandBounds(head, comm, tail);
  }

  lemma {:induction false} NumberHead(pid: nat)
    ensures '(' !in Decimal(pid) + " "
  {
    ParseDecimal(pid);
  }

  /** For any command name, with spaces, parentheses or line breaks, the name,
      utime + stime and rss are recovered. */
  lemma {:induction false} StatReadsBack(
    pid: nat, comm: string, fields: seq<string>, utime: nat, stime: nat, pages: nat, pageSize: nat)
    requires |fields| >= 22 && fields[11] == Decimal(utime) && fields[12] == Decimal(stime)
      && fields[21] == Decimal(pages)
    requires forall i :: 0 <= i < |fields| ==> IsWord(fields[i]) && ')' !in fields[i]
    requires utime <= MAX_UINT64 && stime <= MAX_UINT64 && pages <= MAX_UINT64
    ensures ParseStat(StatLine(pid, comm, fields), pageSize)
      == Some(ProcCPU(comm, Sum64(utime, stime), Product64(pages, pageSize)))
  {
    NumberHead(pid);
    SpacedAvoids(fields, ')');
    FieldsOfSpaced(fields);
    LineParses(Decimal(pid) + " ", comm, Spaced(fields), pageSize);
    ParseDecimal(utime);
    ParseDecimal(stime);
    ParseDecimal(pages);
  }
}
