/** Enrollment tokens: the file store's counter and the SQL row that must decide alike. */
module Tokens {
  import opened Api

  type TokenMap = map<string, EnrollToken>

  datatype Call = Call(token: string, now: int)

  // ---- The file store's decision ----

  function Limit(t: EnrollToken): int { if t.maxUses == 0 then 1 else t.maxUses }

  /** A used record without a count is a legacy single-use record. */
  function Recorded(t: EnrollToken): int { if t.used && t.uses == 0 then 1 else t.uses }

  predicate Exhausted(t: EnrollToken) { Limit(t) > 0 && Recorded(t) >= Limit(t) }

  predicate FileExpired(t: EnrollToken, now: int) { t.expiresAt > 0 && t.expiresAt < now }

  function Consumed(t: EnrollToken): EnrollToken {
    var n := Recorded(t) + 1;
    t.(uses := n, used := Limit(t) > 0 && n >= Limit(t))
  }

  predicate FileAccepts(tokens: TokenMap, c: Call) {
    c.token in tokens && !FileExpired(tokens[c.token], c.now) && !Exhausted(tokens[c.token])
  }

  function FileStep(tokens: TokenMap, c: Call): TokenMap {
    if FileAccepts(tokens, c) then tokens[c.token := Consumed(tokens[c.token])] else tokens
  }

  function FileRun(tokens: TokenMap, calls: seq<Call>): TokenMap {
    if calls == [] then tokens else FileRun(FileStep(tokens, calls[0]), calls[1..])
  }

  function FileOutcomes(tokens: TokenMap, calls: seq<Call>): seq<bool> {
    if calls == [] then []
    else [FileAccepts(tokens, calls[0])] + FileOutcomes(FileStep(tokens, calls[0]), calls[1..])
  }

  /** How many calls for the token succeed. */
  function Successes(tokens: TokenMap, calls: seq<Call>, token: string): nat {
    if calls == [] then 0
    else (if calls[0].token == token && FileAccepts(tokens, calls[0]) then 1 else 0)
         + Successes(FileStep(tokens, calls[0]), calls[1..], token)
  }

  function Attempts(calls: seq<Call>, token: string): nat {
    if calls == [] then 0
    else (if calls[0].token == token then 1 else 0) + Attempts(calls[1..], token)
  }

  function Min(a: int, b: int): int { if a < b then a else b }

  function Max(a: int, b: int): int { if a < b then b else a }

  /** Conservation: over any call sequence the recorded uses grow by exactly
      the successes, and a limited token never passes its limit. */
  lemma {:induction false} Conservation(tokens: TokenMap, calls: seq<Call>, token: string)
    requires token in tokens && tokens[token].uses >= 0
    ensures token in FileRun(tokens, calls)
    ensures var n := Successes(tokens, calls, token);
            var t, t' := tokens[token], FileRun(tokens, calls)[token];
            && Recorded(t') == Recorded(t) + n
            && (t.maxUses >= 0 ==> n <= Max(0, Max(1, t.maxUses) - Recorded(t)) <= Max(1, t.maxUses))
            && (n > 0 ==> t'.uses == Recorded(t') && (t'.used <==> Exhausted(t')))
            && (n == 0 ==> t' == t)
            && t' == t.(uses := t'.uses, used := t'.used)
    decreases |calls|
  {
    if calls != [] {
      var tokens' := FileStep(tokens, calls[0]);
      Conservation(tokens', calls[1..], token);
      assert calls[0].token != token ==> tokens'[token] == tokens[token];
    }
  }

  /** Before expiry nothing is refused early: the successes are exactly the
      attempts, up to what the limit leaves; a negative limit never refuses. */
  lemma {:induction false} ExactSuccesses(tokens: TokenMap, calls: seq<Call>, token: string)
    requires token in tokens && tokens[token].uses >= 0
    requires forall i :: 0 <= i < |calls| && calls[i].token == token ==> !FileExpired(tokens[token], calls[i].now)
    ensures tokens[token].maxUses < 0 ==> Successes(tokens, calls, token) == Attempts(calls, token)
    ensures tokens[token].maxUses >= 0 ==>
      Successes(tokens, calls, token)
        == Min(Attempts(calls, token), Max(0, Limit(tokens[token]) - Recorded(tokens[token])))
    decreases |calls|
  {
    if calls != [] {
      var tokens' := FileStep(tokens, calls[0]);
      assert tokens'[token].expiresAt == tokens[token].expiresAt && tokens'[token].maxUses == tokens[token].maxUses;
      assert forall i :: 0 <= i < |calls[1..]| ==> calls[1..][i] == calls[i + 1];
      ExactSuccesses(tokens', calls[1..], token);
    }
  }

  // ---- The SQL row ----

  /** SaveToken stores a zero limit as 1. */
  function SqlSaved(t: EnrollToken): EnrollToken {
    if t.maxUses == 0 then t.(maxUses := 1) else t
  }

  /** The start-up migration gives legacy used rows their one use. */
  function Migrated(row: EnrollToken): EnrollToken {
    if row.used && row.uses == 0 then row.(uses := 1) else row
  }

  /** The WHERE clause of the consuming UPDATE. */
  predicate SqlAccepts(rows: TokenMap, c: Call) {
    && c.token in rows
    && (rows[c.token].expiresAt == 0 || rows[c.token].expiresAt > c.now)
    && (rows[c.token].maxUses < 0 || rows[c.token].uses < rows[c.token].maxUses)
  }

  /** Its SET clause. */
  function SqlUpdated(row: EnrollToken): EnrollToken {
    row.(uses := row.uses + 1, used := row.maxUses > 0 && row.uses + 1 >= row.maxUses)
  }

  function SqlStep(rows: TokenMap, c: Call): TokenMap {
    if SqlAccepts(rows, c) then rows[c.token := SqlUpdated(rows[c.token])] else rows
  }

  function SqlRun(rows: TokenMap, calls: seq<Call>): TokenMap {
    if calls == [] then rows else SqlRun(SqlStep(rows, calls[0]), calls[1..])
  }

  function SqlOutcomes(rows: TokenMap, calls: seq<Call>): seq<bool> {
    if calls == [] then []
    else [SqlAccepts(rows, calls[0])] + SqlOutcomes(SqlStep(rows, calls[0]), calls[1..])
  }

  // ---- Deciding alike ----

  predicate RowOf(t: EnrollToken, row: EnrollToken) {
    row == t.(maxUses := Limit(t), uses := Recorded(t), used := row.used)
  }

  predicate Correspond(tokens: TokenMap, rows: TokenMap) {
    tokens.Keys == rows.Keys && forall k :: k in tokens ==> RowOf(tokens[k], rows[k])
  }

  /** The instants at which the two expiry tests part. */
  predicate Boundary(t: EnrollToken, now: int) {
    (t.expiresAt > 0 && now == t.expiresAt) || (t.expiresAt < 0 && t.expiresAt <= now)
  }

  /** The token is unknown, used up or not at the instant of its expiry. */
  predicate OffBoundary(tokens: TokenMap, c: Call) {
    c.token !in tokens || Exhausted(tokens[c.token]) || !Boundary(tokens[c.token], c.now)
  }

  /** One call is decided alike exactly off the boundary (or once exhausted). */
  lemma {:induction false} AgreeIffOffBoundary(tokens: TokenMap, rows: TokenMap, c: Call)
    requires Correspond(tokens, rows)
    ensures (FileAccepts(tokens, c) <==> SqlAccepts(rows, c)) <==> OffBoundary(tokens, c)
  {
    if c.token in tokens {
      assert RowOf(tokens[c.token], rows[c.token]);
    }
  }

  predicate CountsUp(tokens: TokenMap) { forall k :: k in tokens ==> tokens[k].uses >= 0 }

  lemma {:induction false} StepsCorrespond(tokens: TokenMap, rows: TokenMap, c: Call)
    requires Correspond(tokens, rows) && CountsUp(tokens) && OffBoundary(tokens, c)
    ensures Correspond(FileStep(tokens, c), SqlStep(rows, c)) && CountsUp(FileStep(tokens, c))
  {
    AgreeIffOffBoundary(tokens, rows, c);
    assert c.token in tokens ==> RowOf(tokens[c.token], rows[c.token]);
  }

  lemma {:induction false} NoNewTokens(tokens: TokenMap, calls: seq<Call>)
    ensures FileRun(tokens, calls).Keys == tokens.Keys
    decreases |calls|
  {
    if calls != [] {
      NoNewTokens(FileStep(tokens, calls[0]), calls[1..]);
    }
  }

  lemma {:induction false} SameHeads(tokens: TokenMap, rows: TokenMap, calls: seq<Call>)
    requires calls != []
    ensures FileOutcomes(tokens, calls) == SqlOutcomes(rows, calls) <==>
            && FileAccepts(tokens, calls[0]) == SqlAccepts(rows, calls[0])
            && FileOutcomes(FileStep(tokens, calls[0]), calls[1..]) == SqlOutcomes(SqlStep(rows, calls[0]), calls[1..])
  {
    var a, b := FileOutcomes(tokens, calls), SqlOutcomes(rows, calls);
    assert a[0] == FileAccepts(tokens, calls[0]) && b[0] == SqlAccepts(rows, calls[0]);
    assert a[1..] == FileOutcomes(FileStep(tokens, calls[0]), calls[1..]);
    assert b[1..] == SqlOutcomes(SqlStep(rows, calls[0]), calls[1..]);
    assert a == [a[0]] + a[1..] && b == [b[0]] + b[1..];
  }

  /** Every call finds its token off the boundary in the state it meets. */
  predicate AllOffBoundary(tokens: TokenMap, calls: seq<Call>) {
    forall i :: 0 <= i < |calls| ==> OffBoundary(FileRun(tokens, calls[..i]), calls[i])
  }

  lemma {:induction false} FirstThenRest(tokens: TokenMap, calls: seq<Call>)
    requires calls != []
    ensures AllOffBoundary(tokens, calls) <==>
            OffBoundary(tokens, calls[0]) && AllOffBoundary(FileStep(tokens, calls[0]), calls[1..])
  {
    assert FileRun(tokens, calls[..0]) == tokens;
    forall i | 0 <= i < |calls[1..]|
      ensures FileRun(FileStep(tokens, calls[0]), calls[1..][..i]) == FileRun(tokens, calls[..i + 1])
    {
      assert calls[..i + 1][1..] == calls[1..][..i];
    }
    assert forall i :: 0 < i < |calls| ==> calls[i] == calls[1..][i - 1];
  }

  /** The two machines answer a call sequence alike exactly if every call is off
      the boundary in the state it meets; they then end in corresponding states. */
  lemma {:induction false} SameDecisionsIff(tokens: TokenMap, rows: TokenMap, calls: seq<Call>)
    requires Correspond(tokens, rows) && CountsUp(tokens)
    ensures FileOutcomes(tokens, calls) == SqlOutcomes(rows, calls) <==> AllOffBoundary(tokens, calls)
    ensures AllOffBoundary(tokens, calls) ==> Correspond(FileRun(tokens, calls), SqlRun(rows, calls))
    decreases |calls|
  {
    if calls != [] {
      var c := calls[0];
      AgreeIffOffBoundary(tokens, rows, c);
      FirstThenRest(tokens, calls);
      if OffBoundary(tokens, c) {
        StepsCorrespond(tokens, rows, c);
        SameDecisionsIff(FileStep(tokens, c), SqlStep(rows, c), calls[1..]);
      }
      SameHeads(tokens, rows, calls);
    }
  }

  /** Calls at no expiry instant are answered alike whatever was used before. */
  lemma {:induction false} SameDecisions(tokens: TokenMap, rows: TokenMap, calls: seq<Call>)
    requires Correspond(tokens, rows) && CountsUp(tokens)
    requires forall i :: 0 <= i < |calls| && calls[i].token in tokens ==>
      !Boundary(tokens[calls[i].token], calls[i].now)
    ensures FileOutcomes(tokens, calls) == SqlOutcomes(rows, calls)
    ensures Correspond(FileRun(tokens, calls), SqlRun(rows, calls))
  {
    forall i | 0 <= i < |calls| ensures OffBoundary(FileRun(tokens, calls[..i]), calls[i]) {
      NoNewTokens(tokens, calls[..i]);
      if calls[i].token in tokens { Conservation(tokens, calls[..i], calls[i].token); }
    }
    SameDecisionsIff(tokens, rows, calls);
  }

  /** Saving a token in both stores, and migrating a legacy row, give corresponding states. */
  lemma {:induction false} SavedCorrespond(tokens: TokenMap, rows: TokenMap, t: EnrollToken)
    requires Correspond(tokens, rows)
    ensures Correspond(tokens[t.token := t], rows[t.token := Migrated(SqlSaved(t))])
    ensures Correspond(tokens[t.token := t], rows[t.token := SqlSaved(t)]) <==> !(t.used && t.uses == 0)
  {
    var a, b := tokens[t.token := t], rows[t.token := SqlSaved(t)];
    assert RowOf(t, Migrated(SqlSaved(t)));
    assert t.token in a && b[t.token] == SqlSaved(t);
    if Correspond(a, b) { assert RowOf(a[t.token], b[t.token]); }
  }

  /** The tokens table behind the Hrana endpoint, as ConsumeToken uses it. */
  class TokenTable {
    var rows: TokenMap

    constructor ()
      ensures rows == map[]
    {
      rows := map[];
    }

    method SaveToken(t: EnrollToken) returns (ok: bool)
      modifies this
      ensures ok <==> t.token !in old(rows)
      ensures rows == if ok then old(rows)[t.token := SqlSaved(t)] else old(rows)
    {
      var mu := t.maxUses;
      if mu == 0 {
        mu := 1;
      }
      ok := t.token !in rows;
      if ok {
        rows := rows[t.token := t.(maxUses := mu)];
      }
    }

    /** UPDATE ... RETURNING: the returned record always says Used and carries no counts. */
    method ConsumeToken(token: string, now: int) returns (r: Option<EnrollToken>)
      modifies this
      ensures r.Some? <==> SqlAccepts(old(rows), Call(token, now))
      ensures rows == SqlStep(old(rows), Call(token, now))
      ensures r.Some? ==>
        var row := old(rows)[token];
        r.value == EnrollToken(row.token, row.tenantID, row.labels, row.created, 0, 0, 0, true)
    {
      if token !in rows {
        return None;
      }
      var row := rows[token];
      if !(row.expiresAt == 0 || row.expiresAt > now) || !(row.maxUses < 0 || row.uses < row.maxUses) {
        return None;
      }
      rows := rows[token := row.(uses := row.uses + 1, used := row.maxUses > 0 && row.uses + 1 >= row.maxUses)];
      r := Some(EnrollToken(row.token, row.tenantID, row.labels, row.created, 0, 0, 0, true));
    }
  }
}
