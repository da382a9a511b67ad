/**
 The hash chain of audit events: what a verified history and a checkpoint of it pin down. Nothing is
 assumed of the hash but the shape of its output; where a conclusion needs it to be free of
 collisions, the conclusion is "or here is a collision".
 */
module AuditChain {
  datatype Row = Row(seqNo: nat, payload: string, previous: string, digest: string)

  /** The rows, and the greatest sequence number the table has ever given out. */
  datatype Table = Table(rows: seq<Row>, last: nat)

  type Hash = string -> string

  function Zeros(n: nat): (s: string)
    ensures |s| == n && forall c <- s :: c == '0'
  {
    if n == 0 then "" else Zeros(n - 1) + "0"
  }

  const GENESIS := Zeros(64)

  const MAX_PAYLOAD := 8192

  /** Digests are written in hexadecimal: in particular, they have no line break. */
  ghost predicate Hex(sha: Hash) { forall x :: |sha(x)| == 64 && '\n' !in sha(x) }

  /** What is hashed for a row. */
  function Text(r: Row): string { r.previous + "\n" + r.payload }

  // ---------------------------------------------------------------- verification

  /** The digest before row `i`. */
  function Before(rows: seq<Row>, i: nat): string
    requires i <= |rows|
  {
    if i == 0 then GENESIS else rows[i - 1].digest
  }

  predicate Linked(sha: Hash, rows: seq<Row>, i: nat)
    requires i < |rows|
  {
    rows[i].seqNo == i + 1 && rows[i].previous == Before(rows, i) && rows[i].digest == sha(Text(rows[i]))
  }

  predicate Verified(sha: Hash, rows: seq<Row>) { forall i | 0 <= i < |rows| :: Linked(sha, rows, i) }

  lemma LinkedIs(sha: Hash, rows: seq<Row>, i: nat)
    requires i < |rows|
    ensures Linked(sha, rows, i) <==>
            rows[i].seqNo == i + 1 && rows[i].previous == Before(rows, i) &&
            rows[i].digest == sha(rows[i].previous + "\n" + rows[i].payload)
  {
  }

  lemma BrokenIsNotVerified(sha: Hash, rows: seq<Row>, i: nat)
    requires i < |rows| && !Linked(sha, rows, i)
    ensures !Verified(sha, rows)
  {
  }

  lemma AllLinkedIsVerified(sha: Hash, rows: seq<Row>)
    requires forall i | 0 <= i < |rows| :: Linked(sha, rows, i)
    ensures Verified(sha, rows)
  {
  }

  // ---------------------------------------------------------------- appending

  /** The length of a text in UTF-8. */
  function Utf8Length(s: string): nat {
    if s == "" then 0 else Utf8Length(s[..|s| - 1]) + Utf8Width(s[|s| - 1])
  }

  function Utf8Width(c: char): nat {
    if c < 0x80 as char then 1 else if c < 0x800 as char then 2 else if c < 0x10000 as char then 3 else 4
  }

  /** The number of values that `n` bits can tell apart. */
  function Values(n: nat): nat { if n == 0 then 1 else 2 * Values(n - 1) }

  /** A character of `width` bytes has 7 bits for its code, or 5 for each byte and one more (section 3 of RFC 3629). */
  function Bits(width: nat): nat { if width <= 1 then 7 else 5 * width + 1 }

  lemma ValuesAre()
    ensures Values(7) == 0x80 && Values(11) == 0x800 && Values(16) == 0x10000 && Values(21) == 0x200000
  {
    assert Values(5) == 32 && Values(7) == 4 * Values(5);
    assert Values(9) == 4 * Values(7) && Values(11) == 4 * Values(9);
    assert Values(13) == 4 * Values(11) && Values(15) == 4 * Values(13) && Values(16) == 2 * Values(15);
    assert Values(18) == 4 * Values(16) && Values(20) == 4 * Values(18) && Values(21) == 2 * Values(20);
  }

  /** A character is as wide as it has to be: its code fits, and would not fit into one byte fewer. */
  lemma WidthIsLeast(c: char)
    ensures var w := Utf8Width(c);
            && 1 <= w <= 4 && c as int < Values(Bits(w)) && (w > 1 ==> c as int >= Values(Bits(w - 1)))
  {
    ValuesAre();
  }

  lemma {:induction false} LengthsAdd(s: string, t: string)
    ensures Utf8Length(s + t) == Utf8Length(s) + Utf8Length(t)
    decreases |t|
  {
    if t == "" {
      assert s + t == s;
    } else {
      assert (s + t)[..|s + t| - 1] == s + t[..|t| - 1];
      LengthsAdd(s, t[..|t| - 1]);
    }
  }

  lemma LengthOfOne(c: char)
    ensures Utf8Length([c]) == Utf8Width(c)
  {
    assert [c][..0] == "";
  }

  function Appended(sha: Hash, t: Table, payload: string): Table {
    var previous := Before(t.rows, |t.rows|);
    Table(t.rows + [Row(t.last + 1, payload, previous, sha(previous + "\n" + payload))], t.last + 1)
  }

  function AppendAll(sha: Hash, t: Table, payloads: seq<string>): Table
    decreases |payloads|
  {
    if payloads == [] then t else AppendAll(sha, Appended(sha, t, payloads[0]), payloads[1..])
  }

  /** An append to a verified history keeps it verified exactly when no row at its end was ever removed. */
  lemma AppendKeepsVerifiedIff(sha: Hash, t: Table, payload: string)
    requires Verified(sha, t.rows)
    ensures Verified(sha, Appended(sha, t, payload).rows) <==> t.last == |t.rows|
  {
    var rows := Appended(sha, t, payload).rows;
    var n := |t.rows|;
    assert Linked(sha, rows, n) <==> t.last == n by {
      assert rows[n] == Row(t.last + 1, payload, Before(rows, n), sha(Before(rows, n) + "\n" + payload));
    }
    forall i | 0 <= i < n ensures Linked(sha, rows, i) {
      assert Linked(sha, t.rows, i);
    }
  }

  /** A table that only appends have written: whole, verified, and its earlier rows untouched by more. */
  lemma {:induction false} AppendsExtend(sha: Hash, t: Table, payloads: seq<string>)
    requires Verified(sha, t.rows) && t.last == |t.rows|
    ensures var t' := AppendAll(sha, t, payloads);
            && Verified(sha, t'.rows) && t'.last == |t'.rows| == |t.rows| + |payloads|
            && t'.rows[..|t.rows|] == t.rows
            && (forall i | 0 <= i < |payloads| :: t'.rows[|t.rows| + i].payload == payloads[i])
    decreases |payloads|
  {
    hide Verified;
    if payloads != [] {
      var t1 := Appended(sha, t, payloads[0]);
      AppendKeepsVerifiedIff(sha, t, payloads[0]);
      AppendsExtend(sha, t1, payloads[1..]);
      var rows := AppendAll(sha, t, payloads).rows;
      assert rows[..|t1.rows|][..|t.rows|] == t1.rows[..|t.rows|];
      forall i | 0 <= i < |payloads| ensures rows[|t.rows| + i].payload == payloads[i] {
        if i == 0 {
          assert rows[|t.rows|] == rows[..|t1.rows|][|t.rows|];
        } else {
          assert rows[|t1.rows| + (i - 1)].payload == payloads[1..][i - 1];
        }
      }
    }
  }

  // ---------------------------------------------------------------- checkpoints

  datatype Checkpoint = Checkpoint(sequence: nat, digest: string, database: string)

  function Latest(rows: seq<Row>, database: string): Checkpoint {
    if rows == [] then Checkpoint(0, GENESIS, database)
    else Checkpoint(rows[|rows| - 1].seqNo, rows[|rows| - 1].digest, database)
  }

  /** The history is verified and passes through the checkpoint. */
  predicate Anchored(sha: Hash, rows: seq<Row>, cp: Checkpoint, expected: string) {
    && cp.database == expected && Verified(sha, rows)
    && cp.sequence <= |rows| && Before(rows, cp.sequence) == cp.digest
  }

  /** A checkpoint taken at any time still holds after any further appends. */
  lemma CheckpointSurvivesAppends(sha: Hash, t: Table, payloads: seq<string>, database: string)
    requires Verified(sha, t.rows) && t.last == |t.rows|
    ensures Anchored(sha, AppendAll(sha, t, payloads).rows, Latest(t.rows, database), database)
  {
    hide Verified;
    AppendsExtend(sha, t, payloads);
    var rows := AppendAll(sha, t, payloads).rows;
    if |t.rows| > 0 {
      LastIsNumbered(sha, t.rows);
      assert rows[|t.rows| - 1] == rows[..|t.rows|][|t.rows| - 1];
    }
  }

  lemma LastIsNumbered(sha: Hash, rows: seq<Row>)
    requires Verified(sha, rows) && rows != []
    ensures rows[|rows| - 1].seqNo == |rows|
  {
    assert Linked(sha, rows, |rows| - 1);
  }

  // ---------------------------------------------------------------- what a digest pins down

  /** Two rows that would break the hash: different texts with one digest. */
  predicate Collision(sha: Hash, x: string, y: string) { x != y && sha(x) == sha(y) }

  lemma FirstLineBreak(p: string, a: string)
    requires '\n' !in p
    ensures var x := p + "\n" + a; x[|p|] == '\n' && forall k | 0 <= k < |p| :: x[k] != '\n'
  {
  }

  lemma SplitAtLineBreak(p: string, a: string, q: string, b: string)
    requires '\n' !in p && '\n' !in q && p + "\n" + a == q + "\n" + b
    ensures p == q && a == b
  {
    var x := p + "\n" + a;
    FirstLineBreak(p, a);
    FirstLineBreak(q, b);
    assert |p| == |q|;
    assert p == x[..|p|] && q == x[..|q|] && a == x[|p| + 1..] && b == x[|q| + 1..];
  }

  lemma PreviousHasNoBreak(sha: Hash, rows: seq<Row>, i: nat)
    requires Hex(sha) && Verified(sha, rows) && i <= |rows|
    ensures '\n' !in Before(rows, i)
  {
    if i > 0 {
      assert Linked(sha, rows, i - 1);
    }
  }

  /**
   Two verified histories with the same digest at the same sequence number are the same up to there,
   unless two of the texts they hash collide.
   */
  lemma {:induction false} SameDigestSameHistory(sha: Hash, a: seq<Row>, b: seq<Row>, n: nat)
    requires Hex(sha) && Verified(sha, a) && Verified(sha, b) && n <= |a| && n <= |b|
    requires Before(a, n) == Before(b, n)
    ensures a[..n] == b[..n] || exists i: nat | i < n :: Collision(sha, Text(a[i]), Text(b[i]))
  {
    if n > 0 {
      var x, y := a[n - 1], b[n - 1];
      assert Linked(sha, a, n - 1) && Linked(sha, b, n - 1);
      if Text(x) != Text(y) {
        assert Collision(sha, Text(a[n - 1]), Text(b[n - 1]));
      } else {
        PreviousHasNoBreak(sha, a, n - 1);
        PreviousHasNoBreak(sha, b, n - 1);
        SplitAtLineBreak(x.previous, x.payload, y.previous, y.payload);
        SameDigestSameHistory(sha, a, b, n - 1);
        assert x == y;
        if a[..n - 1] == b[..n - 1] {
          assert a[..n] == a[..n - 1] + [x] && b[..n] == b[..n - 1] + [y];
        }
      }
    }
  }

  /**
   A database that passes the check against a checkpoint of an original history holds that history as
   a prefix, unless it exhibits a collision: rows cannot be changed, dropped, inserted or reordered.
   */
  lemma AnchorPinsTheHistory(sha: Hash, original: seq<Row>, rows: seq<Row>, database: string)
    requires Hex(sha) && Verified(sha, original) && Anchored(sha, rows, Latest(original, database), database)
    ensures original <= rows || exists i: nat | i < |original| && i < |rows| :: Collision(sha, Text(original[i]), Text(rows[i]))
  {
    hide Verified;
    var n := |original|;
    if n > 0 {
      LastIsNumbered(sha, original);
      SameDigestSameHistory(sha, original, rows, n);
      if original[..n] == rows[..n] {
        assert original[..n] == original;
      }
    }
  }

  /**
   Against a checkpoint of that original, the check passes exactly for the database it names, with a
   verified history that extends the original, but for a collision.
   */
  lemma AnchoredIffExtends(sha: Hash, original: seq<Row>, rows: seq<Row>, database: string, expected: string)
    requires Hex(sha) && Verified(sha, original)
    requires forall i: nat | i < |original| && i < |rows| :: !Collision(sha, Text(original[i]), Text(rows[i]))
    ensures Anchored(sha, rows, Latest(original, database), expected) <==>
            database == expected && Verified(sha, rows) && original <= rows
  {
    if Anchored(sha, rows, Latest(original, database), expected) {
      AnchorPinsTheHistory(sha, original, rows, database);
    }
    if Verified(sha, rows) && original <= rows && original != [] {
      LastIsNumbered(sha, original);
      assert rows[|original| - 1] == original[|original| - 1];
    }
  }
}

/** The audit database as an object. */
module AuditSinks {
  import opened Wrappers
  import opened AuditChain

  class SQLiteAuditSink {
    const sha: Hash
    var rows: seq<Row>
    /** What the table's autoincrement counter stands at. */
    var last: nat

    constructor (sha: Hash)
      ensures this.sha == sha && rows == [] && last == 0
    {
      this.sha := sha;
      rows, last := [], 0;
    }

    ghost predicate Intact()
      reads this
    {
      Verified(sha, rows) && last == |rows|
    }

    /** Record an event; a payload over the limit is refused and nothing is written. */
    method Append(payload: string) returns (ok: bool)
      modifies this
      ensures ok <==> Utf8Length(payload) <= MAX_PAYLOAD
      ensures AuditChain.Table(rows, last) ==
              if ok then Appended(sha, AuditChain.Table(old(rows), old(last)), payload)
              else AuditChain.Table(old(rows), old(last))
      ensures old(Intact()) ==> Intact() && old(rows) <= rows
    {
      var bytes := 0;
      for i := 0 to |payload|
        invariant bytes == Utf8Length(payload[..i])
      {
        assert payload[..i + 1][..i] == payload[..i];
        bytes := bytes + Utf8Width(payload[i]);
      }
      assert payload[..|payload|] == payload;
      if bytes > MAX_PAYLOAD {
        return false;
      }
      AppendLemma(payload);
      var previous := if rows == [] then GENESIS else rows[|rows| - 1].digest;
      var digest := sha(previous + "\n" + payload);
      rows := rows + [Row(last + 1, payload, previous, digest)];
      last := last + 1;
      ok := true;
    }

    lemma AppendLemma(payload: string)
      ensures Intact() ==> Verified(sha, Appended(sha, AuditChain.Table(rows, last), payload).rows)
    {
      if Intact() {
        AppendKeepsVerifiedIff(sha, AuditChain.Table(rows, last), payload);
      }
    }

    method VerifyChain() returns (ok: bool)
      ensures ok <==> Verified(sha, rows)
    {
      var previous, previousSeq := GENESIS, 0;
      for i := 0 to |rows|
        invariant forall j | 0 <= j < i :: Linked(sha, rows, j)
        invariant previous == Before(rows, i) && previousSeq == i
      {
        var row := rows[i];
        if row.seqNo != previousSeq + 1 || row.previous != previous {
          assert !Linked(sha, rows, i);
          return false;
        }
        var actual := sha(row.previous + "\n" + row.payload);
        if actual != row.digest {
          assert !Linked(sha, rows, i);
          return false;
        }
        previous, previousSeq := row.digest, row.seqNo;
      }
      ok := true;
    }

    /** The sequence numbers and digests of a verified chain, or nothing. */
    method VerifiedSnapshot() returns (snapshot: Option<seq<(nat, string)>>)
      ensures snapshot.Some? <==> Verified(sha, rows)
      ensures snapshot.Some? ==> |snapshot.value| == |rows|
      ensures snapshot.Some? ==> forall i | 0 <= i < |rows| :: snapshot.value[i] == (i + 1, rows[i].digest)
    {
      hide Linked, Verified;
      var previous, previousSeq := GENESIS, 0;
      var seen: seq<(nat, string)> := [];
      for i := 0 to |rows|
        invariant forall j | 0 <= j < i :: Linked(sha, rows, j)
        invariant previous == Before(rows, i) && previousSeq == i
        invariant |seen| == i && forall j | 0 <= j < i :: seen[j] == (j + 1, rows[j].digest)
      {
        var row := rows[i];
        LinkedIs(sha, rows, i);
        if row.seqNo != previousSeq + 1 || row.previous != previous || row.digest != sha(row.previous + "\n" + row.payload) {
          BrokenIsNotVerified(sha, rows, i);
          return None;
        }
        seen := seen + [(row.seqNo, row.digest)];
        previous, previousSeq := row.digest, row.seqNo;
      }
      AllLinkedIsVerified(sha, rows);
      snapshot := Some(seen);
    }

    method TakeCheckpoint(database: string) returns (cp: Option<Checkpoint>)
      ensures cp == if Verified(sha, rows) then Some(Latest(rows, database)) else None
    {
      var snapshot := VerifiedSnapshot();
      if snapshot.None? {
        return None;
      }
      if snapshot.value == [] {
        return Some(Checkpoint(0, GENESIS, database));
      }
      LastIsNumbered(sha, rows);
      var (sequence, digest) := snapshot.value[|snapshot.value| - 1];
      cp := Some(Checkpoint(sequence, digest, database));
    }

    method VerifyAnchored(cp: Checkpoint, expected: string) returns (ok: bool)
      ensures ok <==> Anchored(sha, rows, cp, expected)
    {
      if cp.database != expected {
        return false;
      }
      var snapshot := VerifiedSnapshot();
      if snapshot.None? {
        return false;
      }
      if cp.sequence == 0 {
        return cp.digest == GENESIS;
      }
      var index := cp.sequence - 1;
      ok := index < |snapshot.value| && snapshot.value[index] == (cp.sequence, cp.digest);
    }
  }
}
