/**
  The hash-chained activity log and its verifier (skill/src/autonomy/activity-feed.ts,
  skill/src/tools/pinch-audit-verify.ts, pinch-audit-export.ts). The digest is a parameter
  `H`, an arbitrary function; where a result needs more of it, the result says so.
 */
module AuditLog {
  import opened Common
  import opened Feed

  type Digest = string -> string

  datatype Row = Row(id: string, connectionAddress: string, eventType: string, messageId: Option<string>,
                     badge: Option<string>, details: Details, createdAt: string, actorPubkey: Option<string>,
                     actionType: Option<string>, messageHash: Option<string>, prevHash: string, entryHash: string)

  function OrEmpty(o: Option<string>): string {
    if o.Some? then o.value else ""
  }

  /** The seven fields under the hash, in order. */
  function Fields(r: Row): seq<string> {
    [r.id, r.createdAt, OrEmpty(r.actorPubkey), OrEmpty(r.actionType), r.connectionAddress, OrEmpty(r.messageHash),
     r.prevHash]
  }

  function Join(fs: seq<string>): string
    requires fs != []
  {
    if |fs| == 1 then fs[0] else fs[0] + "|" + Join(fs[1..])
  }

  function EntryHash(H: Digest, r: Row): string {
    H(Join(Fields(r)))
  }

  // ---------- the table, ordered by (created_at, id) ----------

  /** Bytewise string order, as SQLite compares text. */
  predicate StrLess(a: string, b: string) {
    b != [] && (a == [] || a[0] < b[0] || (a[0] == b[0] && StrLess(a[1..], b[1..])))
  }

  /** The order of (created_at, id). */
  predicate KeyLess(at1: string, id1: string, at2: string, id2: string) {
    StrLess(at1, at2) || (at1 == at2 && StrLess(id1, id2))
  }

  /** The table with a row added, read back in ascending order. */
  function Inserted(t: seq<Row>, r: Row): seq<Row> {
    if t == [] then [r]
    else if KeyLess(t[|t| - 1].createdAt, t[|t| - 1].id, r.createdAt, r.id) then t + [r]
    else Inserted(t[..|t| - 1], r) + [t[|t| - 1]]
  }

  function LastHash(t: seq<Row>): string {
    if t == [] then "" else t[|t| - 1].entryHash
  }

  /** The row that record() stores. */
  function NewRow(H: Digest, t: seq<Row>, e: FeedEvent, id: string, createdAt: string): Row {
    var r := Row(id, e.connectionAddress, e.eventType, e.messageId, e.badge, e.details, createdAt, e.actorPubkey,
                 Some(if e.actionType.Some? then e.actionType.value else e.eventType), e.messageHash, LastHash(t), "");
    r.(entryHash := EntryHash(H, r))
  }

  function Recorded(H: Digest, t: seq<Row>, e: FeedEvent, id: string, createdAt: string): seq<Row> {
    Inserted(t, NewRow(H, t, e, id, createdAt))
  }

  class ActivityFeed {
    const H: Digest
    var rows: seq<Row>

    constructor (H: Digest)
      ensures this.H == H && rows == []
    {
      this.H := H;
      rows := [];
    }

    method Record(e: FeedEvent, id: string, createdAt: string) returns (row: Row)
      modifies this
      ensures row == NewRow(H, old(rows), e, id, createdAt)
      ensures rows == Recorded(H, old(rows), e, id, createdAt)
    {
      var prevHash := if |rows| == 0 then "" else rows[|rows| - 1].entryHash;
      var actionType := if e.actionType.Some? then e.actionType.value else e.eventType;
      var fields := [id, createdAt, OrEmpty(e.actorPubkey), actionType, e.connectionAddress, OrEmpty(e.messageHash),
                     prevHash];
      row := Row(id, e.connectionAddress, e.eventType, e.messageId, e.badge, e.details, createdAt, e.actorPubkey,
                 Some(actionType), e.messageHash, prevHash, H(Join(fields)));
      rows := Inserted(rows, row);
    }
  }

  /** What is under the hash of a row, written out. */
  lemma {:induction false} HashInput(r: Row)
    ensures Join(Fields(r)) == r.id + "|" + (r.createdAt + "|" + (OrEmpty(r.actorPubkey) + "|" + (OrEmpty(r.actionType)
              + "|" + (r.connectionAddress + "|" + (OrEmpty(r.messageHash) + "|" + r.prevHash)))))
  {
    var fs := Fields(r);
    assert fs[6..] == [r.prevHash] && Join(fs[6..]) == r.prevHash;
    JoinStep(fs, 5);
    JoinStep(fs, 4);
    JoinStep(fs, 3);
    JoinStep(fs, 2);
    JoinStep(fs, 1);
    JoinStep(fs, 0);
    assert fs[0..] == fs;
  }

  lemma {:induction false} JoinStep(fs: seq<string>, k: nat)
    requires k + 1 < |fs|
    ensures Join(fs[k..]) == fs[k] + "|" + Join(fs[k + 1..])
  {
    assert fs[k..][1..] == fs[k + 1..];
  }

  /** What a recording stores: the event as given, its action named after its type if it has none. */
  lemma {:induction false} RecordedRow(H: Digest, t: seq<Row>, e: FeedEvent, id: string, createdAt: string)
    ensures var r := NewRow(H, t, e, id, createdAt);
            && r == Row(id, e.connectionAddress, e.eventType, e.messageId, e.badge, e.details, createdAt, e.actorPubkey,
                        r.actionType, e.messageHash, if t == [] then "" else t[|t| - 1].entryHash, H(Join(Fields(r))))
            && r.actionType == (if e.actionType == None then Some(e.eventType) else e.actionType)
            && multiset(Recorded(H, t, e, id, createdAt)) == multiset(t) + multiset{r}
  {
    NewRowHash(H, t, e, id, createdAt);
    InsertedBag(t, NewRow(H, t, e, id, createdAt));
  }

  lemma {:induction false} InsertedBag(t: seq<Row>, r: Row)
    ensures multiset(Inserted(t, r)) == multiset(t) + multiset{r}
  {
    if t != [] {
      InsertedBag(t[..|t| - 1], r);
      assert t == t[..|t| - 1] + [t[|t| - 1]];
    }
  }

  /** The order of the table: a proper prefix comes first, and otherwise the first difference decides. */
  lemma {:induction false} StrLessMeans(a: string, b: string)
    ensures StrLess(a, b) <==> a < b || exists k :: DiffersAt(a, b, k)
  {
    if a != [] && b != [] {
      var a', b' := a[1..], b[1..];
      StrLessMeans(a', b');
      if a[0] == b[0] {
        assert a < b <==> a' < b' by {
          assert a == [a[0]] + a' && b == [b[0]] + b';
        }
        assert (exists k :: DiffersAt(a, b, k)) <==> (exists k :: DiffersAt(a', b', k)) by {
          DiffersLater(a, b);
        }
      } else {
        assert a[0] < b[0] ==> DiffersAt(a, b, 0);
        assert !(a < b);
      }
    }
  }

  ghost predicate DiffersAt(a: string, b: string, k: int) {
    0 <= k < |a| && k < |b| && a[..k] == b[..k] && a[k] < b[k]
  }

  lemma {:induction false} DiffersLater(a: string, b: string)
    requires a != [] && b != [] && a[0] == b[0]
    ensures forall k :: DiffersAt(a, b, k) ==> DiffersAt(a[1..], b[1..], k - 1)
    ensures forall k :: DiffersAt(a[1..], b[1..], k) ==> DiffersAt(a, b, k + 1)
  {
    forall k | DiffersAt(a, b, k) ensures DiffersAt(a[1..], b[1..], k - 1) {
      assert a[1..][..k - 1] == a[..k][1..] && b[1..][..k - 1] == b[..k][1..];
    }
    forall k | DiffersAt(a[1..], b[1..], k) ensures DiffersAt(a, b, k + 1) {
      assert a[..k + 1] == [a[0]] + a[1..][..k] && b[..k + 1] == [b[0]] + b[1..][..k];
    }
  }

  // ---------- verification ----------

  function Hashed(t: seq<Row>): seq<Row> {
    if t == [] then []
    else if t[0].entryHash != "" then [t[0]] + Hashed(t[1..])
    else Hashed(t[1..])
  }

  /** What the walk demands of position i. */
  predicate LinkOk(H: Digest, rows: seq<Row>, i: nat, fromGenesis: bool)
    requires i < |rows|
  {
    && rows[i].entryHash == EntryHash(H, rows[i])
    && (i == 0 && fromGenesis ==> rows[i].prevHash == "")
    && (i > 0 ==> rows[i].prevHash == rows[i - 1].entryHash)
  }

  ghost predicate ChainOk(H: Digest, rows: seq<Row>, fromGenesis: bool) {
    forall i :: 0 <= i < |rows| ==> LinkOk(H, rows, i, fromGenesis)
  }

  /** The rows the tool looks at: all hashed rows, or the last N of them. */
  function Selected(t: seq<Row>, tail: Option<nat>): seq<Row> {
    var rows := Hashed(t);
    if tail.None? || tail.value >= |rows| then rows else rows[|rows| - tail.value..]
  }

  /** Rows from before hashing are passed over; of the others the tool looks at all, or at the last N. */
  lemma {:induction false} SelectedAre(t: seq<Row>, tail: Option<nat>, r: Row)
    ensures IsSubsequence(Hashed(t), t)
    ensures multiset(Hashed(t))[r] == if r.entryHash == "" then 0 else multiset(t)[r]
    ensures var all, rows := Hashed(t), Selected(t, tail);
            |rows| == (if tail.Some? then Min(tail.value, |all|) else |all|) && all[|all| - |rows|..] == rows
  {
    HashedInOrder(t);
    HashedCounts(t, r);
  }

  lemma {:induction false} HashedInOrder(t: seq<Row>)
    ensures IsSubsequence(Hashed(t), t)
  {
    if t != [] {
      HashedInOrder(t[1..]);
      if t[0].entryHash == "" {
        SkipFirst(Hashed(t[1..]), t);
      } else {
        assert Hashed(t)[1..] == Hashed(t[1..]);
      }
    }
  }

  lemma {:induction false} HashedCounts(t: seq<Row>, r: Row)
    ensures multiset(Hashed(t))[r] == if r.entryHash == "" then 0 else multiset(t)[r]
  {
    if t != [] {
      HashedCounts(t[1..], r);
      assert t == [t[0]] + t[1..];
    }
  }

  datatype Report =
    | Valid(total: nat, verified: nat, genesisId: Option<string>, latestId: Option<string>)
    | Broken(total: nat, firstBrokenAt: string, index: nat, expected: string, actual: string)

  /** The tool's verdict is right, and a broken chain is reported at its first bad entry. */
  method Verify(H: Digest, t: seq<Row>, tail: Option<nat>) returns (r: Report)
    requires tail.Some? ==> tail.value > 0
    ensures r.total == |Hashed(t)|
    ensures r.Valid? <==> ChainOk(H, Selected(t, tail), tail.None?)
    ensures r.Valid? ==> r.verified == |Selected(t, tail)|
    ensures r.Valid? && Hashed(t) != [] ==>
              r.genesisId == Some(Selected(t, tail)[0].id) && r.latestId == Some(Hashed(t)[|Hashed(t)| - 1].id)
    ensures r.Broken? ==>
              && r.index < |Selected(t, tail)| && !LinkOk(H, Selected(t, tail), r.index, tail.None?)
              && (forall i :: 0 <= i < r.index ==> LinkOk(H, Selected(t, tail), i, tail.None?))
              && r.firstBrokenAt == Selected(t, tail)[r.index].id && r.expected != r.actual
  {
    var total := |Hashed(t)|;
    if total == 0 {
      return Valid(0, 0, None, None);
    }
    var entries := Selected(t, tail);
    for i := 0 to |entries|
      invariant forall j :: 0 <= j < i ==> LinkOk(H, entries, j, tail.None?)
    {
      var entry := entries[i];
      var expected := EntryHash(H, entry);
      if expected != entry.entryHash {
        assert !LinkOk(H, entries, i, tail.None?);
        return Broken(total, entry.id, i, expected, entry.entryHash);
      }
      if i == 0 && tail.None? {
        if entry.prevHash != "" {
          assert !LinkOk(H, entries, i, tail.None?);
          return Broken(total, entry.id, i, "", entry.prevHash);
        }
      } else if i > 0 {
        if entry.prevHash != entries[i - 1].entryHash {
          assert !LinkOk(H, entries, i, tail.None?);
          return Broken(total, entry.id, i, entries[i - 1].entryHash, entry.prevHash);
        }
      }
    }
    return Valid(total, |entries|, Some(entries[0].id), Some(entries[|entries| - 1].id));
  }

  // ---------- completeness: what record() writes verifies ----------

  datatype Input = Input(event: FeedEvent, id: string, createdAt: string)

  function RecordAll(H: Digest, t: seq<Row>, inputs: seq<Input>): seq<Row> {
    if inputs == [] then t
    else
      var last := inputs[|inputs| - 1];
      Recorded(H, RecordAll(H, t, inputs[..|inputs| - 1]), last.event, last.id, last.createdAt)
  }

  /** Ids and times strictly increase, and start after everything already in the table. */
  ghost predicate Ordered(t: seq<Row>, inputs: seq<Input>) {
    && (forall i, j :: 0 <= i < j < |inputs| ==>
          KeyLess(inputs[i].createdAt, inputs[i].id, inputs[j].createdAt, inputs[j].id))
    && (t != [] && inputs != [] ==> KeyLess(t[|t| - 1].createdAt, t[|t| - 1].id, inputs[0].createdAt, inputs[0].id))
  }

  ghost predicate Unhashed(t: seq<Row>) {
    forall r :: r in t ==> r.entryHash == ""
  }

  lemma {:induction false} HashedConcat(a: seq<Row>, b: seq<Row>)
    ensures Hashed(a + b) == Hashed(a) + Hashed(b)
  {
    if a == [] {
      assert a + b == b;
    } else {
      HashedConcat(a[1..], b);
      assert (a + b)[1..] == a[1..] + b && (a + b)[0] == a[0];
    }
  }

  lemma {:induction false} HashedUnhashed(t: seq<Row>)
    requires Unhashed(t)
    ensures Hashed(t) == []
  {
    if t != [] {
      assert t[0] in t;
      HashedUnhashed(t[1..]);
    }
  }

  lemma {:induction false} ChainSnoc(H: Digest, rows: seq<Row>, r: Row)
    requires ChainOk(H, rows, true)
    requires r.entryHash == EntryHash(H, r) && r.prevHash == LastHash(rows)
    ensures ChainOk(H, rows + [r], true)
  {
    var all := rows + [r];
    forall i | 0 <= i < |all| ensures LinkOk(H, all, i, true) {
      if i < |rows| {
        assert LinkOk(H, rows, i, true);
      }
    }
  }

  lemma {:induction false} NewRowHash(H: Digest, t: seq<Row>, e: FeedEvent, id: string, createdAt: string)
    ensures var r := NewRow(H, t, e, id, createdAt);
            r.entryHash == EntryHash(H, r) && r.prevHash == LastHash(t) && r.id == id && r.createdAt == createdAt
  {
    var r := NewRow(H, t, e, id, createdAt);
    assert Fields(r) == Fields(r.(entryHash := ""));
  }

  lemma {:induction false} RecordAllShape(H: Digest, t: seq<Row>, inputs: seq<Input>)
    requires Unhashed(t) && Ordered(t, inputs)
    requires forall x :: H(x) != ""
    ensures var u := RecordAll(H, t, inputs);
            && Shape(H, t, u) && |u| == |t| + |inputs|
            && (inputs != [] ==>
                u[|u| - 1].createdAt == inputs[|inputs| - 1].createdAt && u[|u| - 1].id == inputs[|inputs| - 1].id)
  {
    if inputs == [] {
      HashedUnhashed(t);
      assert t[|t|..] == [];
      assert t != [] ==> t[|t| - 1] in t;
    } else {
      var before, last := inputs[..|inputs| - 1], inputs[|inputs| - 1];
      RecordAllShape(H, t, before);
      var u := RecordAll(H, t, before);
      if u != [] {
        var n := |inputs|;
        assert n > 1 ==> KeyLess(inputs[n - 2].createdAt, inputs[n - 2].id, inputs[n - 1].createdAt, inputs[n - 1].id);
        assert KeyLess(u[|u| - 1].createdAt, u[|u| - 1].id, last.createdAt, last.id);
      }
      RecordAppends(H, u, last);
      NewRowHash(H, u, last.event, last.id, last.createdAt);
      AppendRow(H, t, u, NewRow(H, u, last.event, last.id, last.createdAt));
    }
  }

  /** The shape of the table: old rows, then a chain, of which the walk sees exactly the chain. */
  ghost predicate Shape(H: Digest, t: seq<Row>, u: seq<Row>) {
    && |t| <= |u| && u[..|t|] == t
    && Hashed(u) == u[|t|..] && ChainOk(H, u[|t|..], true)
    && LastHash(u) == LastHash(u[|t|..])
  }

  lemma {:induction false} AppendRow(H: Digest, t: seq<Row>, u: seq<Row>, r: Row)
    requires Shape(H, t, u) && r.entryHash == EntryHash(H, r) && r.entryHash != "" && r.prevHash == LastHash(u)
    ensures Shape(H, t, u + [r])
  {
    var chain := u[|t|..];
    assert (u + [r])[|t|..] == chain + [r] && (u + [r])[..|t|] == t;
    HashedConcat(u, [r]);
    assert Hashed([r]) == [r];
    ChainSnoc(H, chain, r);
  }

  lemma {:induction false} RecordAppends(H: Digest, u: seq<Row>, last: Input)
    requires u != [] ==> KeyLess(u[|u| - 1].createdAt, u[|u| - 1].id, last.createdAt, last.id)
    ensures Recorded(H, u, last.event, last.id, last.createdAt)
            == u + [NewRow(H, u, last.event, last.id, last.createdAt)]
  {
    NewRowHash(H, u, last.event, last.id, last.createdAt);
  }

  /**
    Completeness: any run of record() with increasing (created_at, id), from a table that is
    empty or holds only older unhashed rows, verifies in full and for every --tail N.
   */
  lemma {:induction false} EverythingRecordedVerifies(H: Digest, t: seq<Row>, inputs: seq<Input>, tail: Option<nat>)
    requires Unhashed(t) && Ordered(t, inputs)
    requires forall x :: H(x) != ""
    ensures ChainOk(H, Selected(RecordAll(H, t, inputs), tail), tail.None?)
    ensures |Hashed(RecordAll(H, t, inputs))| == |inputs|
  {
    RecordAllShape(H, t, inputs);
    SelectedVerifies(H, RecordAll(H, t, inputs), tail);
  }

  /** A chain that verifies in full verifies for every --tail N. */
  lemma {:induction false} SelectedVerifies(H: Digest, t: seq<Row>, tail: Option<nat>)
    requires ChainOk(H, Hashed(t), true)
    ensures ChainOk(H, Selected(t, tail), tail.None?)
  {
    var rows := Hashed(t);
    if tail.Some? {
      var lo := if tail.value < |rows| then |rows| - tail.value else 0;
      SliceChain(H, rows, true, lo, |rows|);
      assert rows[lo..|rows|] == Selected(t, tail);
    }
  }

  /** Any contiguous part of a chain passes the walk that does not ask for the genesis entry. */
  lemma {:induction false} SliceChain(H: Digest, rows: seq<Row>, fromGenesis: bool, lo: nat, hi: nat)
    requires lo <= hi <= |rows| && ChainOk(H, rows, fromGenesis)
    ensures ChainOk(H, rows[lo..hi], false)
  {
    var slice := rows[lo..hi];
    forall i | 0 <= i < |slice| ensures LinkOk(H, slice, i, false) {
      assert LinkOk(H, rows, lo + i, fromGenesis);
    }
  }

  // ---------- and only then ----------

  lemma {:induction false} InsertedAt(t: seq<Row>, r: Row) returns (k: nat)
    ensures k <= |t| && Inserted(t, r) == t[..k] + [r] + t[k..]
    ensures k == |t| <==> t == [] || KeyLess(t[|t| - 1].createdAt, t[|t| - 1].id, r.createdAt, r.id)
  {
    if t == [] || KeyLess(t[|t| - 1].createdAt, t[|t| - 1].id, r.createdAt, r.id) {
      k := |t|;
      assert t[..k] == t && t[k..] == [];
    } else {
      var init, last := t[..|t| - 1], t[|t| - 1];
      k := InsertedAt(init, r);
      assert init[..k] == t[..k] && init[k..] + [last] == t[k..];
    }
  }

  /** The hash inputs of two rows differ and have one digest. */
  ghost predicate RowsCollide(H: Digest, a: Row, b: Row) {
    Join(Fields(a)) != Join(Fields(b)) && EntryHash(H, a) == EntryHash(H, b)
  }

  /** A row put between t[k - 1] and t[k] breaks the chain at t[k], unless it collides with t[k - 1]. */
  lemma {:induction false} GapBreaks(H: Digest, t: seq<Row>, r: Row, k: nat)
    requires ChainOk(H, t, true) && k < |t| && r.entryHash == EntryHash(H, r) && r.entryHash != ""
    requires NoBar(r.id) && forall q :: q in t ==> NoBar(q.id) && q.id != r.id
    ensures !ChainOk(H, t[..k] + [r] + t[k..], true) || (k > 0 && RowsCollide(H, t[k - 1], r))
  {
    var v := t[..k] + [r] + t[k..];
    assert v[k] == r && v[k + 1] == t[k];
    assert LinkOk(H, t, k, true);
    if ChainOk(H, v, true) {
      assert LinkOk(H, v, k + 1, true);
      assert t[k].prevHash == r.entryHash;
      assert LinkOk(H, t, k - 1, true);
      var q := t[k - 1];
      if Join(Fields(q)) == Join(Fields(r)) {
        assert q in t;
        SameHead(q.id, r.id, Join(Fields(q)[1..]), Join(Fields(r)[1..]));
      }
    }
  }

  /**
    The exact condition: a call on a verified table leaves it verified exactly when its
    (created_at, id) sorts after the last row, unless the new row collides with a stored one.
   */
  lemma {:induction false} RecordVerifiesExactly(H: Digest, t: seq<Row>, e: FeedEvent, id: string, createdAt: string)
    requires ChainOk(H, t, true) && forall z :: H(z) != ""
    requires NoBar(id) && forall q :: q in t ==> NoBar(q.id) && q.id != id
    ensures var sortsLast := t == [] || KeyLess(t[|t| - 1].createdAt, t[|t| - 1].id, createdAt, id);
            || (ChainOk(H, Recorded(H, t, e, id, createdAt), true) <==> sortsLast)
            || exists q :: q in t && RowsCollide(H, q, NewRow(H, t, e, id, createdAt))
  {
    var r := NewRow(H, t, e, id, createdAt);
    NewRowHash(H, t, e, id, createdAt);
    var k := InsertedAt(t, r);
    if k == |t| {
      assert t[..k] == t && t[k..] == [] && t + [r] + [] == t + [r];
      ChainSnoc(H, t, r);
    } else {
      GapBreaks(H, t, r, k);
      assert k > 0 ==> t[k - 1] in t;
    }
  }

  // ---------- the serialization under the hash ----------

  predicate NoBar(s: string) {
    '|' !in s
  }

  ghost predicate BarFree(fs: seq<string>) {
    forall i :: 0 <= i < |fs| ==> NoBar(fs[i])
  }

  function Bars(s: string): nat {
    if s == [] then 0 else (if s[0] == '|' then 1 else 0) + Bars(s[1..])
  }

  lemma {:induction false} BarsConcat(a: string, b: string)
    ensures Bars(a + b) == Bars(a) + Bars(b)
  {
    if a == [] {
      assert a + b == b;
    } else {
      BarsConcat(a[1..], b);
      assert (a + b)[1..] == a[1..] + b && (a + b)[0] == a[0];
    }
  }

  lemma {:induction false} NoBars(s: string)
    ensures NoBar(s) <==> Bars(s) == 0
  {
    if s != [] {
      NoBars(s[1..]);
      assert s == [s[0]] + s[1..];
    }
  }

  /** A serialization has at least one bar per separator, and no more exactly when no field has one. */
  lemma {:induction false} JoinBars(fs: seq<string>)
    requires fs != []
    ensures Bars(Join(fs)) >= |fs| - 1
    ensures Bars(Join(fs)) == |fs| - 1 <==> BarFree(fs)
  {
    NoBars(fs[0]);
    if |fs| > 1 {
      var rest := fs[1..];
      JoinBars(rest);
      BarsConcat(fs[0] + "|", Join(rest));
      BarsConcat(fs[0], "|");
      assert Bars("|") == 1;
      assert BarFree(fs) <==> NoBar(fs[0]) && BarFree(rest) by {
        if BarFree(fs) {
          forall i | 0 <= i < |rest| ensures NoBar(rest[i]) {
            assert NoBar(fs[i + 1]);
          }
        }
      }
    }
  }

  function FirstBar(s: string): nat {
    if s == [] || s[0] == '|' then 0 else 1 + FirstBar(s[1..])
  }

  lemma {:induction false} FirstBarAt(a: string, x: string)
    requires NoBar(a)
    ensures FirstBar(a + "|" + x) == |a|
  {
    var s := a + "|" + x;
    if a != [] {
      FirstBarAt(a[1..], x);
      assert s[1..] == a[1..] + "|" + x && s[0] == a[0];
    }
  }

  /** Up to the first bar, both strings are the same field. */
  lemma {:induction false} SameHead(a: string, b: string, x: string, y: string)
    requires NoBar(a) && NoBar(b) && a + "|" + x == b + "|" + y
    ensures a == b && x == y
  {
    var s, u := a + "|" + x, b + "|" + y;
    FirstBarAt(a, x);
    FirstBarAt(b, y);
    assert s[..|a|] == a && u[..|b|] == b && s[|a| + 1..] == x && u[|b| + 1..] == y;
  }

  lemma {:induction false} JoinInjective(fs: seq<string>, gs: seq<string>)
    requires fs != [] && |fs| == |gs| && BarFree(fs) && BarFree(gs) && Join(fs) == Join(gs)
    ensures fs == gs
  {
    if |fs| > 1 {
      SameHead(fs[0], gs[0], Join(fs[1..]), Join(gs[1..]));
      JoinInjective(fs[1..], gs[1..]);
      assert fs == [fs[0]] + fs[1..] && gs == [gs[0]] + gs[1..];
    }
  }

  /** A bar-free field list is determined by its serialization among all lists of its length. */
  lemma {:induction false} BarFreeDetermined(fs: seq<string>, gs: seq<string>)
    requires fs != [] && |fs| == |gs| && BarFree(fs) && Join(fs) == Join(gs)
    ensures fs == gs
  {
    JoinBars(fs);
    JoinBars(gs);
    JoinInjective(fs, gs);
  }

  /** Otherwise it is not: moving a bar from one field into the separator gives another list. */
  lemma {:induction false} BarAmbiguous(fs: seq<string>) returns (gs: seq<string>)
    requires |fs| >= 2 && !BarFree(fs)
    ensures |gs| == |fs| && gs != fs && Join(gs) == Join(fs)
  {
    if !NoBar(fs[0]) {
      gs := ShiftRight(fs);
    } else if !NoBar(fs[1]) {
      gs := ShiftLeft(fs);
    } else {
      var rest := fs[1..];
      var k :| 0 <= k < |fs| && !NoBar(fs[k]);
      assert rest[k - 1] == fs[k];
      var hs := BarAmbiguous(rest);
      gs := [fs[0]] + hs;
      assert gs[1..] == hs && fs == [fs[0]] + rest;
    }
  }

  lemma {:induction false} ShiftRight(fs: seq<string>) returns (gs: seq<string>)
    requires |fs| >= 2 && !NoBar(fs[0])
    ensures |gs| == |fs| && gs != fs && Join(gs) == Join(fs)
  {
    var i :| 0 <= i < |fs[0]| && fs[0][i] == '|';
    var a, b := fs[0][..i], fs[0][i + 1..];
    assert fs[0] == a + "|" + b;
    gs := [a, b + "|" + fs[1]] + fs[2..];
    JoinTwo(fs);
    JoinTwo(gs);
    assert gs[2..] == fs[2..];
  }

  lemma {:induction false} ShiftLeft(fs: seq<string>) returns (gs: seq<string>)
    requires |fs| >= 2 && !NoBar(fs[1])
    ensures |gs| == |fs| && gs != fs && Join(gs) == Join(fs)
  {
    var i :| 0 <= i < |fs[1]| && fs[1][i] == '|';
    var a, b := fs[1][..i], fs[1][i + 1..];
    assert fs[1] == a + "|" + b;
    gs := [fs[0] + "|" + a, b] + fs[2..];
    JoinTwo(fs);
    JoinTwo(gs);
    assert gs[2..] == fs[2..];
  }

  lemma {:induction false} JoinTwo(fs: seq<string>)
    requires |fs| >= 2
    ensures Join(fs) == fs[0] + "|" + fs[1] + (if |fs| == 2 then "" else "|" + Join(fs[2..]))
  {
    var rest := fs[1..];
    if |fs| > 2 {
      assert rest[1..] == fs[2..];
      assert Join(rest) == fs[1] + "|" + Join(fs[2..]);
      assert fs[0] + "|" + (fs[1] + "|" + Join(fs[2..])) == fs[0] + "|" + fs[1] + ("|" + Join(fs[2..]));
    } else {
      assert Join(rest) == fs[1] == fs[1] + "";
    }
  }

  /** The hash input determines the seven fields exactly when none of them contains a bar. */
  lemma {:induction false} FieldsDetermined(fs: seq<string>)
    requires |fs| == 7
    ensures (forall gs :: |gs| == 7 && Join(gs) == Join(fs) ==> gs == fs) <==> BarFree(fs)
  {
    if BarFree(fs) {
      forall gs | |gs| == 7 && Join(gs) == Join(fs) ensures gs == fs {
        BarFreeDetermined(fs, gs);
      }
    } else {
      var gs := BarAmbiguous(fs);
    }
  }

  // ---------- tamper evidence ----------

  ghost predicate AllHashed(t: seq<Row>) {
    forall r :: r in t ==> r.entryHash != ""
  }

  ghost predicate SameFields(t: seq<Row>, u: seq<Row>) {
    && |t| == |u|
    && forall i :: 0 <= i < |t| ==> Fields(t[i]) == Fields(u[i]) && t[i].entryHash == u[i].entryHash
  }

  /** Two hashed rows with one hash agree on the seven fields, or they collide. */
  lemma {:induction false} SameHashSameRow(H: Digest, a: Row, b: Row)
    requires a.entryHash == EntryHash(H, a) && b.entryHash == EntryHash(H, b) && a.entryHash == b.entryHash
    requires BarFree(Fields(a))
    ensures Fields(a) == Fields(b) || RowsCollide(H, a, b)
  {
    if Join(Fields(a)) == Join(Fields(b)) {
      BarFreeDetermined(Fields(a), Fields(b));
    }
  }

  /** The k-th rows from the end of the two tables collide. */
  ghost predicate CollideAt(H: Digest, t: seq<Row>, u: seq<Row>, k: nat) {
    k < |t| && k < |u| && RowsCollide(H, t[|t| - 1 - k], u[|u| - 1 - k])
  }

  ghost predicate Collide(H: Digest, t: seq<Row>, u: seq<Row>) {
    exists k: nat :: CollideAt(H, t, u, k)
  }

  lemma {:induction false} CollideEarlier(H: Digest, t: seq<Row>, u: seq<Row>)
    requires t != [] && u != [] && Collide(H, t[..|t| - 1], u[..|u| - 1])
    ensures Collide(H, t, u)
  {
    var k: nat :| CollideAt(H, t[..|t| - 1], u[..|u| - 1], k);
    assert CollideAt(H, t, u, k + 1);
  }

  /**
    Tamper evidence: two fully verified tables that end in the same entry hash, the first with
    bar-free fields, agree in length and in all seven hashed fields of every entry, or two entries
    at the same distance from the end have different hash inputs with the same digest. Nothing else
    is assumed of the digest.
   */
  lemma {:induction false} TamperEvident(H: Digest, t: seq<Row>, u: seq<Row>)
    requires ChainOk(H, t, true) && ChainOk(H, u, true) && AllHashed(t) && AllHashed(u)
    requires forall r :: r in t ==> BarFree(Fields(r))
    requires LastHash(t) == LastHash(u)
    ensures SameFields(t, u) || Collide(H, t, u)
    decreases t
  {
    LastHashEmpty(t);
    LastHashEmpty(u);
    if t != [] {
      var a, b := t[|t| - 1], u[|u| - 1];
      assert LinkOk(H, t, |t| - 1, true) && LinkOk(H, u, |u| - 1, true) && a in t;
      SameHashSameRow(H, a, b);
      if Fields(a) != Fields(b) {
        assert CollideAt(H, t, u, 0) && Collide(H, t, u);
      } else {
        var t', u' := t[..|t| - 1], u[..|u| - 1];
        PrefixChain(H, t);
        PrefixChain(H, u);
        assert a.prevHash == Fields(a)[6] && b.prevHash == Fields(b)[6];
        TamperEvident(H, t', u');
        if SameFields(t', u') {
          SameFieldsSnoc(t, u);
        } else {
          CollideEarlier(H, t, u);
        }
      }
    }
  }

  lemma {:induction false} JoinLast(fs: seq<string>)
    requires |fs| >= 2
    ensures Join(fs) == Join(fs[..|fs| - 1]) + "|" + fs[|fs| - 1]
  {
    var init := fs[..|fs| - 1];
    if |fs| > 2 {
      JoinLast(fs[1..]);
      assert fs[1..][..|fs| - 2] == init[1..];
      assert fs[0] + "|" + (Join(init[1..]) + "|" + fs[|fs| - 1])
             == (fs[0] + "|" + Join(init[1..])) + "|" + fs[|fs| - 1];
    }
  }

  /** A row with other values in the first six fields. */
  function Rewritten(r: Row, gs: seq<string>): Row
    requires |gs| == 6
  {
    r.(id := gs[0], createdAt := gs[1], actorPubkey := Some(gs[2]), actionType := Some(gs[3]),
       connectionAddress := gs[4], messageHash := Some(gs[5]))
  }

  lemma {:induction false} RewrittenInput(r: Row) returns (gs: seq<string>)
    requires !BarFree(Fields(r)[..6])
    ensures |gs| == 6 && gs != Fields(r)[..6] && Join(Fields(Rewritten(r, gs))) == Join(Fields(r))
    ensures Fields(Rewritten(r, gs)) != Fields(r)
  {
    var fs := Fields(r);
    gs := BarAmbiguous(fs[..6]);
    var r' := Rewritten(r, gs);
    assert Fields(r') == gs + [r.prevHash];
    assert Fields(r')[..6] == gs && Fields(r')[6] == fs[6];
    JoinLast(fs);
    JoinLast(Fields(r'));
  }

  /** A bar in one of the first six fields of a verified table: a twin with other fields and the same hash inputs. */
  lemma {:induction false} BarHasTwin(H: Digest, t: seq<Row>, k: nat) returns (u: seq<Row>)
    requires ChainOk(H, t, true) && k < |t| && !BarFree(Fields(t[k])[..6])
    ensures ChainOk(H, u, true) && |u| == |t| && LastHash(u) == LastHash(t) && !SameFields(t, u)
    ensures forall i :: 0 <= i < |t| ==> u[i].entryHash == t[i].entryHash && Join(Fields(u[i])) == Join(Fields(t[i]))
  {
    var gs := RewrittenInput(t[k]);
    u := t[k := Rewritten(t[k], gs)];
    forall i | 0 <= i < |u| ensures LinkOk(H, u, i, true) {
      assert LinkOk(H, t, i, true);
    }
  }

  ghost predicate PlainFields(t: seq<Row>) {
    forall i :: 0 <= i < |t| ==> BarFree(Fields(t[i])[..6])
  }

  /** With a bar-free digest the link to the previous entry has no bar either. */
  lemma {:induction false} PlainRows(H: Digest, t: seq<Row>, i: nat)
    requires ChainOk(H, t, true) && PlainFields(t) && i < |t| && forall x :: NoBar(H(x))
    ensures BarFree(Fields(t[i]))
  {
    var fs := Fields(t[i]);
    assert LinkOk(H, t, i, true);
    assert i > 0 ==> LinkOk(H, t, i - 1, true);
    assert NoBar(fs[6]);
    forall j | 0 <= j < |fs| ensures NoBar(fs[j]) {
      if j < 6 {
        assert fs[..6][j] == fs[j];
      }
    }
  }

  /** Every verified table that ends in the same hash has the same fields, or collides with this one. */
  ghost predicate Evident(H: Digest, t: seq<Row>) {
    forall u :: ChainOk(H, u, true) && AllHashed(u) && LastHash(u) == LastHash(t) ==>
      SameFields(t, u) || Collide(H, t, u)
  }

  /**
    Tamper evidence of a verified table, both ways: with a bar-free digest, every change shows or
    is a collision, exactly when the first six fields of all entries are bar-free.
   */
  lemma {:induction false} TamperEvidentExactly(H: Digest, t: seq<Row>)
    requires ChainOk(H, t, true) && AllHashed(t) && forall x :: NoBar(H(x))
    ensures Evident(H, t) <==> PlainFields(t)
  {
    if PlainFields(t) {
      PlainIsEvident(H, t);
    } else {
      BarIsNotEvident(H, t);
    }
  }

  lemma {:induction false} PlainIsEvident(H: Digest, t: seq<Row>)
    requires ChainOk(H, t, true) && AllHashed(t) && PlainFields(t) && forall x :: NoBar(H(x))
    ensures Evident(H, t)
  {
    forall r | r in t ensures BarFree(Fields(r)) {
      var i :| 0 <= i < |t| && t[i] == r;
      PlainRows(H, t, i);
    }
    forall u | ChainOk(H, u, true) && AllHashed(u) && LastHash(u) == LastHash(t)
      ensures SameFields(t, u) || Collide(H, t, u)
    {
      TamperEvident(H, t, u);
    }
  }

  lemma {:induction false} BarIsNotEvident(H: Digest, t: seq<Row>)
    requires ChainOk(H, t, true) && AllHashed(t) && !PlainFields(t)
    ensures !Evident(H, t)
  {
    var k :| 0 <= k < |t| && !BarFree(Fields(t[k])[..6]);
    var u := BarHasTwin(H, t, k);
    SameInputs(H, t, u);
    assert !(SameFields(t, u) || Collide(H, t, u));
  }

  /** Rows with the same hash inputs and hashes are hashed alike, and do not collide. */
  lemma {:induction false} SameInputs(H: Digest, t: seq<Row>, u: seq<Row>)
    requires AllHashed(t) && |u| == |t|
    requires forall i :: 0 <= i < |t| ==> u[i].entryHash == t[i].entryHash && Join(Fields(u[i])) == Join(Fields(t[i]))
    ensures AllHashed(u) && !Collide(H, t, u)
  {
    forall r | r in u ensures r.entryHash != "" {
      var i :| 0 <= i < |u| && u[i] == r;
      assert t[i] in t;
    }
    forall k: nat ensures !CollideAt(H, t, u, k) {
    }
  }

  /** Two recordings on an empty log that differ in where the bar is: one hash, both logs verify. */
  lemma {:induction false} BarMovesUnnoticed(H: Digest, e: FeedEvent, id: string, at: string)
    ensures var t := Recorded(H, [], e.(connectionAddress := "a|b", messageHash := Some("m")), id, at);
            var u := Recorded(H, [], e.(connectionAddress := "a", messageHash := Some("b|m")), id, at);
            && |t| == |u| == 1 && ChainOk(H, t, true) && ChainOk(H, u, true)
            && LastHash(t) == LastHash(u) && Fields(t[0]) != Fields(u[0])
  {
    var e1, e2 := e.(connectionAddress := "a|b", messageHash := Some("m")),
        e.(connectionAddress := "a", messageHash := Some("b|m"));
    var r1, r2 := NewRow(H, [], e1, id, at), NewRow(H, [], e2, id, at);
    var fs, gs := Fields(r1), Fields(r2);
    NewRowHash(H, [], e1, id, at);
    NewRowHash(H, [], e2, id, at);
    assert fs[4] == "a|b" && gs[4] == "a";
    assert Join(fs[4..]) == Join(gs[4..]) by {
      JoinTwo(fs[4..]);
      JoinTwo(gs[4..]);
      assert fs[4..][2..] == gs[4..][2..];
    }
    SameTails(fs, gs, 4);
  }

  lemma {:induction false} SameTails(fs: seq<string>, gs: seq<string>, k: nat)
    requires |fs| == |gs| && k < |fs| && fs[..k] == gs[..k] && Join(fs[k..]) == Join(gs[k..])
    ensures Join(fs) == Join(gs)
  {
    if k > 0 {
      assert fs[k - 1..][1..] == fs[k..] && gs[k - 1..][1..] == gs[k..];
      assert fs[k - 1] == fs[..k][k - 1] == gs[..k][k - 1] == gs[k - 1];
      assert fs[..k - 1] == fs[..k][..k - 1] && gs[..k - 1] == gs[..k][..k - 1];
      SameTails(fs, gs, k - 1);
    } else {
      assert fs[0..] == fs && gs[0..] == gs;
    }
  }

  /** Conversely the verdict looks at nothing else: details, badge, message id and event type are free. */
  lemma {:induction false} VerdictIgnoresUnhashed(H: Digest, t: seq<Row>, u: seq<Row>, fromGenesis: bool)
    requires SameFields(t, u)
    ensures ChainOk(H, t, fromGenesis) <==> ChainOk(H, u, fromGenesis)
  {
    forall i | 0 <= i < |t| ensures LinkOk(H, t, i, fromGenesis) <==> LinkOk(H, u, i, fromGenesis) {
      assert t[i].prevHash == Fields(t[i])[6] && u[i].prevHash == Fields(u[i])[6];
    }
  }

  lemma {:induction false} LastHashEmpty(t: seq<Row>)
    requires AllHashed(t)
    ensures LastHash(t) == "" <==> t == []
  {
  }

  lemma {:induction false} SameFieldsSnoc(t: seq<Row>, u: seq<Row>)
    requires t != [] && u != [] && SameFields(t[..|t| - 1], u[..|u| - 1])
    requires Fields(t[|t| - 1]) == Fields(u[|u| - 1]) && t[|t| - 1].entryHash == u[|u| - 1].entryHash
    ensures SameFields(t, u)
  {
    forall i | 0 <= i < |t| ensures Fields(t[i]) == Fields(u[i]) && t[i].entryHash == u[i].entryHash {
      if i < |t| - 1 {
        assert t[..|t| - 1][i] == t[i] && u[..|u| - 1][i] == u[i];
      }
    }
  }

  lemma {:induction false} PrefixChain(H: Digest, t: seq<Row>)
    requires t != [] && ChainOk(H, t, true)
    ensures ChainOk(H, t[..|t| - 1], true)
    ensures t[|t| - 1].prevHash == LastHash(t[..|t| - 1])
  {
    assert LinkOk(H, t, |t| - 1, true);
    var p := t[..|t| - 1];
    forall i | 0 <= i < |p| ensures LinkOk(H, p, i, true) {
      assert LinkOk(H, t, i, true);
    }
  }

  // ---------- export ----------

  predicate InRange(r: Row, since: Option<string>, until: Option<string>) {
    && (since.None? || since.value == "" || !StrLess(r.createdAt, since.value))
    && (until.None? || until.value == "" || !StrLess(until.value, r.createdAt))
  }

  function Export(t: seq<Row>, since: Option<string>, until: Option<string>): seq<Row> {
    if t == [] then []
    else if InRange(t[0], since, until) then [t[0]] + Export(t[1..], since, until)
    else Export(t[1..], since, until)
  }

  ghost predicate InTimeOrder(t: seq<Row>) {
    forall i, j :: 0 <= i < j < |t| ==> !StrLess(t[j].createdAt, t[i].createdAt)
  }

  lemma {:induction false} StrTransitive(a: string, b: string, c: string)
    requires !StrLess(b, a) && !StrLess(c, b)
    ensures !StrLess(c, a)
  {
    if a != [] && b != [] && c != [] && a[0] == b[0] == c[0] {
      StrTransitive(a[1..], b[1..], c[1..]);
    }
  }

  lemma {:induction false} StrMixed(a: string, b: string, c: string)
    requires StrLess(a, b) && !StrLess(c, b)
    ensures StrLess(a, c)
  {
    if a != [] && c != [] && a[0] == b[0] == c[0] {
      StrMixed(a[1..], b[1..], c[1..]);
    }
  }

  lemma {:induction false} StrTotal(a: string, b: string)
    ensures a == b || StrLess(a, b) || StrLess(b, a)
    ensures !(StrLess(a, b) && StrLess(b, a))
    ensures a == b ==> !StrLess(a, b)
  {
    if a != [] && b != [] {
      StrTotal(a[1..], b[1..]);
      assert a == [a[0]] + a[1..] && b == [b[0]] + b[1..];
    }
  }

  /** The order of rows: by time, and at the same time by id. */
  ghost predicate NotAfter(x: Row, y: Row) {
    StrLess(x.createdAt, y.createdAt) || (x.createdAt == y.createdAt && !StrLess(y.id, x.id))
  }

  ghost predicate InTableOrder(t: seq<Row>) {
    forall i, j :: 0 <= i < j < |t| ==> NotAfter(t[i], t[j])
  }

  lemma {:induction false} TableOrderIsTimeOrder(t: seq<Row>)
    requires InTableOrder(t)
    ensures InTimeOrder(t)
  {
    forall i, j | 0 <= i < j < |t| ensures !StrLess(t[j].createdAt, t[i].createdAt) {
      assert NotAfter(t[i], t[j]);
      StrTotal(t[i].createdAt, t[j].createdAt);
    }
  }

  lemma {:induction false} NotAfterTransitive(x: Row, y: Row, z: Row)
    requires NotAfter(x, y) && NotAfter(y, z)
    ensures NotAfter(x, z)
  {
    StrTotal(x.createdAt, y.createdAt);
    StrTotal(y.createdAt, z.createdAt);
    if StrLess(x.createdAt, y.createdAt) {
      StrMixed(x.createdAt, y.createdAt, z.createdAt);
    } else if x.createdAt == z.createdAt {
      StrTransitive(x.id, y.id, z.id);
    }
  }

  lemma {:induction false} KeyLessOrNot(x: Row, y: Row)
    ensures NotAfter(x, y) || NotAfter(y, x)
    ensures if KeyLess(x.createdAt, x.id, y.createdAt, y.id) then NotAfter(x, y) else NotAfter(y, x)
  {
    StrTotal(x.createdAt, y.createdAt);
    StrTotal(x.id, y.id);
  }

  lemma {:induction false} InOrderSnoc(t: seq<Row>, last: Row)
    requires InTableOrder(t) && forall x :: x in t ==> NotAfter(x, last)
    ensures InTableOrder(t + [last])
  {
  }

  /** The table stays in order whatever row is added. */
  lemma {:induction false} InsertedInOrder(t: seq<Row>, r: Row)
    requires InTableOrder(t)
    ensures InTableOrder(Inserted(t, r)) && InTimeOrder(Inserted(t, r))
    ensures forall x :: x in Inserted(t, r) ==> x in t || x == r
  {
    if t != [] {
      var init, last := t[..|t| - 1], t[|t| - 1];
      assert t == init + [last];
      KeyLessOrNot(last, r);
      if KeyLess(last.createdAt, last.id, r.createdAt, r.id) {
        forall x | x in t ensures NotAfter(x, r) {
          if x in init {
            NotAfterTransitive(x, last, r);
          }
        }
        InOrderSnoc(t, r);
      } else {
        InsertedInOrder(init, r);
        InOrderSnoc(Inserted(init, r), last);
      }
    }
    TableOrderIsTimeOrder(Inserted(t, r));
  }

  /** What is exported: the rows from `since` up to and including `until`, each bound being optional. */
  lemma {:induction false} ExportMembers(t: seq<Row>, since: Option<string>, until: Option<string>, r: Row)
    ensures r in Export(t, since, until) <==>
            && r in t
            && (since == None || since == Some("") || r.createdAt == since.value || StrLess(since.value, r.createdAt))
            && (until == None || until == Some("") || r.createdAt == until.value || StrLess(r.createdAt, until.value))
  {
    if t != [] {
      ExportMembers(t[1..], since, until, r);
      assert t == [t[0]] + t[1..];
      if since.Some? {
        StrTotal(t[0].createdAt, since.value);
      }
      if until.Some? {
        StrTotal(t[0].createdAt, until.value);
      }
    }
  }

  /** Once past the upper bound nothing more is exported. */
  lemma {:induction false} ExportEnds(t: seq<Row>, since: Option<string>, until: Option<string>)
    requires InTimeOrder(t) && t != [] && until.Some? && until.value != "" && StrLess(until.value, t[0].createdAt)
    ensures Export(t, since, until) == []
  {
    if |t| > 1 {
      StrMixed(until.value, t[0].createdAt, t[1].createdAt);
      ExportEnds(t[1..], since, until);
    }
  }

  /** Once inside, everything up to the upper bound is exported without gaps. */
  lemma {:induction false} ExportRuns(t: seq<Row>, since: Option<string>, until: Option<string>) returns (n: nat)
    requires InTimeOrder(t)
    requires forall r :: r in t ==> since.None? || since.value == "" || !StrLess(r.createdAt, since.value)
    ensures n <= |t| && Export(t, since, until) == t[..n]
  {
    if t == [] {
      n := 0;
    } else if InRange(t[0], since, until) {
      var m := ExportRuns(t[1..], since, until);
      n := m + 1;
      assert t[..n] == [t[0]] + t[1..][..m];
    } else {
      assert t[0] in t;
      ExportEnds(t, since, until);
      n := 0;
    }
  }

  /** An export is a contiguous part of the table. */
  lemma {:induction false} ExportIsSlice(t: seq<Row>, since: Option<string>, until: Option<string>)
    returns (lo: nat, hi: nat)
    requires InTimeOrder(t)
    ensures lo <= hi <= |t| && Export(t, since, until) == t[lo..hi]
  {
    if t == [] {
      lo, hi := 0, 0;
    } else if since.Some? && since.value != "" && StrLess(t[0].createdAt, since.value) {
      var l, h := ExportIsSlice(t[1..], since, until);
      lo, hi := l + 1, h + 1;
      assert t[lo..hi] == t[1..][l..h];
    } else {
      forall r | r in t ensures since.None? || since.value == "" || !StrLess(r.createdAt, since.value) {
        var i :| 0 <= i < |t| && t[i] == r;
        if i > 0 && since.Some? && since.value != "" {
          StrTransitive(since.value, t[0].createdAt, r.createdAt);
        }
      }
      var n := ExportRuns(t, since, until);
      lo, hi := 0, n;
      assert t[0..n] == t[..n];
    }
  }

  /** Every time-range export of a log that verifies passes the chain walk by itself. */
  lemma {:induction false} ExportVerifies(H: Digest, t: seq<Row>, since: Option<string>, until: Option<string>)
    requires InTimeOrder(t) && ChainOk(H, Hashed(t), true)
    ensures ChainOk(H, Hashed(Export(t, since, until)), false)
  {
    var lo, hi := ExportIsSlice(t, since, until);
    assert t == t[..lo] + t[lo..hi] + t[hi..];
    HashedConcat(t[..lo] + t[lo..hi], t[hi..]);
    HashedConcat(t[..lo], t[lo..hi]);
    var a, b := |Hashed(t[..lo])|, |Hashed(t[..lo])| + |Hashed(t[lo..hi])|;
    assert Hashed(t)[a..b] == Hashed(t[lo..hi]);
    SliceChain(H, Hashed(t), true, a, b);
  }
}
