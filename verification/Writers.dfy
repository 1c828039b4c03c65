/**
 Guarded and unguarded writers of one case row, with the read and the write of
 each writer apart. The workers write under a status and version guard; the
 webhook assigns status and version from what it read. The protocol treats a
 webhook as one atomic step; here is what that assumption is worth.
 */
module Writers {
  import opened Domain

  datatype Row = Row(status: CaseStatus, version: nat)

  /** Every value the row has had, and at which of them each writer last read it. */
  datatype Race = Race(history: seq<Row>, readAt: map<nat, nat>)

  datatype Move =
    | Read(w: nat)
    | GuardedWrite(w: nat, next: CaseStatus)
    | UnguardedWrite(w: nat, next: CaseStatus)

  predicate WellFormed(r: Race) {
    |r.history| > 0 && forall w | w in r.readAt :: r.readAt[w] < |r.history|
  }

  function Current(r: Race): Row
    requires WellFormed(r)
  {
    r.history[|r.history| - 1]
  }

  function Seen(r: Race, w: nat): Row
    requires WellFormed(r) && w in r.readAt
  {
    r.history[r.readAt[w]]
  }

  /** Nothing was written since the writer read. */
  predicate Untouched(r: Race, w: nat)
    requires WellFormed(r) && w in r.readAt
  {
    r.readAt[w] == |r.history| - 1
  }

  predicate CanMove(r: Race, m: Move)
    requires WellFormed(r)
  {
    match m
    case Read(_) => true
    case GuardedWrite(w, next) => w in r.readAt && ValidTransition(Seen(r, w).status, next)
    case UnguardedWrite(w, next) => w in r.readAt && ValidTransition(Seen(r, w).status, next)
  }

  function Moved(r: Race, m: Move): (r': Race)
    requires WellFormed(r) && CanMove(r, m)
    ensures WellFormed(r') && r.history <= r'.history
  {
    match m
    case Read(w) => r.(readAt := r.readAt[w := |r.history| - 1])
    case GuardedWrite(w, next) =>
      if Current(r) == Seen(r, w) then r.(history := r.history + [Row(next, Seen(r, w).version + 1)]) else r
    case UnguardedWrite(w, next) =>
      if Seen(r, w).status != next then r.(history := r.history + [Row(next, Seen(r, w).version + 1)]) else r
  }

  /** Versions strictly increase, and a terminal status is never left. */
  ghost predicate Sound(h: seq<Row>) {
    && (forall i, j | 0 <= i < j < |h| :: h[i].version < h[j].version)
    && (forall i, j | 0 <= i < j < |h| :: IsTerminal(h[i].status) ==> h[j].status == h[i].status)
  }

  lemma AppendIsSound(h: seq<Row>, row: Row)
    requires |h| > 0 && Sound(h) && h[|h| - 1].version < row.version
    requires ValidTransition(h[|h| - 1].status, row.status)
    ensures Sound(h + [row])
  {
  }

  /** A guarded write succeeds exactly when nothing was written since its read, and keeps the history sound. */
  lemma GuardedWriteIsSound(r: Race, w: nat, next: CaseStatus)
    requires WellFormed(r) && Sound(r.history) && CanMove(r, GuardedWrite(w, next))
    ensures var r' := Moved(r, GuardedWrite(w, next));
            && Sound(r'.history)
            && (r' != r <==> Untouched(r, w))
  {
    var i, last := r.readAt[w], |r.history| - 1;
    if i < last {
      assert r.history[i].version < r.history[last].version;
    } else {
      AppendIsSound(r.history, Row(next, Seen(r, w).version + 1));
    }
  }

  predicate Effective(r: Race, m: Move)
    requires WellFormed(r) && CanMove(r, m)
  {
    m.UnguardedWrite? && Seen(r, m.w).status != m.next
  }

  /** An unguarded write keeps the history sound exactly when nothing was written since its read. */
  lemma UnguardedWriteIsSoundIff(r: Race, m: Move)
    requires WellFormed(r) && Sound(r.history) && CanMove(r, m) && Effective(r, m)
    ensures Sound(Moved(r, m).history) <==> Untouched(r, m.w)
  {
    var i, last := r.readAt[m.w], |r.history| - 1;
    var h := Moved(r, m).history;
    if i < last {
      assert r.history[i].version < r.history[last].version;
      assert h[last].version >= h[last + 1].version;
    } else {
      AppendIsSound(r.history, h[last + 1]);
    }
  }

  predicate ValidMoves(r: Race, ms: seq<Move>)
    requires WellFormed(r)
    decreases |ms|
  {
    |ms| > 0 ==> CanMove(r, ms[0]) && ValidMoves(Moved(r, ms[0]), ms[1..])
  }

  function Played(r: Race, ms: seq<Move>): (r': Race)
    requires WellFormed(r) && ValidMoves(r, ms)
    ensures WellFormed(r') && r.history <= r'.history
    decreases |ms|
  {
    if |ms| == 0 then r else Played(Moved(r, ms[0]), ms[1..])
  }

  /** Every unguarded write of the run that changes the row finds it as it was read. */
  predicate Timely(r: Race, ms: seq<Move>)
    requires WellFormed(r) && ValidMoves(r, ms)
    decreases |ms|
  {
    |ms| > 0 ==>
      && (Effective(r, ms[0]) ==> Untouched(r, ms[0].w))
      && Timely(Moved(r, ms[0]), ms[1..])
  }

  lemma UnsoundStaysUnsound(h: seq<Row>, longer: seq<Row>)
    requires h <= longer
    ensures Sound(longer) ==> Sound(h)
  {
  }

  /**
   Any number of writers of both kinds, in any order: the history of the row
   ends sound exactly when no unguarded write came too late. In particular
   guarded writers alone are always sound.
   */
  lemma {:induction false} SoundExactlyWhenTimely(r: Race, ms: seq<Move>)
    requires WellFormed(r) && Sound(r.history) && ValidMoves(r, ms)
    ensures Sound(Played(r, ms).history) <==> Timely(r, ms)
    decreases |ms|
  {
    if |ms| > 0 {
      var m, next := ms[0], Moved(r, ms[0]);
      if Effective(r, m) {
        UnguardedWriteIsSoundIff(r, m);
      } else if m.GuardedWrite? {
        GuardedWriteIsSound(r, m.w, m.next);
      }
      if Sound(next.history) {
        SoundExactlyWhenTimely(next, ms[1..]);
      } else {
        UnsoundStaysUnsound(next.history, Played(next, ms[1..]).history);
      }
    }
  }

  /**
   The condition is needed: a webhook reads a scheduled case, an executor stops
   it, and the webhook's write then leaves the terminal state and gives out the
   version of the stop a second time.
   */
  lemma LateWebhookUndoesStop(v: nat, webhook: nat, executor: nat)
    requires webhook != executor
    ensures var start := Race([Row(ActionScheduled, v)], map[]);
            var ms := [Read(webhook), Read(executor), GuardedWrite(executor, Stopped), UnguardedWrite(webhook, Recovered)];
            && ValidMoves(start, ms)
            && !Timely(start, ms)
            && Played(start, ms).history == [Row(ActionScheduled, v), Row(Stopped, v + 1), Row(Recovered, v + 1)]
  {
    var start := Race([Row(ActionScheduled, v)], map[]);
    var ms := [Read(webhook), Read(executor), GuardedWrite(executor, Stopped), UnguardedWrite(webhook, Recovered)];
    var r1 := Moved(start, ms[0]);
    var r2 := Moved(r1, ms[1]);
    var r3 := Moved(r2, ms[2]);
    assert Seen(r3, webhook) == Row(ActionScheduled, v) && !Untouched(r3, webhook);
    var r4 := Moved(r3, ms[3]);
    assert ms[1..][1..] == ms[2..] && ms[2..][1..] == ms[3..] && ms[3..][1..] == [];
    assert ValidMoves(r3, ms[3..]) && !Timely(r3, ms[3..]) && Played(r3, ms[3..]) == r4;
    assert ValidMoves(r2, ms[2..]) && !Timely(r2, ms[2..]) && Played(r2, ms[2..]) == r4;
    assert ValidMoves(r1, ms[1..]) && !Timely(r1, ms[1..]) && Played(r1, ms[1..]) == r4;
  }
}
