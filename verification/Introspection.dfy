/** Batch introspection (services.py:470-497): which of these session ids are live. */
module Introspection {
  import opened Tables

  predicate IsSessionLive(sessions: SessionTable, sid: SessionId) {
    sid in sessions && !sessions[sid].revoked
  }

  /** The input without repeats, each id where it first came. */
  function FirstOccurrences(ids: seq<SessionId>): seq<SessionId> {
    if ids == [] then []
    else
      var n := |ids| - 1;
      if ids[n] in ids[..n] then FirstOccurrences(ids[..n]) else FirstOccurrences(ids[..n]) + [ids[n]]
  }

  /** The per-id loop: ask about each in turn. */
  function LiveOf(sessions: SessionTable, ids: seq<SessionId>): seq<SessionId> {
    if ids == [] then []
    else
      var n := |ids| - 1;
      LiveOf(sessions, ids[..n]) + (if IsSessionLive(sessions, ids[n]) then [ids[n]] else [])
  }

  function LiveSessionIds(sessions: SessionTable, ids: seq<SessionId>): seq<SessionId> {
    LiveOf(sessions, FirstOccurrences(ids))
  }

  function FirstIndex(ids: seq<SessionId>, sid: SessionId): nat
    requires sid in ids
  {
    if ids[0] == sid then 0 else 1 + FirstIndex(ids[1..], sid)
  }

  /** Every id of `r` is in `ids`, and they come in the order of their first occurrence. */
  ghost predicate InOrder(ids: seq<SessionId>, r: seq<SessionId>) {
    && (forall i | 0 <= i < |r| :: r[i] in ids)
    && (forall i, j | 0 <= i < j < |r| :: FirstIndex(ids, r[i]) < FirstIndex(ids, r[j]))
  }

  lemma {:induction false} FirstIndexOfAppend(ids: seq<SessionId>, x: SessionId, sid: SessionId)
    ensures sid in ids ==> FirstIndex(ids + [x], sid) == FirstIndex(ids, sid) < |ids|
    ensures sid !in ids && x == sid ==> FirstIndex(ids + [x], sid) == |ids|
  {
    if ids == [] {
    } else {
      assert (ids + [x])[1..] == ids[1..] + [x];
      FirstIndexOfAppend(ids[1..], x, sid);
    }
  }

  lemma {:induction false} FirstOccurrencesInOrder(ids: seq<SessionId>)
    ensures InOrder(ids, FirstOccurrences(ids))
    ensures forall sid :: sid in FirstOccurrences(ids) <==> sid in ids
  {
    if ids != [] {
      var n := |ids| - 1;
      var r := FirstOccurrences(ids[..n]);
      FirstOccurrencesInOrder(ids[..n]);
      assert ids == ids[..n] + [ids[n]];
      forall sid ensures sid in ids[..n] ==> FirstIndex(ids, sid) == FirstIndex(ids[..n], sid) < n
                 ensures sid !in ids[..n] && ids[n] == sid ==> FirstIndex(ids, sid) == n
      {
        FirstIndexOfAppend(ids[..n], ids[n], sid);
      }
    }
  }

  lemma {:induction false} LiveOfMembers(sessions: SessionTable, r: seq<SessionId>)
    ensures forall sid :: sid in LiveOf(sessions, r) <==> sid in r && IsSessionLive(sessions, sid)
  {
    if r != [] {
      LiveOfMembers(sessions, r[..|r| - 1]);
      assert r == r[..|r| - 1] + [r[|r| - 1]];
    }
  }

  lemma AppendInOrder(ids: seq<SessionId>, r: seq<SessionId>, sid: SessionId)
    requires InOrder(ids, r) && sid in ids
    requires forall x | x in r :: x in ids && FirstIndex(ids, x) < FirstIndex(ids, sid)
    ensures InOrder(ids, r + [sid])
  {
    assert forall i | 0 <= i < |r| :: r[i] in r;
  }

  lemma {:induction false} LiveOfInOrder(sessions: SessionTable, ids: seq<SessionId>, r: seq<SessionId>)
    requires InOrder(ids, r)
    ensures InOrder(ids, LiveOf(sessions, r))
  {
    if r != [] {
      var n := |r| - 1;
      LiveOfInOrder(sessions, ids, r[..n]);
      LiveOfMembers(sessions, r[..n]);
      if IsSessionLive(sessions, r[n]) {
        AppendInOrder(ids, LiveOf(sessions, r[..n]), r[n]);
      }
    }
  }

  /** The answer has exactly the live ids of the input, once each, in the caller's order. */
  lemma AnswersInOrder(sessions: SessionTable, ids: seq<SessionId>)
    ensures InOrder(ids, LiveSessionIds(sessions, ids))
    ensures forall sid :: sid in LiveSessionIds(sessions, ids) <==> sid in ids && IsSessionLive(sessions, sid)
    ensures forall sid :: sid in LiveSessionIds(sessions, ids) <==>
      sid in ids && sid in sessions && !sessions[sid].revoked
  {
    FirstOccurrencesInOrder(ids);
    LiveOfInOrder(sessions, ids, FirstOccurrences(ids));
    LiveOfMembers(sessions, FirstOccurrences(ids));
  }

  lemma Inhabited(a: seq<SessionId>)
    ensures a != [] ==> exists sid :: sid in a
  {
    if a != [] {
      assert a[0] in a;
    }
  }

  /** ...and that leaves only one possible answer. */
  lemma {:induction false} OnlyOneAnswer(ids: seq<SessionId>, a: seq<SessionId>, b: seq<SessionId>)
    requires InOrder(ids, a) && InOrder(ids, b)
    requires forall sid :: sid in a <==> sid in b
    ensures a == b
    decreases |a|
  {
    Inhabited(a);
    Inhabited(b);
    if a != [] && b != [] {
      assert a[0] in b && b[0] in a;
      assert a[0] == b[0];
      forall sid ensures sid in a[1..] <==> sid in b[1..] {
        assert sid in a <==> sid == a[0] || sid in a[1..];
        assert sid in b <==> sid == b[0] || sid in b[1..];
        assert a[0] !in a[1..] && b[0] !in b[1..];
      }
      OnlyOneAnswer(ids, a[1..], b[1..]);
    }
  }
}
