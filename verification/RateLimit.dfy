/** The fixed-window limiter (ratelimit.py:46-85): a dictionary swept as it goes, which behaves as
    one small automaton per slot and gives a true bound on the rate. */
module RateLimit {
  import opened Options

  datatype Slot = Slot(bucket: string, key: string)

  datatype Window = Window(startedAt: real, count: int)

  datatype State = State(windows: map<Slot, Window>, lastSweep: real)

  predicate Running(w: Window, now: real, window: real) {
    now - w.startedAt < window
  }

  function Swept(s: State, now: real, window: real): State {
    if now - s.lastSweep < window then s
    else State(map slot | slot in s.windows && Running(s.windows[slot], now, window) :: s.windows[slot], now)
  }

  function Counted(s: State, slot: Slot, limit: int, now: real, window: real): (State, bool) {
    if slot !in s.windows || !Running(s.windows[slot], now, window)
    then (s.(windows := s.windows[slot := Window(now, 1)]), true)
    else
      var w := s.windows[slot].(count := s.windows[slot].count + 1);
      (s.(windows := s.windows[slot := w]), w.count <= limit)
  }

  function HitSpec(s: State, slot: Slot, limit: int, now: real, window: real): (State, bool) {
    Counted(Swept(s, now, window), slot, limit, now, window)
  }

  class Limiter {
    var windows: map<Slot, Window>
    var lastSweep: real

    constructor ()
      ensures Current() == State(map[], 0.0)
    {
      windows, lastSweep := map[], 0.0;
    }

    function Current(): State
      reads this
    {
      State(windows, lastSweep)
    }

    /** Count one request; false when it is over the ceiling. */
    method Hit(slot: Slot, limit: int, now: real, window: real) returns (ok: bool)
      modifies this
      ensures (Current(), ok) == HitSpec(old(Current()), slot, limit, now, window)
    {
      Sweep(now, window);
      if slot !in windows || now - windows[slot].startedAt >= window {
        windows := windows[slot := Window(now, 1)];
        return true;
      }
      var w := windows[slot];
      windows := windows[slot := w.(count := w.count + 1)];
      return windows[slot].count <= limit;
    }

    /** Drop finished windows. */
    method Sweep(now: real, window: real)
      modifies this
      ensures Current() == Swept(old(Current()), now, window)
    {
      if now - lastSweep < window {
        return;
      }
      lastSweep := now;
      windows := map slot | slot in windows && now - windows[slot].startedAt < window :: windows[slot];
    }

    method Reset()
      modifies this
      ensures Current() == State(map[], 0.0)
    {
      windows, lastSweep := map[], 0.0;
    }
  }

  // --- One slot on its own ----------------------------------------------------

  /** The reference: what a slot with a window of its own, and no sweep, answers. */
  function Alone(w: Option<Window>, limit: int, now: real, window: real): (Option<Window>, bool) {
    if w.None? || !Running(w.value, now, window) then (Some(Window(now, 1)), true)
    else
      var x := w.value.(count := w.value.count + 1);
      (Some(x), x.count <= limit)
  }

  datatype Hit = Hit(slot: Slot, limit: int, now: real)

  /** Times do not go back. */
  ghost predicate Chronological(s: State, hits: seq<Hit>) {
    && (forall i, j | 0 <= i < j < |hits| :: hits[i].now <= hits[j].now)
    && (forall i | 0 <= i < |hits| :: s.lastSweep <= hits[i].now)
  }

  /** The limiter after some hits. */
  function After(s: State, hits: seq<Hit>, window: real): State {
    if hits == [] then s
    else
      var h := hits[|hits| - 1];
      HitSpec(After(s, hits[..|hits| - 1], window), h.slot, h.limit, h.now, window).0
  }

  /** What the limiter answers to hit `i`. */
  function Answer(s: State, hits: seq<Hit>, i: nat, window: real): bool
    requires i < |hits|
  {
    HitSpec(After(s, hits[..i], window), hits[i].slot, hits[i].limit, hits[i].now, window).1
  }

  /** The window of one slot after the hits on that slot, alone and unswept. */
  function AloneAfter(hits: seq<Hit>, slot: Slot, window: real): Option<Window> {
    if hits == [] then None
    else
      var h, w := hits[|hits| - 1], AloneAfter(hits[..|hits| - 1], slot, window);
      if h.slot == slot then Alone(w, h.limit, h.now, window).0 else w
  }

  function AloneAnswer(hits: seq<Hit>, i: nat, window: real): bool
    requires i < |hits|
  {
    Alone(AloneAfter(hits[..i], hits[i].slot, window), hits[i].limit, hits[i].now, window).1
  }

  /** The dictionary holds the slot's window, unless that window is over by `now`. */
  ghost predicate Tracks(s: State, slot: Slot, w: Option<Window>, now: real, window: real) {
    if slot in s.windows then w == Some(s.windows[slot])
    else w.None? || !Running(w.value, now, window)
  }

  lemma TracksStep(s: State, h: Hit, slot: Slot, w: Option<Window>, window: real)
    requires Tracks(s, slot, w, h.now, window)
    ensures var (t, ok) := HitSpec(s, h.slot, h.limit, h.now, window);
      if h.slot == slot
      then
        && Tracks(t, slot, Alone(w, h.limit, h.now, window).0, h.now, window)
        && ok == Alone(w, h.limit, h.now, window).1
      else Tracks(t, slot, w, h.now, window)
  {
  }

  lemma {:induction false} TracksAfter(s: State, hits: seq<Hit>, slot: Slot, now: real, window: real)
    requires s.windows == map[] && Chronological(s, hits)
    requires forall i | 0 <= i < |hits| :: hits[i].now <= now
    ensures Tracks(After(s, hits, window), slot, AloneAfter(hits, slot, window), now, window)
    decreases |hits|
  {
    if hits != [] {
      var n := |hits| - 1;
      TracksAfter(s, hits[..n], slot, hits[n].now, window);
      TracksStep(After(s, hits[..n], window), hits[n], slot, AloneAfter(hits[..n], slot, window), window);
    }
  }

  /** Sweeping is invisible: for every sequence of hits over any slots, each hit is answered as
      the slot alone would answer it. */
  lemma {:induction false} SweepIsInvisible(s: State, hits: seq<Hit>, i: nat, window: real)
    requires s.windows == map[] && Chronological(s, hits) && i < |hits|
    ensures Answer(s, hits, i, window) == AloneAnswer(hits, i, window)
  {
    TracksAfter(s, hits[..i], hits[i].slot, hits[i].now, window);
    TracksStep(After(s, hits[..i], window), hits[i], hits[i].slot, AloneAfter(hits[..i], hits[i].slot, window), window);
  }

  /** The dictionary does not hoard: after every hit all stored windows are younger than two
      window lengths. */
  ghost predicate Young(s: State, now: real, window: real) {
    && s.lastSweep <= now
    && now - s.lastSweep < window
    && (forall slot | slot in s.windows :: s.lastSweep - s.windows[slot].startedAt < window)
  }

  lemma {:induction false} WindowsStayYoung(s: State, hits: seq<Hit>, window: real)
    requires s.windows == map[] && Chronological(s, hits) && window > 0.0 && hits != []
    ensures var t := After(s, hits, window); var now := hits[|hits| - 1].now;
      Young(t, now, window) && (forall slot | slot in t.windows :: now - t.windows[slot].startedAt < 2.0 * window)
    decreases |hits|
  {
    var n := |hits| - 1;
    if n > 0 {
      WindowsStayYoung(s, hits[..n], window);
    }
  }

  // --- The rate bound ---------------------------------------------------------

  /** How many of the hits i..j on `slot` the limiter admits. */
  function Admitted(s: State, hits: seq<Hit>, slot: Slot, i: nat, j: nat, window: real): nat
    requires i <= j <= |hits|
  {
    if i == j then 0
    else
      Admitted(s, hits, slot, i, j - 1, window)
      + (if hits[j - 1].slot == slot && Answer(s, hits, j - 1, window) then 1 else 0)
  }

  function Capped(w: Option<Window>, limit: int): int {
    if w.None? then 0 else if w.value.count < limit then w.value.count else limit
  }

  /** `m` windows opened since `from`, a window length apart, and what they can have admitted. */
  ghost predicate Opened(w: Option<Window>, from: real, now: real, m: nat, admitted: nat, limit: int, window: real) {
    && (w.Some? ==> w.value.count >= 1)
    && admitted <= limit * m + Capped(w, limit)
    && (m > 0 ==> w.Some? && from + Times(m - 1, window) <= w.value.startedAt <= now)
  }

  function Times(k: nat, window: real): real {
    if k == 0 then 0.0 else Times(k - 1, window) + window
  }

  lemma {:induction false} CountsArePositive(hits: seq<Hit>, slot: Slot, window: real)
    ensures var w := AloneAfter(hits, slot, window); w.Some? ==> w.value.count >= 1
  {
    if hits != [] {
      CountsArePositive(hits[..|hits| - 1], slot, window);
    }
  }

  lemma OpenedStep(w: Option<Window>, from: real, before: real, h: Hit, m: nat, admitted: nat, limit: int, window: real)
    returns (m': nat)
    requires Opened(w, from, before, m, admitted, limit, window)
    requires from <= h.now && before <= h.now && 1 <= limit && h.limit <= limit && window > 0.0
    ensures var (x, ok) := Alone(w, h.limit, h.now, window);
      Opened(x, from, h.now, m', admitted + (if ok then 1 else 0), limit, window)
  {
    m' := if w.None? || !Running(w.value, h.now, window) then m + 1 else m;
    if m' > m {
      OneMore(limit, m);
    }
  }

  lemma OneMore(limit: int, m: nat)
    ensures limit * (m + 1) == limit * m + limit
  {
  }

  lemma {:induction false} OpenedRun(s: State, hits: seq<Hit>, slot: Slot, i: nat, j: nat, from: real, limit: int,
                                     window: real)
    returns (m: nat)
    requires s.windows == map[] && Chronological(s, hits) && i <= j <= |hits| && window > 0.0 && 1 <= limit
    requires forall k | i <= k < j :: from <= hits[k].now && (hits[k].slot == slot ==> hits[k].limit <= limit)
    ensures Opened(AloneAfter(hits[..j], slot, window), from, if i == j then from else hits[j - 1].now,
                   m, Admitted(s, hits, slot, i, j, window), limit, window)
    decreases j - i
  {
    if i == j {
      m := 0;
      CountsArePositive(hits[..i], slot, window);
    } else {
      var h, before := hits[j - 1], if i == j - 1 then from else hits[j - 2].now;
      m := OpenedRun(s, hits, slot, i, j - 1, from, limit, window);
      assert hits[..j][..j - 1] == hits[..j - 1];
      if h.slot == slot {
        SweepIsInvisible(s, hits, j - 1, window);
        m := OpenedStep(AloneAfter(hits[..j - 1], slot, window), from, before, h, m,
                        Admitted(s, hits, slot, i, j - 1, window), limit, window);
      }
    }
  }

  lemma {:induction false} TimesIsProduct(k: nat, window: real)
    ensures Times(k, window) == k as real * window
  {
    if k > 0 {
      TimesIsProduct(k - 1, window);
      assert (k - 1) as real * window + window == ((k - 1) as real + 1.0) * window;
    }
  }

  lemma FewerTimes(a: nat, b: nat, window: real)
    requires window > 0.0 && Times(a, window) < Times(b, window)
    ensures a < b
  {
    if a >= b {
      TimesGrows(b, a, window);
    }
  }

  lemma {:induction false} TimesGrows(a: nat, b: nat, window: real)
    requires a <= b && window > 0.0
    ensures Times(a, window) <= Times(b, window)
    decreases b
  {
    if a < b {
      TimesGrows(a, b - 1, window);
    }
  }

  /** Any stretch shorter than k + 1 windows admits at most k + 2 times the limit. */
  lemma {:induction false} StretchBound(s: State, hits: seq<Hit>, slot: Slot, i: nat, j: nat, from: real, k: nat,
                                        limit: int, window: real)
    requires s.windows == map[] && Chronological(s, hits) && i <= j <= |hits| && window > 0.0 && 1 <= limit
    requires forall x | i <= x < j ::
      from <= hits[x].now < from + Times(k + 1, window) && (hits[x].slot == slot ==> hits[x].limit <= limit)
    ensures Admitted(s, hits, slot, i, j, window) <= limit * (k + 2)
  {
    if i == j {
      Ordered(limit, 0, k + 2);
    } else {
      var m := OpenedRun(s, hits, slot, i, j, from, limit, window);
      if m > 0 {
        FewerTimes(m - 1, k + 1, window);
      }
      OneMore(limit, m);
      Ordered(limit, m + 1, k + 2);
    }
  }

  lemma Ordered(limit: int, a: nat, b: nat)
    requires limit >= 1 && a <= b
    ensures limit * a <= limit * b
  {
    assert limit * b == limit * a + limit * (b - a);
  }

  /** Any half-open interval of one window length admits at most twice the limit. */
  lemma {:induction false} WindowBound(s: State, hits: seq<Hit>, slot: Slot, i: nat, j: nat, from: real, limit: int,
                                       window: real)
    requires s.windows == map[] && Chronological(s, hits) && i <= j <= |hits| && window > 0.0 && 1 <= limit
    requires forall x | i <= x < j ::
      from <= hits[x].now < from + window && (hits[x].slot == slot ==> hits[x].limit <= limit)
    ensures Admitted(s, hits, slot, i, j, window) <= 2 * limit
  {
    assert Times(1, window) == Times(0, window) + window;
    StretchBound(s, hits, slot, i, j, from, 0, limit, window);
  }

  /** Any span of T seconds admits at most limit * (floor(T / W) + 2) requests of a slot, sweeps
      included. */
  lemma {:induction false} SlidingRateBound(s: State, hits: seq<Hit>, slot: Slot, i: nat, j: nat, from: real,
                                            span: real, limit: int, window: real)
    requires s.windows == map[] && Chronological(s, hits) && i <= j <= |hits|
    requires window > 0.0 && 1 <= limit && span >= 0.0
    requires forall x | i <= x < j ::
      from <= hits[x].now <= from + span && (hits[x].slot == slot ==> hits[x].limit <= limit)
    ensures Admitted(s, hits, slot, i, j, window) <= limit * ((span / window).Floor + 2)
  {
    var k := WholeWindows(span, window);
    StretchBound(s, hits, slot, i, j, from, k, limit, window);
  }

  lemma WholeWindows(span: real, window: real) returns (k: nat)
    requires window > 0.0 && span >= 0.0
    ensures k == (span / window).Floor && span < Times(k + 1, window)
  {
    var r := span / window;
    assert r * window == span;
    assert r >= 0.0;
    k := r.Floor;
    TimesIsProduct(k + 1, window);
    assert r < (k + 1) as real;
    assert r * window < (k + 1) as real * window;
  }

  // --- Nobody is turned away early ---------------------------------------------

  /** The hit that opened the slot's window, since which the slot has had its window's worth. */
  lemma {:induction false} WindowOpener(s: State, hits: seq<Hit>, slot: Slot, j: nat, limit: int, window: real)
    returns (i: nat)
    requires s.windows == map[] && Chronological(s, hits) && j <= |hits| && window > 0.0 && 1 <= limit
    requires forall k | 0 <= k < |hits| && hits[k].slot == slot :: hits[k].limit == limit
    requires AloneAfter(hits[..j], slot, window).Some?
    ensures i < j && hits[i].slot == slot
    ensures var w := AloneAfter(hits[..j], slot, window);
      hits[i].now == w.value.startedAt && Admitted(s, hits, slot, i, j, window) == Capped(w, limit)
    decreases j
  {
    var h, before := hits[j - 1], AloneAfter(hits[..j - 1], slot, window);
    assert hits[..j][..j - 1] == hits[..j - 1];
    if h.slot != slot {
      i := WindowOpener(s, hits, slot, j - 1, limit, window);
    } else {
      SweepIsInvisible(s, hits, j - 1, window);
      CountsArePositive(hits[..j - 1], slot, window);
      if before.None? || !Running(before.value, h.now, window) {
        i := j - 1;
        assert Admitted(s, hits, slot, i, j - 1, window) == 0;
      } else {
        i := WindowOpener(s, hits, slot, j - 1, limit, window);
      }
    }
  }

  /** A hit is refused only where the slot had its limit's worth of admitted hits less than a window
      length before. */
  lemma {:induction false} RefusedOnlyWhenFull(s: State, hits: seq<Hit>, j: nat, limit: int, window: real)
    returns (i: nat)
    requires s.windows == map[] && Chronological(s, hits) && j < |hits| && window > 0.0 && 1 <= limit
    requires forall k | 0 <= k < |hits| && hits[k].slot == hits[j].slot :: hits[k].limit == limit
    requires !Answer(s, hits, j, window)
    ensures i < j && hits[j].now - hits[i].now < window
    ensures Admitted(s, hits, hits[j].slot, i, j, window) == limit
  {
    SweepIsInvisible(s, hits, j, window);
    i := WindowOpener(s, hits, hits[j].slot, j, limit, window);
  }
}
