/**
 * The player history: the sessions played, a per-type encounter counter and two running totals.
 * The browser's localStorage entry becomes the `history` field of a `HistoryStore`; the mutators
 * are its methods and the queries are functions of the stored history.
 */
module HistoryManager {
  import opened Wrappers
  import Seqs

  /** An ISO-8601 time stamp, as `new Date().toISOString()` produces; never empty. */
  type Timestamp = s: string | |s| > 0 witness "1970-01-01T00:00:00.000Z"

  datatype Difficulty = Easy | Hard

  datatype SessionRecord = SessionRecord(
    sessionId: string,
    startedAt: Timestamp,
    difficulty: Difficulty,
    vulnerabilities: seq<string>,
    fixedCount: nat,
    totalCount: nat,
    completedAt: Option<Timestamp>)

  /** One property of `encounteredTypes`: a vulnerability type and how often it was dealt. */
  datatype Entry = Entry(typeName: string, count: nat)

  /**
   * The stored history. `encounteredTypes` is a plain object; it is kept as its entries in
   * property-creation order, which is the order `Object.keys` and `Object.entries` list them in.
   */
  datatype PlayerHistory = PlayerHistory(
    sessions: seq<SessionRecord>,
    encounteredTypes: seq<Entry>,
    totalSessions: nat,
    totalFixes: nat)

  /** `createEmptyHistory`. */
  function EmptyHistory(): (h: PlayerHistory)
    ensures h.sessions == [] && h.encounteredTypes == [] && h.totalSessions == 0 && h.totalFixes == 0
  {
    PlayerHistory([], [], 0, 0)
  }

  // ---------------------------------------------------------------------------------------
  // The encounter counter
  // ---------------------------------------------------------------------------------------

  /** `Object.keys(table)`. */
  function Keys(table: seq<Entry>): (r: seq<string>)
    ensures |r| == |table|
    ensures forall k :: 0 <= k < |r| ==> r[k] == table[k].typeName
  {
    if table == [] then [] else [table[0].typeName] + Keys(table[1..])
  }

  /** `table[t] || 0`. */
  function Count(table: seq<Entry>, t: string): nat {
    if table == [] then 0
    else if table[0].typeName == t then table[0].count
    else Count(table[1..], t)
  }

  /** `table[t] = (table[t] || 0) + 1`: an existing property keeps its place, a new one goes last. */
  function Bump(table: seq<Entry>, t: string): seq<Entry> {
    if table == [] then [Entry(t, 1)]
    else if table[0].typeName == t then [Entry(t, table[0].count + 1)] + table[1..]
    else [table[0]] + Bump(table[1..], t)
  }

  /** `vulnerabilities.forEach(type => table[type] = (table[type] || 0) + 1)`. */
  function AddEncounters(table: seq<Entry>, types: seq<string>): seq<Entry> {
    if types == [] then table
    else Bump(AddEncounters(table, types[..|types| - 1]), types[|types| - 1])
  }

  /** Every stored count is positive: a property is only ever created with the value 1. */
  predicate PositiveCounts(table: seq<Entry>) {
    forall k :: 0 <= k < |table| ==> table[k].count > 0
  }

  /** Bumping `t` adds one to its count and leaves every other count alone. */
  lemma {:induction false} BumpCount(table: seq<Entry>, t: string, x: string)
    ensures Count(Bump(table, t), x) == Count(table, x) + (if x == t then 1 else 0)
  {
    if table != [] && table[0].typeName != t {
      BumpCount(table[1..], t, x);
    }
  }

  /** Bumping keeps the key order and appends a key that was absent. */
  lemma {:induction false} BumpKeys(table: seq<Entry>, t: string)
    ensures Keys(Bump(table, t)) == if t in Keys(table) then Keys(table) else Keys(table) + [t]
  {
    if table != [] {
      if table[0].typeName == t {
        assert Keys(Bump(table, t)) == [t] + Keys(table[1..]);
      } else {
        BumpKeys(table[1..], t);
        assert Keys(table) == [table[0].typeName] + Keys(table[1..]);
        assert t in Keys(table) <==> t in Keys(table[1..]);
        assert Keys(Bump(table, t)) == [table[0].typeName] + Keys(Bump(table[1..], t));
      }
    }
  }

  /** Bumping keeps every count positive. */
  lemma {:induction false} BumpPositive(table: seq<Entry>, t: string)
    requires PositiveCounts(table)
    ensures PositiveCounts(Bump(table, t))
  {
    if table != [] && table[0].typeName != t {
      BumpPositive(table[1..], t);
      assert Bump(table, t) == [table[0]] + Bump(table[1..], t);
    }
  }

  /** After the `forEach`, every type's count went up by its number of occurrences in the list. */
  lemma {:induction false} AddEncountersCount(table: seq<Entry>, types: seq<string>, x: string)
    ensures Count(AddEncounters(table, types), x) == Count(table, x) + multiset(types)[x]
  {
    if types != [] {
      var init, t := types[..|types| - 1], types[|types| - 1];
      assert types == init + [t];
      AddEncountersCount(table, init, x);
      BumpCount(AddEncounters(table, init), t, x);
    }
  }

  /**
   * After the `forEach`, the keys are the old keys followed by the new types in order of their
   * first occurrence: exactly what a JavaScript object's key order gives.
   */
  lemma {:induction false} AddEncountersKeys(table: seq<Entry>, types: seq<string>)
    requires Seqs.NoDup(Keys(table))
    ensures Keys(AddEncounters(table, types)) == Seqs.Dedup(Keys(table) + types)
  {
    if types == [] {
      assert Keys(table) + types == Keys(table);
      Seqs.DedupOfNoDup(Keys(table));
    } else {
      var init, t := types[..|types| - 1], types[|types| - 1];
      assert Keys(table) + types == (Keys(table) + init) + [t];
      Seqs.DedupSnoc(Keys(table) + init, t);
      AddEncountersKeys(table, init);
      BumpKeys(AddEncounters(table, init), t);
    }
  }

  /** After the `forEach`, every count is still positive. */
  lemma {:induction false} AddEncountersPositive(table: seq<Entry>, types: seq<string>)
    requires PositiveCounts(table)
    ensures PositiveCounts(AddEncounters(table, types))
  {
    if types != [] {
      AddEncountersPositive(table, types[..|types| - 1]);
      BumpPositive(AddEncounters(table, types[..|types| - 1]), types[|types| - 1]);
    }
  }

  /** With positive counts, a type is a key exactly when its count is non-zero. */
  lemma {:induction false} KeysAreCounted(table: seq<Entry>, x: string)
    requires PositiveCounts(table)
    ensures x in Keys(table) <==> Count(table, x) > 0
  {
    if table != [] {
      KeysAreCounted(table[1..], x);
      assert Keys(table) == [table[0].typeName] + Keys(table[1..]);
    }
  }

  // ---------------------------------------------------------------------------------------
  // The bookkeeping invariant
  // ---------------------------------------------------------------------------------------

  /** The sum of the sessions' fix counts. */
  function SumFixed(sessions: seq<SessionRecord>): nat {
    if sessions == [] then 0 else SumFixed(sessions[..|sessions| - 1]) + sessions[|sessions| - 1].fixedCount
  }

  /** Appending a session adds its fix count to the sum. */
  lemma SumFixedAppend(sessions: seq<SessionRecord>, s: SessionRecord)
    ensures SumFixed(sessions + [s]) == SumFixed(sessions) + s.fixedCount
  {
    assert (sessions + [s])[..|sessions|] == sessions;
  }

  /** Replacing one session changes the sum by the difference of their fix counts. */
  lemma {:induction false} SumFixedUpdate(sessions: seq<SessionRecord>, k: nat, s: SessionRecord)
    requires k < |sessions|
    ensures SumFixed(sessions[k := s]) + sessions[k].fixedCount == SumFixed(sessions) + s.fixedCount
  {
    var n := |sessions|;
    var updated := sessions[k := s];
    if k < n - 1 {
      assert updated[..n - 1] == sessions[..n - 1][k := s];
      SumFixedUpdate(sessions[..n - 1], k, s);
    } else {
      assert updated[..n - 1] == sessions[..n - 1];
    }
  }

  /**
   * What the mutators keep true from an empty history on: one session per `totalSessions`, the
   * fix counts summing to `totalFixes`, no key twice and only positive counts.
   */
  predicate Consistent(h: PlayerHistory) {
    && h.totalSessions == |h.sessions|
    && h.totalFixes == SumFixed(h.sessions)
    && Seqs.NoDup(Keys(h.encounteredTypes))
    && PositiveCounts(h.encounteredTypes)
  }

  lemma EmptyHistoryConsistent()
    ensures Consistent(EmptyHistory())
  {
    assert Keys([]) == [];
  }

  // ---------------------------------------------------------------------------------------
  // Looking a session up
  // ---------------------------------------------------------------------------------------

  function IdIs(sessionId: string): SessionRecord -> bool {
    (s: SessionRecord) => s.sessionId == sessionId
  }

  /** `sessions.find(s => s.sessionId === sessionId)`, as the index of the match. */
  function FindSession(sessions: seq<SessionRecord>, sessionId: string): (r: Option<nat>)
    ensures r.Some? ==> r.value < |sessions| && sessions[r.value].sessionId == sessionId
    ensures r.Some? ==> forall k :: 0 <= k < r.value ==> sessions[k].sessionId != sessionId
    ensures r.None? <==> forall k :: 0 <= k < |sessions| ==> sessions[k].sessionId != sessionId
  {
    Seqs.FindIndex(sessions, IdIs(sessionId))
  }

  // ---------------------------------------------------------------------------------------
  // getStatistics
  // ---------------------------------------------------------------------------------------

  /** No entry has a larger count than one before it. */
  predicate SortedByCount(s: seq<Entry>) {
    forall i, j :: 0 <= i < j < |s| ==> s[i].count >= s[j].count
  }

  function CountIs(c: nat): Entry -> bool {
    (e: Entry) => e.count == c
  }

  /**
   * One step of a stable insertion sort for the comparator `(a, b) => b.count - a.count`: `x`
   * goes after every entry whose count is at least its own.
   */
  function InsertByCount(x: Entry, s: seq<Entry>): seq<Entry> {
    if s == [] then [x]
    else if x.count > s[0].count then [x] + s
    else [s[0]] + InsertByCount(x, s[1..])
  }

  lemma {:induction false} InsertByCountElements(x: Entry, s: seq<Entry>)
    ensures multiset(InsertByCount(x, s)) == multiset(s) + multiset{x}
  {
    if s != [] && x.count <= s[0].count {
      InsertByCountElements(x, s[1..]);
      assert s == [s[0]] + s[1..];
    }
  }

  lemma {:induction false} InsertByCountSorted(x: Entry, s: seq<Entry>)
    requires SortedByCount(s)
    ensures SortedByCount(InsertByCount(x, s))
  {
    if s != [] && x.count <= s[0].count {
      var r := InsertByCount(x, s[1..]);
      InsertByCountSorted(x, s[1..]);
      InsertByCountElements(x, s[1..]);
      forall e | e in r
        ensures e.count <= s[0].count
      {
        assert e in multiset(r);
      }
      SortedCons(s[0], r);
    }
  }

  /** An entry with a count at least every count of a sorted list can go in front of it. */
  lemma SortedCons(a: Entry, r: seq<Entry>)
    requires SortedByCount(r)
    requires forall e :: e in r ==> e.count <= a.count
    ensures SortedByCount([a] + r)
  {
    var t := [a] + r;
    forall i, j | 0 <= i < j < |t|
      ensures t[i].count >= t[j].count
    {
      assert t[j] == r[j - 1];
      if i > 0 {
        assert t[i] == r[i - 1];
      }
    }
  }

  /** No entry of a sorted list with a larger first count has count `c`. */
  lemma {:induction false} NoneOfCount(s: seq<Entry>, c: nat)
    requires forall i :: 0 <= i < |s| ==> s[i].count < c
    ensures Seqs.Filter(s, CountIs(c)) == []
  {
    if s != [] {
      NoneOfCount(s[1..], c);
    }
  }

  /** Inserting `x` puts it after every entry of equal count. */
  lemma {:induction false} InsertByCountStable(x: Entry, s: seq<Entry>, c: nat)
    requires SortedByCount(s)
    ensures Seqs.Filter(InsertByCount(x, s), CountIs(c))
         == Seqs.Filter(s, CountIs(c)) + (if x.count == c then [x] else [])
  {
    if s == [] {
    } else if x.count > s[0].count {
      InsertFrontStable(x, s, c);
    } else {
      InsertByCountStable(x, s[1..], c);
      InsertLaterStable(x, s, c);
    }
  }

  lemma InsertFrontStable(x: Entry, s: seq<Entry>, c: nat)
    requires SortedByCount(s) && s != [] && x.count > s[0].count
    ensures Seqs.Filter([x] + s, CountIs(c)) == Seqs.Filter(s, CountIs(c)) + (if x.count == c then [x] else [])
  {
    Seqs.FilterCons(x, s, CountIs(c));
    if x.count == c {
      NoneOfCount(s, c);
    }
  }

  lemma InsertLaterStable(x: Entry, s: seq<Entry>, c: nat)
    requires s != [] && x.count <= s[0].count
    requires Seqs.Filter(InsertByCount(x, s[1..]), CountIs(c))
          == Seqs.Filter(s[1..], CountIs(c)) + (if x.count == c then [x] else [])
    ensures Seqs.Filter(InsertByCount(x, s), CountIs(c))
         == Seqs.Filter(s, CountIs(c)) + (if x.count == c then [x] else [])
  {
    var r := InsertByCount(x, s[1..]);
    assert InsertByCount(x, s) == [s[0]] + r;
    assert [s[0]] + s[1..] == s;
    Seqs.FilterConsAppend(s[0], r, s[1..], if x.count == c then [x] else [], CountIs(c));
  }

  /**
   * `entries.sort((a, b) => b.count - a.count)`. The sort JavaScript specifies is stable, so the
   * result is the stable insertion sort: ordered by non-increasing count, a permutation of the
   * input, and entries of equal count keep their input order.
   */
  function SortByCount(s: seq<Entry>): (r: seq<Entry>)
    ensures SortedByCount(r)
    ensures multiset(r) == multiset(s)
    ensures forall c: nat :: Seqs.Filter(r, CountIs(c)) == Seqs.Filter(s, CountIs(c))
  {
    if s == [] then []
    else
      var init, x := s[..|s| - 1], s[|s| - 1];
      assert s == init + [x];
      var sorted := SortByCount(init);
      InsertByCountSorted(x, sorted);
      InsertByCountElements(x, sorted);
      SortStableStep(init, x, sorted);
      InsertByCount(x, sorted)
  }

  lemma SortStableStep(init: seq<Entry>, x: Entry, sorted: seq<Entry>)
    requires SortedByCount(sorted)
    requires forall c: nat :: Seqs.Filter(sorted, CountIs(c)) == Seqs.Filter(init, CountIs(c))
    ensures forall c: nat :: Seqs.Filter(InsertByCount(x, sorted), CountIs(c)) == Seqs.Filter(init + [x], CountIs(c))
  {
    forall c: nat
      ensures Seqs.Filter(InsertByCount(x, sorted), CountIs(c)) == Seqs.Filter(init + [x], CountIs(c))
    {
      InsertByCountStable(x, sorted, c);
      Seqs.FilterAppend(init, [x], CountIs(c));
    }
  }

  /** The session has a `completedAt` stamp, which is truthy since a stamp is never empty. */
  predicate IsCompleted(s: SessionRecord) {
    s.completedAt.Some?
  }

  /** `history.sessions.filter(s => s.completedAt).length`. */
  function CompletedCount(sessions: seq<SessionRecord>): (n: nat)
    ensures n <= |sessions|
  {
    |Seqs.Filter(sessions, IsCompleted)|
  }

  /**
   * `completionRate`: the percentage of counted sessions that were completed, and 0 when no
   * session was counted. On a consistent history it lies between 0 and 100.
   */
  function CompletionRate(h: PlayerHistory): (rate: real)
    ensures h.totalSessions == 0 ==> rate == 0.0
    ensures h.totalSessions > 0 ==> rate * (h.totalSessions as real) == 100.0 * (CompletedCount(h.sessions) as real)
    ensures 0.0 <= rate
    ensures Consistent(h) ==> rate <= 100.0
  {
    if h.totalSessions > 0 then
      var completed, total := CompletedCount(h.sessions) as real, h.totalSessions as real;
      RateBounds(completed, total);
      (completed / total) * 100.0
    else 0.0
  }

  lemma RateBounds(completed: real, total: real)
    requires 0.0 <= completed && 0.0 < total
    ensures (completed / total) * 100.0 * total == 100.0 * completed
    ensures 0.0 <= (completed / total) * 100.0
    ensures completed <= total ==> (completed / total) * 100.0 <= 100.0
  {
    assert (completed / total) * total == completed;
  }

  /** What `getStatistics` returns. */
  datatype Statistics = Statistics(
    totalSessions: nat,
    totalFixes: nat,
    uniqueCategories: seq<string>,
    mostEncountered: seq<Entry>,
    completionRate: real)

  /**
   * `getStatistics`: the two totals as stored; the encounter keys in property order; the entries
   * sorted stably by non-increasing count, a permutation of the stored entries; and the
   * completion rate.
   */
  function GetStatistics(h: PlayerHistory): (r: Statistics)
    ensures r.totalSessions == h.totalSessions && r.totalFixes == h.totalFixes
    ensures r.uniqueCategories == Keys(h.encounteredTypes)
    ensures SortedByCount(r.mostEncountered)
    ensures multiset(r.mostEncountered) == multiset(h.encounteredTypes)
    ensures forall c: nat :: Seqs.Filter(r.mostEncountered, CountIs(c)) == Seqs.Filter(h.encounteredTypes, CountIs(c))
    ensures r.completionRate == CompletionRate(h)
  {
    Statistics(h.totalSessions, h.totalFixes, Keys(h.encounteredTypes), SortByCount(h.encounteredTypes), CompletionRate(h))
  }

  /** On a consistent history the categories are distinct and are exactly the types with a non-zero count. */
  lemma UniqueCategoriesAreCounted(h: PlayerHistory, x: string)
    requires Consistent(h)
    ensures Seqs.NoDup(GetStatistics(h).uniqueCategories)
    ensures x in GetStatistics(h).uniqueCategories <==> Count(h.encounteredTypes, x) > 0
  {
    KeysAreCounted(h.encounteredTypes, x);
  }

  // ---------------------------------------------------------------------------------------
  // getRecentlyEncountered and getTypesToAvoid
  // ---------------------------------------------------------------------------------------

  /** The default `limit` of `getRecentlyEncountered`. */
  const DefaultRecentLimit: int := 5

  /** Where `s.slice(start)` starts on a list of length `n`: counted from the end when negative. */
  function SliceStart(n: nat, start: int): (k: nat)
    ensures k <= n
    ensures start >= 0 ==> k == if start <= n then start else n
    ensures start < 0 ==> k == if n + start >= 0 then n + start else 0
  {
    if start < 0 then (if n + start < 0 then 0 else n + start)
    else if start > n then n
    else start
  }

  /** `history.sessions.slice(-limit)`. */
  function RecentSessions(sessions: seq<SessionRecord>, limit: int): seq<SessionRecord> {
    sessions[SliceStart(|sessions|, -limit)..]
  }

  /**
   * The window `slice(-limit)` selects: the last `limit` sessions (all of them when there are
   * fewer) for a positive `limit`; the whole list for a `limit` of 0, since `-0` is 0; and all
   * but the first `-limit` sessions for a negative one.
   */
  lemma RecentSessionsWindow(sessions: seq<SessionRecord>, limit: int)
    ensures limit > 0 ==>
      RecentSessions(sessions, limit) == if limit <= |sessions| then sessions[|sessions| - limit..] else sessions
    ensures limit == 0 ==> RecentSessions(sessions, limit) == sessions
    ensures limit < 0 ==> RecentSessions(sessions, limit) == if -limit <= |sessions| then sessions[-limit..] else []
  {
  }

  /** `sessions.flatMap(s => s.vulnerabilities)`. */
  function Flatten(sessions: seq<SessionRecord>): (r: seq<string>)
    ensures forall x :: x in r <==> exists s :: s in sessions && x in s.vulnerabilities
  {
    if sessions == [] then []
    else
      var rest := Flatten(sessions[1..]);
      assert forall s :: s in sessions <==> s == sessions[0] || s in sessions[1..];
      sessions[0].vulnerabilities + rest
  }

  /**
   * `getRecentlyEncountered(limit)`: each type of the sessions `slice(-limit)` selects, once,
   * and no other.
   */
  function RecentlyEncountered(h: PlayerHistory, limit: int): (r: seq<string>)
    ensures Seqs.NoDup(r)
    ensures forall x :: x in r <==> exists s :: s in RecentSessions(h.sessions, limit) && x in s.vulnerabilities
  {
    Seqs.Dedup(Flatten(RecentSessions(h.sessions, limit)))
  }

  /** The types come out in the order they were first dealt within the window. */
  lemma RecentlyEncounteredOrder(h: PlayerHistory, limit: int, i: nat, j: nat)
    requires i < j < |RecentlyEncountered(h, limit)|
    ensures var all, r := Flatten(RecentSessions(h.sessions, limit)), RecentlyEncountered(h, limit);
      r[i] in all && r[j] in all && Seqs.FirstIndex(all, r[i]) < Seqs.FirstIndex(all, r[j])
  {
    Seqs.DedupFirstOccurrenceOrder(Flatten(RecentSessions(h.sessions, limit)), i, j);
  }

  /** `getTypesToAvoid`: each type of the last two sessions (or of all, when fewer), once. */
  function TypesToAvoid(h: PlayerHistory): (r: seq<string>)
    ensures Seqs.NoDup(r)
    ensures forall x :: x in r <==>
      exists k :: 0 <= k < |h.sessions| && k >= |h.sessions| - 2 && x in h.sessions[k].vulnerabilities
  {
    var n := |h.sessions|;
    var window := RecentSessions(h.sessions, 2);
    assert window == h.sessions[SliceStart(n, -2)..];
    assert forall s :: s in window <==> exists k :: SliceStart(n, -2) <= k < n && h.sessions[k] == s;
    RecentlyEncountered(h, 2)
  }

  // ---------------------------------------------------------------------------------------
  // The store and its mutators
  // ---------------------------------------------------------------------------------------

  /** The history store. `history` plays the part of the localStorage entry. */
  class HistoryStore {
    var history: PlayerHistory

    /** A store over what is already saved. */
    constructor(stored: PlayerHistory)
      ensures history == stored
    {
      history := stored;
    }

    /** `resetHistory`: the saved entry is removed, so the next read sees an empty history. */
    method ResetHistory()
      modifies this
      ensures history == EmptyHistory()
    {
      history := EmptyHistory();
    }

    /**
     * `startSession`: appends a new record with no fixes and `totalCount` the list length, counts
     * the session and every listed type once per occurrence, and returns the new record.
     */
    method StartSession(sessionId: string, difficulty: Difficulty, vulnerabilities: seq<string>, now: Timestamp)
      returns (session: SessionRecord)
      modifies this
      ensures session == SessionRecord(sessionId, now, difficulty, vulnerabilities, 0, |vulnerabilities|, None)
      ensures history.sessions == old(history.sessions) + [session]
      ensures history.totalSessions == old(history.totalSessions) + 1
      ensures history.totalFixes == old(history.totalFixes)
      ensures history.encounteredTypes == AddEncounters(old(history.encounteredTypes), vulnerabilities)
      ensures old(Consistent(history)) ==> Consistent(history)
    {
      session := SessionRecord(sessionId, now, difficulty, vulnerabilities, 0, |vulnerabilities|, None);
      history := history.(sessions := history.sessions + [session], totalSessions := history.totalSessions + 1);
      ghost var before := old(history.encounteredTypes);
      var i := 0;
      while i < |vulnerabilities|
        invariant 0 <= i <= |vulnerabilities|
        invariant history.sessions == old(history.sessions) + [session]
        invariant history.totalSessions == old(history.totalSessions) + 1
        invariant history.totalFixes == old(history.totalFixes)
        invariant history.encounteredTypes == AddEncounters(before, vulnerabilities[..i])
      {
        assert vulnerabilities[..i + 1][..i] == vulnerabilities[..i];
        var t := vulnerabilities[i];
        history := history.(encounteredTypes := Bump(history.encounteredTypes, t));
        i := i + 1;
      }
      assert vulnerabilities[..i] == vulnerabilities;
      if old(Consistent(history)) {
        SumFixedAppend(old(history.sessions), session);
        AddEncountersKeys(before, vulnerabilities);
        AddEncountersPositive(before, vulnerabilities);
      }
    }

    /**
     * `recordFix`: adds one fix to the first session with this id and to `totalFixes`; with an
     * unknown id nothing changes. The fixed type is not used.
     */
    method RecordFix(sessionId: string, vulnerabilityType: string)
      modifies this
      ensures FindSession(old(history.sessions), sessionId).None? ==> history == old(history)
      ensures FindSession(old(history.sessions), sessionId).Some? ==>
        var k := FindSession(old(history.sessions), sessionId).value;
        var s := old(history.sessions)[k];
        history == old(history).(sessions := old(history.sessions)[k := s.(fixedCount := s.fixedCount + 1)],
                                 totalFixes := old(history.totalFixes) + 1)
      ensures old(Consistent(history)) ==> Consistent(history)
    {
      var found := FindSession(history.sessions, sessionId);
      if found.None? {
        return;
      }
      var k := found.value;
      var session := history.sessions[k];
      var fixed := session.(fixedCount := session.fixedCount + 1);
      SumFixedUpdate(history.sessions, k, fixed);
      history := history.(sessions := history.sessions[k := fixed], totalFixes := history.totalFixes + 1);
    }

    /**
     * `completeSession`: stamps the first session with this id as completed at `now`; counters and
     * every other session are unchanged, and an unknown id changes nothing.
     */
    method CompleteSession(sessionId: string, now: Timestamp)
      modifies this
      ensures FindSession(old(history.sessions), sessionId).None? ==> history == old(history)
      ensures FindSession(old(history.sessions), sessionId).Some? ==>
        var k := FindSession(old(history.sessions), sessionId).value;
        history == old(history).(sessions := old(history.sessions)[k := old(history.sessions)[k].(completedAt := Some(now))])
      ensures old(Consistent(history)) ==> Consistent(history)
    {
      var found := FindSession(history.sessions, sessionId);
      if found.None? {
        return;
      }
      var k := found.value;
      var completed := history.sessions[k].(completedAt := Some(now));
      SumFixedUpdate(history.sessions, k, completed);
      history := history.(sessions := history.sessions[k := completed]);
    }
  }
}
