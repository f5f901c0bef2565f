/** Redis streams: entries with strictly increasing ids, appended at the end and trimmed at the front. */
module Streams {
  import opened Prelude
  import opened Messages

  datatype Entry = Entry(id: nat, event: Event)

  /** `live` is what Redis holds; `trimmed` remembers what MAXLEN has dropped. */
  datatype Stream = Stream(trimmed: seq<Entry>, live: seq<Entry>) {
    function Log(): seq<Entry> { trimmed + live }

    ghost predicate Valid() { Increasing(Log()) }
  }

  const EMPTY := Stream([], [])

  ghost predicate Increasing(log: seq<Entry>) {
    && (forall i :: 0 <= i < |log| ==> log[i].id > 0)
    && (forall i, j :: 0 <= i < j < |log| ==> log[i].id < log[j].id)
  }

  function LastId(log: seq<Entry>): nat {
    if log == [] then 0 else Last(log).id
  }

  /** What the entries of a log say. */
  function Events(log: seq<Entry>): seq<Event> {
    seq(|log|, i requires 0 <= i < |log| => log[i].event)
  }

  lemma EventsMore(log: seq<Entry>, e: Entry)
    ensures Events(log + [e]) == Events(log) + [e.event]
  {
  }

  /** The outcome of an XADD. Redis chooses the new id (`gap` beyond the next one) and how much of the excess
      over MAXLEN ~ it trims; a failed call appends nothing. */
  datatype Fate = Fails(reason: string) | Adds(gap: nat, cut: nat)

  function Append(s: Stream, ev: Event, gap: nat, cut: nat, maxlen: nat): Stream {
    var live := s.live + [Entry(LastId(s.Log()) + 1 + gap, ev)];
    var n := Min(cut, Max(0, |live| - maxlen));
    Stream(s.trimmed + live[..n], live[n..])
  }

  function XAdd(s: Stream, ev: Event, f: Fate, maxlen: nat): Stream {
    match f
    case Fails(_) => s
    case Adds(gap, cut) => Append(s, ev, gap, cut, maxlen)
  }

  /** A later view of the same stream. */
  ghost predicate Grows(s: Stream, s': Stream) {
    s.Log() <= s'.Log() && |s.trimmed| <= |s'.trimmed|
  }

  function NewEntry(s: Stream, ev: Event, gap: nat): Entry {
    Entry(LastId(s.Log()) + 1 + gap, ev)
  }

  lemma AppendLog(s: Stream, ev: Event, gap: nat, cut: nat, maxlen: nat)
    ensures Append(s, ev, gap, cut, maxlen).Log() == s.Log() + [NewEntry(s, ev, gap)]
    ensures |s.trimmed| <= |Append(s, ev, gap, cut, maxlen).trimmed|
    ensures |Append(s, ev, gap, cut, maxlen).live| >= Min(maxlen, |s.live| + 1)
  {
    CutLog(s.trimmed, s.live, NewEntry(s, ev, gap), Min(cut, Max(0, |s.live| + 1 - maxlen)));
  }

  /** Trimming stops at MAXLEN, and may go that far. */
  lemma AppendTrims(s: Stream, ev: Event, gap: nat, cut: nat, maxlen: nat)
    ensures var n := |Append(s, ev, gap, cut, maxlen).live|;
            n >= Min(maxlen, |s.live| + 1) && (cut > |s.live| ==> n == Min(maxlen, |s.live| + 1))
  {
  }

  lemma CutLog(trimmed: seq<Entry>, live: seq<Entry>, e: Entry, n: nat)
    requires n <= |live| + 1
    ensures trimmed + (live + [e])[..n] + (live + [e])[n..] == trimmed + live + [e]
  {
    var s := live + [e];
    assert s[..n] + s[n..] == s;
    assert trimmed + s[..n] + s[n..] == trimmed + (s[..n] + s[n..]);
  }

  lemma AppendGrows(s: Stream, ev: Event, gap: nat, cut: nat, maxlen: nat)
    ensures Grows(s, Append(s, ev, gap, cut, maxlen))
    ensures s.Valid() ==> Append(s, ev, gap, cut, maxlen).Valid()
  {
    AppendLog(s, ev, gap, cut, maxlen);
    if s.Valid() {
      Extend(s.Log(), NewEntry(s, ev, gap));
    }
  }

  lemma Extend(log: seq<Entry>, e: Entry)
    requires Increasing(log) && e.id > LastId(log)
    ensures Increasing(log + [e])
  {
    forall i, j | 0 <= i < j < |log + [e]|
      ensures (log + [e])[i].id < (log + [e])[j].id
    {
      if j == |log| && i < |log| - 1 {
        assert log[i].id < log[|log| - 1].id;
      }
    }
  }

  // ---- Reading from a cursor ----

  function Scan(log: seq<Entry>, cursor: nat, i: nat): (n: nat)
    requires i <= |log|
    ensures i <= n <= |log|
    ensures n > i ==> log[n - 1].id <= cursor
    ensures n < |log| ==> log[n].id > cursor
    decreases |log| - i
  {
    if i == |log| || log[i].id > cursor then i else Scan(log, cursor, i + 1)
  }

  /** How many entries at the front of the log a reader at the cursor has passed. */
  function Passed(log: seq<Entry>, cursor: nat): nat {
    Scan(log, cursor, 0)
  }

  /** The entries beyond the cursor. */
  function After(log: seq<Entry>, cursor: nat): seq<Entry> {
    log[Passed(log, cursor)..]
  }

  lemma Ordered(log: seq<Entry>, i: int, j: int)
    requires Increasing(log)
    ensures 0 <= i < j < |log| ==> log[i].id < log[j].id
  {
  }

  lemma PassedIs(log: seq<Entry>, cursor: nat, n: nat)
    requires Increasing(log) && n <= |log|
    requires n > 0 ==> log[n - 1].id <= cursor
    requires n < |log| ==> log[n].id > cursor
    ensures Passed(log, cursor) == n
  {
    var m: int := Passed(log, cursor);
    Ordered(log, m, n - 1);
    Ordered(log, n, m - 1);
  }

  /** On a valid log a read returns every entry beyond the cursor and no other. */
  lemma AfterIsFilter(log: seq<Entry>, cursor: nat, i: nat)
    requires Increasing(log) && i < |log|
    ensures log[i].id > cursor <==> i >= Passed(log, cursor)
  {
    var m: int := Passed(log, cursor);
    Ordered(log, i, m - 1);
    Ordered(log, m, i);
  }

  lemma AfterAppend(a: seq<Entry>, b: seq<Entry>, cursor: nat)
    requires Increasing(a + b)
    ensures After(a + b, cursor) == After(a, cursor) + After(b, cursor)
    ensures After(a, cursor) != [] ==> After(b, cursor) == b
  {
    if Passed(a, cursor) < |a| {
      UnreadAppend(a, b, cursor);
    } else {
      PassedAppend(a, b, cursor);
    }
  }

  lemma UnreadAppend(a: seq<Entry>, b: seq<Entry>, cursor: nat)
    requires Increasing(a + b) && Passed(a, cursor) < |a|
    ensures Passed(a + b, cursor) == Passed(a, cursor) && Passed(b, cursor) == 0
  {
    var s, n := a + b, Passed(a, cursor);
    PassedIs(s, cursor, n);
    Ordered(s, n, |a|);
    assert b != [] ==> s[|a|] == b[0];
  }

  lemma PassedAppend(a: seq<Entry>, b: seq<Entry>, cursor: nat)
    requires Increasing(a + b) && Passed(a, cursor) == |a|
    ensures Passed(a + b, cursor) == |a| + Passed(b, cursor)
  {
    var s, m := a + b, Passed(b, cursor);
    var n := |a| + m;
    assert n < |s| ==> s[n] == b[m];
    if m > 0 {
      assert s[n - 1] == b[m - 1];
    } else if a != [] {
      assert s[n - 1] == a[|a| - 1];
    }
    PassedIs(s, cursor, n);
  }

  lemma IncreasingParts(a: seq<Entry>, b: seq<Entry>)
    requires Increasing(a + b)
    ensures Increasing(a) && Increasing(b)
  {
    var s := a + b;
    assert forall i :: 0 <= i < |a| ==> a[i] == s[i];
    assert forall i :: 0 <= i < |b| ==> b[i] == s[|a| + i];
  }

  function CursorAfter(cursor: nat, batch: seq<Entry>): nat {
    if batch == [] then cursor else Last(batch).id
  }

  /** Moving the cursor to the end of what was read leaves exactly the rest unread. */
  lemma AfterAdvance(log: seq<Entry>, cursor: nat, out: seq<Entry>)
    requires Increasing(log) && out <= After(log, cursor)
    ensures After(log, cursor) == out + After(log, CursorAfter(cursor, out))
  {
    if out != [] {
      var n := Passed(log, cursor) + |out|;
      var c := CursorAfter(cursor, out);
      assert log[n - 1] == Last(out);
      Ordered(log, n - 1, n);
      PassedIs(log, c, n);
    }
  }

  lemma SuffixIncreasing(log: seq<Entry>, n: nat)
    requires Increasing(log) && n <= |log|
    ensures Increasing(log[..n]) && Increasing(log[n..])
  {
    assert log == log[..n] + log[n..];
    IncreasingParts(log[..n], log[n..]);
  }
}
