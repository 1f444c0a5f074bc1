/**
 Classification totals: every classified batch appends a row whose totals are those of the stream's
 latest row plus one, and readers look at latest rows only. They equal a recount of all rows exactly
 as long as the clock does not step back in the wrong place.
 */
module Classification {
  import opened Options

  datatype Level = Public | Internal | Confidential | Restricted

  datatype Totals = Totals(public: nat, internal: nat, confidential: nat, restricted: nat)

  const ZERO := Totals(0, 0, 0, 0)

  function OneMore(t: Totals, level: Level): Totals {
    match level
    case Public => t.(public := t.public + 1)
    case Internal => t.(internal := t.internal + 1)
    case Confidential => t.(confidential := t.confidential + 1)
    case Restricted => t.(restricted := t.restricted + 1)
  }

  function Plus(a: Totals, b: Totals): Totals {
    Totals(a.public + b.public, a.internal + b.internal, a.confidential + b.confidential, a.restricted + b.restricted)
  }

  function Sum(t: Totals): nat {
    t.public + t.internal + t.confidential + t.restricted
  }

  /** A delivery log row; its id is its position. `complete` says that it is a classification_complete
      row, `totals` that its sample carries running totals. */
  datatype Row = Row(stream: int, complete: bool, level: Level, totals: Option<Totals>, at: int)

  // ---- Counting -----------------------------------------------------------------------------------------

  /** How many classification rows of these streams there are, by level. */
  function Recount(log: seq<Row>, streams: set<int>): Totals {
    if log == [] then ZERO
    else
      var rest, last := Recount(log[..|log| - 1], streams), log[|log| - 1];
      if last.complete && last.stream in streams then OneMore(rest, last.level) else rest
  }

  function Rows(log: seq<Row>, stream: int): nat {
    if log == [] then 0
    else Rows(log[..|log| - 1], stream) + if log[|log| - 1].complete && log[|log| - 1].stream == stream then 1 else 0
  }

  function Streams(log: seq<Row>): set<int> {
    set r | r in log && r.complete :: r.stream
  }

  lemma {:induction false} LevelsAddUp(log: seq<Row>, stream: int)
    ensures Sum(Recount(log, {stream})) == Rows(log, stream)
  {
    if log != [] {
      LevelsAddUp(log[..|log| - 1], stream);
    }
  }

  /** The classification rows of these streams that have this level. */
  function RowsAt(log: seq<Row>, streams: set<int>, level: Level): set<nat> {
    set i: nat | i < |log| && log[i].complete && log[i].stream in streams && log[i].level == level
  }

  lemma RowsAtStep(log: seq<Row>, streams: set<int>, level: Level)
    requires log != []
    ensures var n := |log| - 1;
      var before := RowsAt(log[..n], streams, level);
      && n !in before
      && RowsAt(log, streams, level) ==
           if log[n].complete && log[n].stream in streams && log[n].level == level then before + {n} else before
  {}

  /** Each total is the number of rows of its level. */
  lemma {:induction false} RecountCounts(log: seq<Row>, streams: set<int>)
    ensures Recount(log, streams).public == |RowsAt(log, streams, Public)|
    ensures Recount(log, streams).internal == |RowsAt(log, streams, Internal)|
    ensures Recount(log, streams).confidential == |RowsAt(log, streams, Confidential)|
    ensures Recount(log, streams).restricted == |RowsAt(log, streams, Restricted)|
  {
    hide RowsAt;
    if log == [] {
      NothingToCount(streams);
    } else {
      RecountCounts(log[..|log| - 1], streams);
      RowsAtStep(log, streams, Public);
      RowsAtStep(log, streams, Internal);
      RowsAtStep(log, streams, Confidential);
      RowsAtStep(log, streams, Restricted);
    }
  }

  lemma NothingToCount(streams: set<int>)
    ensures forall level :: RowsAt([], streams, level) == {}
  {}

  lemma {:induction false} RecountSplits(log: seq<Row>, streams: set<int>, stream: int)
    requires stream !in streams
    ensures Recount(log, streams + {stream}) == Plus(Recount(log, streams), Recount(log, {stream}))
  {
    hide OneMore, Plus;
    if log == [] {
      PlusNone(ZERO, ZERO);
    } else {
      var shorter, last := log[..|log| - 1], log[|log| - 1];
      RecountSplits(shorter, streams, stream);
      PlusOneMore(Recount(shorter, streams), Recount(shorter, {stream}), last.level);
    }
  }

  lemma PlusNone(a: Totals, b: Totals)
    requires Sum(b) == 0
    ensures Plus(a, b) == a
  {}

  lemma PlusOneMore(a: Totals, b: Totals, level: Level)
    ensures Plus(OneMore(a, level), b) == OneMore(Plus(a, b), level)
    ensures Plus(a, OneMore(b, level)) == OneMore(Plus(a, b), level)
  {}

  lemma {:induction false} RecountNone(log: seq<Row>)
    ensures Recount(log, {}) == ZERO
  {
    if log != [] {
      RecountNone(log[..|log| - 1]);
    }
  }

  // ---- Latest rows --------------------------------------------------------------------------------------

  predicate Matches(log: seq<Row>, i: int, stream: int) {
    0 <= i < |log| && log[i].complete && log[i].stream == stream
  }

  /** `ORDER BY created_at DESC, id DESC LIMIT 1` */
  ghost predicate LatestByTime(log: seq<Row>, i: int, stream: int) {
    && Matches(log, i, stream)
    && forall k :: Matches(log, k, stream) ==> log[k].at < log[i].at || (log[k].at == log[i].at && k <= i)
  }

  /** `max(id) ... GROUP BY stream_id` */
  ghost predicate LatestById(log: seq<Row>, i: int, stream: int) {
    Matches(log, i, stream) && forall k :: Matches(log, k, stream) ==> k <= i
  }

  /** The clock did not run backwards between the rows of a stream. */
  predicate InOrder(log: seq<Row>) {
    forall i, k :: 0 <= i < k < |log| && log[i].complete && log[k].complete && log[i].stream == log[k].stream ==>
        log[i].at <= log[k].at
  }

  /** Then the two readings of "latest" agree. */
  lemma SameLatest(log: seq<Row>, i: int, stream: int)
    requires InOrder(log)
    ensures LatestByTime(log, i, stream) <==> LatestById(log, i, stream)
  {
    if LatestByTime(log, i, stream) {
      forall k | Matches(log, k, stream) ensures k <= i {}
    }
    if LatestById(log, i, stream) {
      forall k | Matches(log, k, stream) ensures log[k].at < log[i].at || (log[k].at == log[i].at && k <= i) {
        if k < i {
          assert log[k].at <= log[i].at;
        }
      }
    }
  }

  /** The position of the latest row by time, as a scan finds it. */
  function Latest(log: seq<Row>, stream: int): (found: Option<nat>)
    ensures found.Some? ==> found.value < |log|
  {
    if log == [] then None
    else
      var n := |log| - 1;
      var before := Latest(log[..n], stream);
      if log[n].complete && log[n].stream == stream && (before.None? || log[before.value].at <= log[n].at)
          then Some(n) else before
  }

  lemma {:induction false} LatestIs(log: seq<Row>, stream: int)
    ensures match Latest(log, stream)
            case Some(i) => LatestByTime(log, i, stream)
            case None => forall i :: !Matches(log, i, stream)
  {
    if log != [] {
      var n := |log| - 1;
      LatestIs(log[..n], stream);
      forall i
        ensures Matches(log, i, stream) <==>
            Matches(log[..n], i, stream) || (i == n && log[n].complete && log[n].stream == stream)
      {}
    }
  }

  /** What the next batch of the stream counts on from. */
  function Loaded(log: seq<Row>, stream: int): Totals {
    match Latest(log, stream)
    case None => ZERO
    case Some(i) => if log[i].totals.Some? then log[i].totals.value else ZERO
  }

  /** The classification rows are those that this code writes, whatever the clock did. */
  predicate Written(log: seq<Row>) {
    forall i :: 0 <= i < |log| && log[i].complete ==>
      log[i].totals == Some(OneMore(Loaded(log[..i], log[i].stream), log[i].level))
  }

  // ---- When the totals are exact --------------------------------------------------------------------

  /** Every row carries the recount of its stream up to itself. */
  predicate Stamped(log: seq<Row>) {
    forall i :: 0 <= i < |log| ==> StampAt(log, i)
  }

  predicate StampAt(log: seq<Row>, i: int)
    requires 0 <= i < |log|
  {
    log[i].complete ==> log[i].totals == Some(Recount(log[..i + 1], {log[i].stream}))
  }

  /** The stream has no rows, or its last one is not dated before an earlier one. */
  ghost predicate LastInTime(log: seq<Row>, stream: int) {
    forall i, k :: LatestById(log, i, stream) && Matches(log, k, stream) ==> log[k].at <= log[i].at
  }

  lemma RecountStep(log: seq<Row>, row: Row, streams: set<int>)
    ensures Recount(log + [row], streams) ==
      if row.complete && row.stream in streams then OneMore(Recount(log, streams), row.level) else Recount(log, streams)
  {
    assert (log + [row])[..|log|] == log;
  }

  lemma {:induction false} NoRowsNoCount(log: seq<Row>, stream: int)
    requires forall i :: !Matches(log, i, stream)
    ensures Recount(log, {stream}) == ZERO
  {
    if log != [] {
      var n := |log| - 1;
      forall i ensures !Matches(log[..n], i, stream) {
        assert !Matches(log, i, stream);
      }
      NoRowsNoCount(log[..n], stream);
      assert !Matches(log, n, stream);
    }
  }

  /** Rows after the first `a` only add to the count, each of the stream's rows one. */
  lemma {:induction false} RecountGrows(log: seq<Row>, a: nat, stream: int)
    requires a <= |log|
    ensures AtMost(Recount(log[..a], {stream}), Recount(log, {stream}))
    ensures (exists i :: a <= i && Matches(log, i, stream)) <==> Recount(log[..a], {stream}) != Recount(log, {stream})
    decreases |log|
  {
    if a == |log| {
      assert log[..a] == log;
      assert forall i :: a <= i ==> !Matches(log, i, stream);
    } else {
      var n := |log| - 1;
      assert log[..n][..a] == log[..a];
      RecountGrows(log[..n], a, stream);
      forall i
        ensures Matches(log, i, stream) <==>
            Matches(log[..n], i, stream) || (i == n && log[n].complete && log[n].stream == stream)
      {}
      if Matches(log, n, stream) {
        assert a <= n && Matches(log, n, stream);
        SmallerBefore(Recount(log[..a], {stream}), Recount(log[..n], {stream}), log[n].level);
      }
    }
  }

  predicate AtMost(a: Totals, b: Totals) {
    a.public <= b.public && a.internal <= b.internal && a.confidential <= b.confidential && a.restricted <= b.restricted
  }

  lemma SmallerBefore(a: Totals, b: Totals, level: Level)
    requires AtMost(a, b)
    ensures AtMost(a, OneMore(b, level)) && a != OneMore(b, level)
  {}

  lemma {:induction false} LastRow(log: seq<Row>, stream: int, k: int) returns (last: nat)
    requires Matches(log, k, stream)
    ensures LatestById(log, last, stream)
  {
    var n := |log| - 1;
    if Matches(log, n, stream) {
      last := n;
    } else {
      last := LastRow(log[..n], stream, k);
      forall i | Matches(log, i, stream) ensures i <= last {
        assert Matches(log[..n], i, stream);
      }
    }
  }

  /** In a log with exact totals, the next batch counts on from the exact totals if and only if the
      stream's last row is not dated before an earlier one. */
  lemma LoadedExactly(log: seq<Row>, stream: int)
    requires Stamped(log)
    ensures Loaded(log, stream) == Recount(log, {stream}) <==> LastInTime(log, stream)
  {
    hide Recount, Latest;
    LatestIs(log, stream);
    match Latest(log, stream) {
      case None =>
        NoRowsNoCount(log, stream);
      case Some(i) =>
        var last := LastRow(log, stream, i);
        RecountGrows(log, i + 1, stream);
        assert StampAt(log, i) && Loaded(log, stream) == Recount(log[..i + 1], {stream});
        if last == i {
          assert Recount(log[..i + 1], {stream}) == Recount(log, {stream});
        } else {
          assert i + 1 <= last && Matches(log, last, stream);
          assert log[last].at < log[i].at;
        }
    }
  }

  /** Three rows of a stream, one after the other. */
  predicate Follow(log: seq<Row>, j: int, k: int, i: int) {
    && 0 <= j < k < i < |log| && log[j].complete && log[k].complete && log[i].complete
    && log[j].stream == log[k].stream && log[k].stream == log[i].stream
  }

  /** No row that is dated before an earlier one of its stream is followed by another one of it. */
  ghost predicate OnTime(log: seq<Row>) {
    forall j, k, i :: Follow(log, j, k, i) ==> log[j].at <= log[k].at
  }

  lemma OnTimeStep(log: seq<Row>, row: Row)
    ensures OnTime(log + [row]) <==> OnTime(log) && (row.complete ==> LastInTime(log, row.stream))
  {
    var longer, n := log + [row], |log|;
    assert longer[n] == row && forall i :: 0 <= i < n ==> longer[i] == log[i];
    if OnTime(longer) {
      forall j, k, i | Follow(log, j, k, i) ensures log[j].at <= log[k].at {
        assert Follow(longer, j, k, i);
      }
      if row.complete {
        forall i, k | LatestById(log, i, row.stream) && Matches(log, k, row.stream) ensures log[k].at <= log[i].at {
          if k < i {
            assert Follow(longer, k, i, n);
          }
        }
      }
    }
    if OnTime(log) && (row.complete ==> LastInTime(log, row.stream)) {
      forall j, k, i | Follow(longer, j, k, i) ensures longer[j].at <= longer[k].at {
        if i < n {
          assert Follow(log, j, k, i);
        } else {
          LastTwo(log, row.stream, j, k);
        }
      }
    }
  }

  lemma LastTwo(log: seq<Row>, stream: int, j: int, k: int)
    requires OnTime(log) && LastInTime(log, stream) && j < k && Matches(log, j, stream) && Matches(log, k, stream)
    ensures log[j].at <= log[k].at
  {
    var last := LastRow(log, stream, k);
    if k < last {
      assert Follow(log, j, k, last);
    }
  }

  lemma StampedStep(log: seq<Row>, row: Row)
    ensures Stamped(log + [row]) <==>
        Stamped(log) && (row.complete ==> row.totals == Some(Recount(log + [row], {row.stream})))
  {
    hide Recount;
    var longer, n := log + [row], |log|;
    assert longer[..n + 1] == longer;
    forall i | 0 <= i < n ensures StampAt(longer, i) <==> StampAt(log, i) {
      assert longer[..i + 1] == log[..i + 1];
    }
    assert Stamped(longer) ==> StampAt(longer, n);
    if Stamped(longer) {
      forall i | 0 <= i < n ensures StampAt(log, i) {
        assert StampAt(longer, i);
      }
    }
  }

  lemma WrittenStep(log: seq<Row>, row: Row)
    ensures Written(log + [row]) <==>
      Written(log) && (row.complete ==> row.totals == Some(OneMore(Loaded(log, row.stream), row.level)))
  {
    hide Loaded, OneMore;
    var longer, n := log + [row], |log|;
    assert longer[..n] == log;
    assert forall i :: 0 <= i < n ==> longer[i] == log[i] && longer[..i] == log[..i];
  }

  lemma OneMoreApart(a: Totals, b: Totals, level: Level)
    ensures OneMore(a, level) == OneMore(b, level) <==> a == b
  {}

  /** All totals of a log are exact if and only if no row that the clock dated before an earlier one of
      its stream was followed by another row of the stream. */
  lemma {:induction false} StampedExactly(log: seq<Row>)
    requires Written(log)
    ensures Stamped(log) <==> OnTime(log)
    decreases |log|
  {
    hide Written, Stamped, OnTime, LastInTime, Recount, Loaded, OneMore;
    if log == [] {
      NothingToStamp();
    } else {
      var n := |log| - 1;
      var shorter, row := log[..n], log[n];
      assert log == shorter + [row];
      WrittenStep(shorter, row);
      StampedExactly(shorter);
      StampedStep(shorter, row);
      OnTimeStep(shorter, row);
      if Stamped(shorter) && row.complete {
        LoadedExactly(shorter, row.stream);
        RecountStep(shorter, row, {row.stream});
        OneMoreApart(Loaded(shorter, row.stream), Recount(shorter, {row.stream}), row.level);
      }
    }
  }

  lemma NothingToStamp()
    ensures Stamped([]) && OnTime([])
  {}

  /** The stream's last row carries the recount of the stream. */
  ghost predicate LastExact(log: seq<Row>, stream: int) {
    forall i :: LatestById(log, i, stream) ==> log[i].totals == Some(Recount(log, {stream}))
  }

  lemma StampedLast(log: seq<Row>, stream: int)
    requires Stamped(log)
    ensures LastExact(log, stream)
  {
    hide Recount;
    forall i | LatestById(log, i, stream) ensures log[i].totals == Some(Recount(log, {stream})) {
      assert StampAt(log, i);
      RecountGrows(log, i + 1, stream);
    }
  }

  /** Totals are never too high. */
  lemma {:induction false} NeverTooHigh(log: seq<Row>, i: nat)
    requires Written(log) && i < |log| && log[i].complete
    ensures log[i].totals.Some? && AtMost(log[i].totals.value, Recount(log[..i + 1], {log[i].stream}))
    decreases i
  {
    hide Recount, Latest, OneMore;
    var stream, before := log[i].stream, log[..i];
    LatestIs(before, stream);
    var latest := Latest(before, stream);
    if latest.Some? {
      NeverTooHigh(log, latest.value);
      assert before[..latest.value + 1] == log[..latest.value + 1];
      RecountGrows(before, latest.value + 1, stream);
    }
    assert log[..i + 1] == before + [log[i]];
    RecountStep(before, log[i], {stream});
    MoreOfBoth(Loaded(before, stream), Recount(before, {stream}), log[i].level);
  }

  lemma MoreOfBoth(a: Totals, b: Totals, level: Level)
    requires AtMost(a, b)
    ensures AtMost(OneMore(a, level), OneMore(b, level))
  {}

  lemma SumExactly(a: Totals, b: Totals, c: Totals, d: Totals)
    requires AtMost(a, b) && AtMost(c, d)
    ensures AtMost(Plus(a, c), Plus(b, d)) && (Plus(a, c) == Plus(b, d) <==> a == b && c == d)
  {}

  // ---- The service --------------------------------------------------------------------------------------

  class DeliveryLog {
    var log: seq<Row>

    ghost predicate Valid()
      reads this
    {
      Written(log)
    }

    constructor ()
      ensures Valid() && log == []
    {
      log := [];
    }

    /** `load_latest_stage_row` */
    method LoadLatestStageRow(stream: int) returns (found: Option<Row>)
      ensures found.Some? ==> exists i :: LatestByTime(log, i, stream) && log[i] == found.value
      ensures found.None? ==> forall i :: !Matches(log, i, stream)
    {
      found := None;
      ghost var best := -1;
      for i := 0 to |log|
        invariant found.None? ==> forall k :: 0 <= k < i ==> !Matches(log, k, stream)
        invariant found.Some? ==> Matches(log, best, stream) && best < i && log[best] == found.value
        invariant found.Some? ==> forall k :: 0 <= k < i && Matches(log, k, stream) ==>
                    log[k].at < found.value.at || (log[k].at == found.value.at && k <= best)
      {
        if log[i].complete && log[i].stream == stream && (found.None? || found.value.at <= log[i].at) {
          found := Some(log[i]);
          best := i;
        }
      }
    }

    /** `load_cumulative_classification_distribution` */
    method LoadCumulativeDistribution(stream: int) returns (t: Totals)
      ensures t == Loaded(log, stream)
      ensures Stamped(log) ==> (t == Recount(log, {stream}) <==> LastInTime(log, stream))
    {
      hide Stamped, LastInTime, Recount, Latest;
      if Stamped(log) {
        LoadedExactly(log, stream);
      }
      LatestIs(log, stream);
      var row := LoadLatestStageRow(stream);
      if row.None? {
        return ZERO;
      }
      ghost var i :| LatestByTime(log, i, stream) && log[i] == row.value;
      OneLatest(log, stream, i);
      t := if row.value.totals.Some? then row.value.totals.value else ZERO;
    }

    /** `classify_events_for_delivery`: one row per batch that has events. A level that is not one of
        the four counts as INTERNAL. */
    method ClassifyEventsForDelivery(stream: int, events: nat, level: Option<Level>, now: int)
      requires Valid()
      modifies this
      ensures Valid()
      ensures var l := if level.Some? then level.value else Internal;
        log == old(log) + if events == 0 then []
            else [Row(stream, true, l, Some(OneMore(Loaded(old(log), stream), l)), now)]
      ensures events > 0 && Stamped(old(log)) ==> (Stamped(log) <==> LastInTime(old(log), stream))
    {
      hide Written, Stamped, LastInTime, Recount, Loaded;
      if events == 0 {
        assert log + [] == log;
        return;
      }
      var cumulative := LoadCumulativeDistribution(stream);
      var l := if level.Some? then level.value else Internal;
      var row := Row(stream, true, l, Some(OneMore(cumulative, l)), now);
      WrittenStep(log, row);
      StampedStep(log, row);
      RecountStep(log, row, {stream});
      OneMoreApart(cumulative, Recount(log, {stream}), l);
      log := log + [row];
    }

    /** Rows of other stages. */
    method WriteOther(row: Row)
      requires Valid() && !row.complete
      modifies this
      ensures Valid() && log == old(log) + [row] && (Stamped(log) <==> Stamped(old(log)))
    {
      hide Written, Stamped;
      WrittenStep(log, row);
      StampedStep(log, row);
      log := log + [row];
    }

    /** The totals of the platform summary: last rows of all streams added up. They equal a count of
        all rows if and only if each of these rows is exact. */
    method BuildPlatformSummary() returns (t: Totals)
      requires Valid()
      ensures t == Recount(log, Streams(log)) <==> forall stream :: stream in Streams(log) ==> LastExact(log, stream)
      ensures Stamped(log) ==> t == Recount(log, Streams(log))
    {
      hide Stamped, Recount, LastExact, Plus;
      t := ZERO;
      var rest := Streams(log);
      ghost var done: set<int> := {};
      RecountNone(log);
      while rest != {}
        invariant rest !! done && rest + done == Streams(log)
        invariant AtMost(t, Recount(log, done))
        invariant t == Recount(log, done) <==> forall stream :: stream in done ==> LastExact(log, stream)
        decreases rest
      {
        var stream :| stream in rest;
        var row := LatestRowOf(stream);
        LastCounts(log, stream, row);
        RecountSplits(log, done, stream);
        SumExactly(t, Recount(log, done), row.totals.value, Recount(log, {stream}));
        if row.totals.Some? {
          t := Plus(t, row.totals.value);
        } else {
          t := OneMore(t, row.level);
        }
        rest, done := rest - {stream}, done + {stream};
      }
      if Stamped(log) {
        forall stream ensures LastExact(log, stream) {
          StampedLast(log, stream);
        }
      }
    }

    /** The row with the greatest id of a stream. */
    method LatestRowOf(stream: int) returns (row: Row)
      requires stream in Streams(log)
      ensures exists i :: LatestById(log, i, stream) && log[i] == row
    {
      var i := |log| - 1;
      ghost var r :| r in log && r.complete && r.stream == stream;
      ghost var at :| 0 <= at < |log| && log[at] == r;
      while !(log[i].complete && log[i].stream == stream)
        invariant at <= i < |log|
        invariant forall k :: Matches(log, k, stream) ==> k <= i
        decreases i
      {
        i := i - 1;
      }
      assert LatestById(log, i, stream);
      row := log[i];
    }
  }

  lemma OneLatest(log: seq<Row>, stream: int, i: int)
    requires LatestByTime(log, i, stream)
    ensures Latest(log, stream) == Some(i)
  {
    hide Latest;
    LatestIs(log, stream);
  }

  lemma LastCounts(log: seq<Row>, stream: int, row: Row)
    requires Written(log) && exists i :: LatestById(log, i, stream) && log[i] == row
    ensures row.totals.Some? && AtMost(row.totals.value, Recount(log, {stream}))
    ensures LastExact(log, stream) <==> row.totals.value == Recount(log, {stream})
  {
    hide Recount, OneMore, Loaded;
    var i :| LatestById(log, i, stream) && log[i] == row;
    NeverTooHigh(log, i);
    RecountGrows(log, i + 1, stream);
  }

  // ---- When the clock steps back ------------------------------------------------------------------------

  /** With a row dated before its predecessor, the latest row by time is not the last one, and the
      next batch counts on from the wrong totals: here three batches end with a total of two. */
  lemma ClockStepsBack()
    ensures var log := [Row(1, true, Public, Some(Totals(1, 0, 0, 0)), 5),
        Row(1, true, Public, Some(Totals(2, 0, 0, 0)), 3)];
      && !InOrder(log) && LatestByTime(log, 0, 1) && !LatestById(log, 0, 1)
      && var next := log + [Row(1, true, Public, Some(OneMore(log[0].totals.value, Public)), 6)];
      LatestByTime(next, 2, 1) && LatestById(next, 2, 1) && next[2].totals == Some(Totals(2, 0, 0, 0))
          && Rows(next, 1) == 3
  {
    var log := [Row(1, true, Public, Some(Totals(1, 0, 0, 0)), 5), Row(1, true, Public, Some(Totals(2, 0, 0, 0)), 3)];
    var next := log + [Row(1, true, Public, Some(OneMore(log[0].totals.value, Public)), 6)];
    assert Matches(log, 1, 1);
    assert next[..2] == log && log[..1] == [log[0]];
    assert log[0].at > log[1].at;
    assert Rows([log[0]], 1) == 1 by { assert [log[0]][..0] == []; }
  }
}
