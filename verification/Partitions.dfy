/**
 Monthly partitions of the delivery log: the months the migration creates tile the time from the
 oldest row to the end of the month after the newest one.
 */
module Partitions {

  /** A calendar date of Python's `datetime.date`, whose years run from 1 to 9999. */
  datatype Date = Date(year: nat, month: nat, day: nat)

  predicate ValidDate(d: Date) {
    1 <= d.year <= 9999 && 1 <= d.month <= 12 && 1 <= d.day <= 31
  }

  predicate Before(a: Date, b: Date) {
    a.year < b.year || (a.year == b.year && (a.month < b.month || (a.month == b.month && a.day < b.day)))
  }

  function MonthFloor(d: Date): Date {
    Date(d.year, d.month, 1)
  }

  /** `_add_month`; `date(10000, 1, 1)` raises. */
  predicate AddMonthRaises(d: Date) {
    d.month == 12 && d.year == 9999
  }

  function AddMonth(d: Date): Date {
    if d.month == 12 then Date(d.year + 1, 1, 1) else Date(d.year, d.month + 1, 1)
  }

  /** A month's number, counted from the year 0. */
  function Number(d: Date): int {
    12 * d.year + d.month - 1
  }

  // ---- Names --------------------------------------------------------------------------------------------

  function Digit(n: nat): char {
    (n % 10 + 48) as char
  }

  function TwoDigits(n: nat): string {
    [Digit(n / 10), Digit(n)]
  }

  function FourDigits(n: nat): string {
    TwoDigits(n / 100) + TwoDigits(n % 100)
  }

  function PartitionName(month: Date): string {
    "delivery_logs_" + FourDigits(month.year) + "_" + TwoDigits(month.month)
  }

  lemma SameDigit(a: nat, b: nat)
    requires Digit(a) == Digit(b)
    ensures a % 10 == b % 10
  {}

  lemma TwoDigitsTell(a: nat, b: nat)
    requires a <= 99 && b <= 99 && TwoDigits(a) == TwoDigits(b)
    ensures a == b
  {
    assert TwoDigits(a)[0] == TwoDigits(b)[0] && TwoDigits(a)[1] == TwoDigits(b)[1];
    SameDigit(a / 10, b / 10);
    SameDigit(a, b);
  }

  lemma FourDigitsTell(a: nat, b: nat)
    requires a <= 9999 && b <= 9999 && FourDigits(a) == FourDigits(b)
    ensures a == b
  {
    hide TwoDigits;
    assert FourDigits(a)[..2] == TwoDigits(a / 100) && FourDigits(a)[2..] == TwoDigits(a % 100)
      by { TwoLong(a / 100); TwoLong(a % 100); }
    assert FourDigits(b)[..2] == TwoDigits(b / 100) && FourDigits(b)[2..] == TwoDigits(b % 100)
      by { TwoLong(b / 100); TwoLong(b % 100); }
    TwoDigitsTell(a / 100, b / 100);
    TwoDigitsTell(a % 100, b % 100);
  }

  lemma TwoLong(n: nat)
    ensures |TwoDigits(n)| == 2
  {}

  /** Different months have different partition names. */
  lemma NamesDiffer(a: Date, b: Date)
    requires ValidDate(a) && ValidDate(b) && Number(a) != Number(b)
    ensures PartitionName(a) != PartitionName(b)
  {
    var prefix := "delivery_logs_";
    assert |prefix| == 14;
    assert PartitionName(a)[14..18] == FourDigits(a.year) && PartitionName(b)[14..18] == FourDigits(b.year);
    assert PartitionName(a)[19..] == TwoDigits(a.month) && PartitionName(b)[19..] == TwoDigits(b.month);
    if PartitionName(a) == PartitionName(b) {
      FourDigitsTell(a.year, b.year);
      TwoDigitsTell(a.month, b.month);
    }
  }

  predicate Digits(s: string) {
    forall i :: 0 <= i < |s| ==> '0' <= s[i] <= '9'
  }

  /** The number that the digits write. */
  function NumberOf(s: string): nat
    requires Digits(s)
  {
    if s == "" then 0 else 10 * NumberOf(s[..|s| - 1]) + (s[|s| - 1] as int - '0' as int)
  }

  lemma TwoDigitsRead(n: nat)
    requires n <= 99
    ensures |TwoDigits(n)| == 2 && Digits(TwoDigits(n)) && NumberOf(TwoDigits(n)) == n
  {
    var s := TwoDigits(n);
    assert s[..1] == [Digit(n / 10)] && s[..1][..0] == "";
    assert NumberOf(s[..1]) == n / 10;
  }

  lemma FourDigitsRead(n: nat)
    requires n <= 9999
    ensures |FourDigits(n)| == 4 && Digits(FourDigits(n)) && NumberOf(FourDigits(n)) == n
  {
    hide TwoDigits;
    var s := FourDigits(n);
    TwoDigitsRead(n / 100);
    TwoDigitsRead(n % 100);
    assert s[..2] == TwoDigits(n / 100) && s[2..] == TwoDigits(n % 100);
    assert s[..3][..2] == s[..2] && s[2..][..1] == [s[2]] && s[2..][..1][..0] == "";
    assert NumberOf(s) == 10 * NumberOf(s[..3]) + (s[3] as int - '0' as int);
    assert NumberOf(s[..3]) == 10 * NumberOf(s[..2]) + (s[2] as int - '0' as int);
    assert NumberOf(s[2..]) == 10 * NumberOf(s[2..][..1]) + (s[3] as int - '0' as int);
    assert NumberOf(s[2..][..1]) == s[2] as int - '0' as int;
  }

  /** A partition's name ends in the four digits of its year and, after an underscore, the two of its
      month. */
  lemma NameReadsBack(month: Date)
    requires ValidDate(month)
    ensures var name := PartitionName(month);
      && |name| == 21 && name[..14] == "delivery_logs_" && name[18] == '_'
      && Digits(name[14..18]) && NumberOf(name[14..18]) == month.year
      && Digits(name[19..]) && NumberOf(name[19..]) == month.month
  {
    FourDigitsRead(month.year);
    TwoDigitsRead(month.month);
    var name := PartitionName(month);
    assert name[14..18] == FourDigits(month.year) && name[19..] == TwoDigits(month.month);
  }

  // ---- The loop -----------------------------------------------------------------------------------------

  /** `FOR VALUES FROM (start) TO (end)`: the start belongs to it, the end does not. */
  datatype Partition = Partition(name: string, start: Date, end: Date)

  predicate Holds(p: Partition, d: Date) {
    !Before(d, p.start) && Before(d, p.end)
  }

  /** The partition of one month. */
  predicate OfMonth(p: Partition, number: int) {
    && ValidDate(p.start) && ValidDate(p.end) && p.start.day == 1 && p.end.day == 1
    && Number(p.start) == number && Number(p.end) == number + 1
    && p.name == PartitionName(p.start)
  }

  /** Consecutive months from `first` on. */
  predicate Months(ps: seq<Partition>, first: int) {
    forall i :: 0 <= i < |ps| ==> OfMonth(ps[i], first + i)
  }

  /** The month loop of the migration, for the dates of the oldest and the newest row: it ends, and
      creates one partition for each month from the oldest row's to the one after the newest's. It
      raises when that would take it past the last year of the calendar. */
  method CreateMonthlyPartitions(minDate: Date, maxDate: Date) returns (raised: bool, ps: seq<Partition>)
    requires ValidDate(minDate) && ValidDate(maxDate) && !Before(maxDate, minDate)
    ensures raised <==> Number(maxDate) + 1 >= 12 * 9999 + 11
    ensures !raised ==> Months(ps, Number(minDate)) && |ps| == Number(maxDate) - Number(minDate) + 2
  {
    ps := [];
    var firstMonth, lastMonth := MonthFloor(minDate), MonthFloor(maxDate);
    var month := firstMonth;
    if AddMonthRaises(lastMonth) {
      return true, [];
    }
    var nextAfterLast := AddMonth(lastMonth);
    while !Before(nextAfterLast, month)
      invariant ValidDate(month) && month.day == 1
      invariant Number(month) == Number(minDate) + |ps| && Number(month) <= Number(maxDate) + 2
      invariant Number(month) == Number(maxDate) + 2 ==> Number(maxDate) + 1 < 12 * 9999 + 11
      invariant Months(ps, Number(minDate))
      decreases Number(nextAfterLast) - Number(month) + 1
    {
      if AddMonthRaises(month) {
        return true, [];
      }
      ps := ps + [Partition(PartitionName(month), month, AddMonth(month))];
      month := AddMonth(month);
    }
    raised := false;
  }

  // ---- The tiling ---------------------------------------------------------------------------------------

  lemma HoldsItsMonth(p: Partition, number: int, d: Date)
    requires OfMonth(p, number) && ValidDate(d)
    ensures Holds(p, d) <==> Number(d) == number
  {}

  /** Every date from the oldest to the newest row lies in exactly one partition; neighbours meet, no
      two overlap, and all names differ. */
  lemma Tiling(ps: seq<Partition>, minDate: Date, maxDate: Date, d: Date)
    requires ValidDate(minDate) && ValidDate(maxDate) && ValidDate(d) && !Before(d, minDate) && !Before(maxDate, d)
    requires Months(ps, Number(minDate)) && |ps| == Number(maxDate) - Number(minDate) + 2
    ensures exists i :: 0 <= i < |ps| && Holds(ps[i], d) && forall k :: 0 <= k < |ps| && Holds(ps[k], d) ==> k == i
    ensures forall i :: 0 <= i < |ps| - 1 ==> ps[i].end == ps[i + 1].start
    ensures forall i, k :: 0 <= i < k < |ps| ==> ps[i].name != ps[k].name
  {
    hide Before, PartitionName, Holds;
    var at := Number(d) - Number(minDate);
    InBetween(minDate, d, maxDate);
    forall k | 0 <= k < |ps| ensures Holds(ps[k], d) <==> k == at {
      HoldsItsMonth(ps[k], Number(minDate) + k, d);
    }
    assert 0 <= at < |ps| && Holds(ps[at], d);
    forall i | 0 <= i < |ps| - 1 ensures ps[i].end == ps[i + 1].start {
      assert OfMonth(ps[i], Number(minDate) + i) && OfMonth(ps[i + 1], Number(minDate) + i + 1);
      SameMonth(ps[i].end, ps[i + 1].start);
    }
    forall i, k | 0 <= i < k < |ps| ensures ps[i].name != ps[k].name {
      assert OfMonth(ps[i], Number(minDate) + i) && OfMonth(ps[k], Number(minDate) + k);
      NamesDiffer(ps[i].start, ps[k].start);
    }
  }

  lemma InBetween(a: Date, d: Date, b: Date)
    requires ValidDate(a) && ValidDate(d) && ValidDate(b) && !Before(d, a) && !Before(b, d)
    ensures Number(a) <= Number(d) <= Number(b)
  {}

  lemma SameMonth(a: Date, b: Date)
    requires ValidDate(a) && ValidDate(b) && a.day == 1 && b.day == 1 && Number(a) == Number(b)
    ensures a == b
  {}
}
