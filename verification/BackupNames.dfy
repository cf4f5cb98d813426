/** The names of backups, and the order that makes sorting them sort the backups by time. */
module BackupNames {
  import opened Decimal
  import opened Lexical

  /** n in exactly w digits. */
  function Pad(n: nat, w: nat): (s: string)
    ensures |s| == w && Digits(s)
  {
    if w == 0 then [] else Pad(n / 10, w - 1) + [('0' as int + n % 10) as char]
  }

  function Power(w: nat): (p: nat)
    ensures p > 0
  {
    if w == 0 then 1 else 10 * Power(w - 1)
  }

  lemma {:induction false} BeforeAfterSame(p: string, a: string, b: string)
    ensures Before(p + a, p + b) <==> Before(a, b)
  {
    if p == [] {
      assert p + a == a && p + b == b;
    } else {
      assert (p + a)[1..] == p[1..] + a && (p + b)[1..] == p[1..] + b;
      BeforeAfterSame(p[1..], a, b);
    }
  }

  lemma {:induction false} BeforeOfUnequal(p: string, q: string, a: string, b: string)
    requires |p| == |q| && p != q
    ensures Before(p + a, q + b) <==> Before(p, q)
  {
    assert (p + a)[1..] == p[1..] + a && (q + b)[1..] == q[1..] + b;
    if p[0] == q[0] {
      assert p == [p[0]] + p[1..] && q == [q[0]] + q[1..];
      BeforeOfUnequal(p[1..], q[1..], a, b);
    }
  }

  /** Numbers of one width, followed by anything, sort by the number first. */
  lemma {:induction false} PadOrder(m: nat, n: nat, w: nat, a: string, b: string)
    requires m < Power(w) && n < Power(w)
    ensures Pad(m, w) == Pad(n, w) <==> m == n
    ensures Before(Pad(m, w) + a, Pad(n, w) + b) <==> m < n || (m == n && Before(a, b))
  {
    if w == 0 {
      assert Pad(m, w) + a == a && Pad(n, w) + b == b;
    } else {
      var c, d := [('0' as int + m % 10) as char], [('0' as int + n % 10) as char];
      PadOrder(m / 10, n / 10, w - 1, c + a, d + b);
      assert Pad(m, w) + a == Pad(m / 10, w - 1) + (c + a);
      assert Pad(n, w) + b == Pad(n / 10, w - 1) + (d + b);
      assert (c + a)[1..] == a && (d + b)[1..] == b;
      assert Pad(m, w)[..w - 1] == Pad(m / 10, w - 1) && Pad(n, w)[..w - 1] == Pad(n / 10, w - 1);
      assert Pad(m, w)[w - 1] == c[0] && Pad(n, w)[w - 1] == d[0];
    }
  }

  /** A UTC time to the second, of a year that four digits can write. */
  datatype Moment = Moment(year: nat, month: nat, day: nat, hour: nat, minute: nat, second: nat) {
    predicate Valid() {
      year <= 9999 && 1 <= month <= 12 && 1 <= day <= 31 && hour <= 23 && minute <= 59 && second <= 59
    }

    /** This moment comes before that one. */
    predicate Earlier(that: Moment) {
      || year < that.year
      || (year == that.year && (month < that.month
      || (month == that.month && (day < that.day
      || (day == that.day && (hour < that.hour
      || (hour == that.hour && (minute < that.minute
      || (minute == that.minute && second < that.second)))))))))
    }
  }

  const HEAD := "subglance-"
  const TAIL := "Z.db.gz"

  function NameOf(t: Moment): string {
    HEAD + (Pad(t.year, 4) + (Pad(t.month, 2) + (Pad(t.day, 2)
    + ("T" + (Pad(t.hour, 2) + (Pad(t.minute, 2) + (Pad(t.second, 2) + TAIL)))))))
  }

  /** The shape of a backup's name, the only one pruning touches. */
  predicate IsBackupName(s: string) {
    && |s| == 32
    && s[..10] == HEAD && Digits(s[10..18]) && s[18] == 'T' && Digits(s[19..25]) && s[25..] == TAIL
  }

  lemma NameHasShape(t: Moment)
    ensures IsBackupName(NameOf(t))
  {
    var s := NameOf(t);
    assert s[10..18] == Pad(t.year, 4) + Pad(t.month, 2) + Pad(t.day, 2);
    assert s[19..25] == Pad(t.hour, 2) + Pad(t.minute, 2) + Pad(t.second, 2);
    assert s[25..] == TAIL;
  }

  /** Name order is time order. */
  lemma NameOrder(a: Moment, b: Moment)
    requires a.Valid() && b.Valid()
    ensures Before(NameOf(a), NameOf(b)) <==> a.Earlier(b)
    ensures NameOf(a) == NameOf(b) ==> a == b
  {
    OrderFromParts(a, b);
    OrderFromParts(b, a);
    BeforeTotal(NameOf(a), NameOf(b));
  }

  lemma OrderFromParts(a: Moment, b: Moment)
    requires a.Valid() && b.Valid()
    ensures Before(NameOf(a), NameOf(b)) <==> a.Earlier(b)
  {
    hide Before, Pad;
    Widths();
    var (a6, b6) := (Pad(a.second, 2) + TAIL, Pad(b.second, 2) + TAIL);
    var (a5, b5) := (Pad(a.minute, 2) + a6, Pad(b.minute, 2) + b6);
    var (a4, b4) := (Pad(a.hour, 2) + a5, Pad(b.hour, 2) + b5);
    var (a3, b3) := ("T" + a4, "T" + b4);
    var (a2, b2) := (Pad(a.day, 2) + a3, Pad(b.day, 2) + b3);
    var (a1, b1) := (Pad(a.month, 2) + a2, Pad(b.month, 2) + b2);
    BeforeAfterSame(HEAD, Pad(a.year, 4) + a1, Pad(b.year, 4) + b1);
    PadOrder(a.year, b.year, 4, a1, b1);
    PadOrder(a.month, b.month, 2, a2, b2);
    PadOrder(a.day, b.day, 2, a3, b3);
    BeforeAfterSame("T", a4, b4);
    PadOrder(a.hour, b.hour, 2, a5, b5);
    PadOrder(a.minute, b.minute, 2, a6, b6);
    PadOrder(a.second, b.second, 2, TAIL, TAIL);
    BeforeTotal(TAIL, TAIL);
  }

  lemma Widths()
    ensures Power(2) == 100 && Power(4) == 10000
  {
    assert Power(1) == 10 && Power(3) == 1000;
  }
}
