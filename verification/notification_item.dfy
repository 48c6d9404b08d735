/** One row of the notification drawer (components/NotificationItem.tsx):
    the icon chosen by the notification's type, and the relative timestamp
    label. The clock is not modelled: the label is a function of the
    difference `now - timestamp` in milliseconds, and the locale-formatted
    date shown for notifications a week old or more is a parameter. */
module NotificationItem {
  import opened Text

  datatype NotificationType = Info | Success | Warning | Error | Order

  const MsPerMinute: int := 60000
  const MsPerHour: int := 3600000
  const MsPerDay: int := 86400000
  const MsPerWeek: int := 604800000

  /** `getNotificationIcon`: the symbol name for a notification type; the
      bell is the fallback, which only the informational type reaches. */
  function Icon(t: NotificationType): (name: string)
    ensures name == "bell" <==> t == Info
    ensures name == "cart" <==> t == Order
    ensures name == "checkmark.circle" <==> t == Success
    ensures name == "exclamationmark.triangle" <==> t == Warning
    ensures name == "xmark.circle" <==> t == Error
  {
    match t
    case Order => "cart"
    case Success => "checkmark.circle"
    case Warning => "exclamationmark.triangle"
    case Error => "xmark.circle"
    case _ => "bell"
  }

  /** Different types get different icons. */
  lemma IconInjective(s: NotificationType, t: NotificationType)
    requires Icon(s) == Icon(t)
    ensures s == t
  {
    assert Icon(s)[0] == Icon(t)[0];
    if Icon(s)[0] == 'c' {
      assert |Icon(s)| == |Icon(t)|;
    }
  }

  /** `x == d * q + r` with `0 <= r < d` determines the floor quotient. */
  lemma FloorDivUnique(x: int, d: int, q: int, r: int)
    requires d > 0 && 0 <= r < d && x == d * q + r
    ensures x / d == q
  {
    var q', r' := x / d, x % d;
    assert d * (q - q') == r' - r by {
      assert d * q' + r' == d * q + r;
      assert d * (q - q') == d * q - d * q';
    }
    if q - q' >= 1 {
      MulAtLeast(d, q - q');
    } else if q' - q >= 1 {
      MulAtLeast(d, q' - q);
    }
  }

  lemma MulAtLeast(d: int, k: int)
    requires d > 0 && k >= 1
    ensures d * k >= d
  {
    assert d * k == d * (k - 1) + d;
  }

  /** The whole hours are the whole minutes divided by 60, for negative
      differences too: `Math.floor` of `Math.floor`. */
  lemma HoursFromMinutes(diffMs: int)
    ensures (diffMs / MsPerMinute) / 60 == diffMs / MsPerHour
  {
    var m := diffMs / MsPerMinute;
    var h := m / 60;
    assert diffMs == MsPerMinute * m + diffMs % MsPerMinute;
    assert m == 60 * h + m % 60;
    FloorDivUnique(diffMs, MsPerHour, h, MsPerMinute * (m % 60) + diffMs % MsPerMinute);
  }

  /** The whole days are the whole hours divided by 24. */
  lemma DaysFromHours(diffMs: int)
    ensures ((diffMs / MsPerMinute) / 60) / 24 == diffMs / MsPerDay
  {
    HoursFromMinutes(diffMs);
    var h := diffMs / MsPerHour;
    var d := h / 24;
    assert diffMs == MsPerHour * h + diffMs % MsPerHour;
    assert h == 24 * d + h % 24;
    FloorDivUnique(diffMs, MsPerDay, d, MsPerHour * (h % 24) + diffMs % MsPerHour);
  }

  /** `formatTimestamp`: under a minute (or in the future) is "Just now";
      then whole minutes up to 59, whole hours up to 23 and whole days up
      to 6, each counted down from the difference in milliseconds; a week
      or more shows the date. Exactly one of these applies. */
  function FormatTimestamp(diffMs: int, localeDate: string): (shown: string)
    ensures diffMs < MsPerMinute ==> shown == "Just now"
    ensures MsPerMinute <= diffMs < MsPerHour ==>
      1 <= diffMs / MsPerMinute <= 59 && shown == Decimal(diffMs / MsPerMinute) + "m ago"
    ensures MsPerHour <= diffMs < MsPerDay ==>
      1 <= diffMs / MsPerHour <= 23 && shown == Decimal(diffMs / MsPerHour) + "h ago"
    ensures MsPerDay <= diffMs < MsPerWeek ==>
      1 <= diffMs / MsPerDay <= 6 && shown == Decimal(diffMs / MsPerDay) + "d ago"
    ensures MsPerWeek <= diffMs ==> shown == localeDate
  {
    var diffMinutes := diffMs / MsPerMinute;
    var diffHours := diffMinutes / 60;
    var diffDays := diffHours / 24;
    HoursFromMinutes(diffMs);
    DaysFromHours(diffMs);
    if diffMinutes < 1 then "Just now"
    else if diffMinutes < 60 then Decimal(diffMinutes) + "m ago"
    else if diffHours < 24 then Decimal(diffHours) + "h ago"
    else if diffDays < 7 then Decimal(diffDays) + "d ago"
    else localeDate
  }
}
