/** The per-call id prefix: the UTC clock reading formatted as "%Y%m%dT%H%M%S_". */
module Clock {
  import opened Common
  import opened Decimal

  /** A reading of `datetime.now(UTC)`, down to the second. */
  datatype Timestamp = Timestamp(year: nat, month: nat, day: nat, hour: nat, minute: nat, second: nat)

  /** The ranges a Python datetime guarantees for its fields. */
  predicate Valid(t: Timestamp) {
    && 1 <= t.year <= 9999
    && 1 <= t.month <= 12
    && 1 <= t.day <= 31
    && t.hour < 24
    && t.minute < 60
    && t.second < 60
  }

  /** The two-digit field at position `i` of `s`. */
  function Read2(s: string, i: nat): nat
    requires i + 2 <= |s| && IsDigit(s[i]) && IsDigit(s[i + 1])
  {
    DigitValue(s[i]) * 10 + DigitValue(s[i + 1])
  }

  /** A zero-padded two-digit field, as `%m`, `%d`, `%H`, `%M` and `%S` print it. */
  function Pad2(n: nat): (s: string)
    requires n < 100
    ensures |s| == 2 && AllDigits(s) && Read2(s, 0) == n
  {
    [DigitChar(n / 10), DigitChar(n % 10)]
  }

  /** The shape of an id prefix: eight digits, 'T', six digits, '_'. */
  predicate IsIdPrefix(p: string) {
    && |p| == 16
    && p[8] == 'T'
    && p[15] == '_'
    && forall k :: 0 <= k < 16 && k != 8 && k != 15 ==> IsDigit(p[k])
  }

  /** `cur_time.strftime("%Y%m%dT%H%M%S_")`, with the year printed as four digits. */
  function FormatIdPrefix(t: Timestamp): (p: string)
    requires Valid(t)
    ensures IsIdPrefix(p)
  {
    Pad2(t.year / 100) + Pad2(t.year % 100) + Pad2(t.month) + Pad2(t.day)
      + "T" + Pad2(t.hour) + Pad2(t.minute) + Pad2(t.second) + "_"
  }

  /** `datetime.strptime(p[..15], "%Y%m%dT%H%M%S")` for a string that has the id-prefix shape. */
  function ParseIdPrefix(p: string): Option<Timestamp> {
    if !IsIdPrefix(p) then None
    else
      var t := Timestamp(Read2(p, 0) * 100 + Read2(p, 2), Read2(p, 4), Read2(p, 6),
                         Read2(p, 9), Read2(p, 11), Read2(p, 13));
      if Valid(t) then Some(t) else None
  }

  lemma IdPrefixRoundTrip(t: Timestamp)
    requires Valid(t)
    ensures ParseIdPrefix(FormatIdPrefix(t)) == Some(t)
  {
  }
}
