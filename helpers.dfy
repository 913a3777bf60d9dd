/** `formatDuration` from the shared helpers: a count of seconds rendered as
    `M:SS`-style clock text. The page that plays a video carries a verbatim copy
    of the same function, so this one definition stands for both. */
module Helpers {
  import opened Common
  import opened Text

  /** `x < 10 ? `0${x}` : x`: at least two digits, same value. */
  function Pad2(n: nat): (r: string)
    ensures AllDigits(r) && DigitsValue(r) == n
    ensures |r| >= 2
    ensures n < 100 ==> |r| == 2
  {
    NatToStringValue(n);
    if n < 10 then
      LeadingZeroValue(NatToString(n));
      "0" + NatToString(n)
    else
      NatToString(n)
  }

  /** The clock text of a duration: `0:00` for zero, else `MM:SS` below an hour
      and `HH:MM:SS` from an hour on (hours padded, never wrapped). */
  function FormatDuration(seconds: nat): (r: string)
    ensures seconds == 0 ==> r == "0:00"
  {
    if seconds == 0 then "0:00"
    else
      var sec := seconds % 60;
      var min := (seconds / 60) % 60;
      var hrs := seconds / 3600;
      if hrs > 0 then Pad2(hrs) + ":" + Pad2(min) + ":" + Pad2(sec)
      else Pad2(min) + ":" + Pad2(sec)
  }

  /** Reads clock text back: two or three `:`-separated decimal fields. */
  function ParseDuration(s: string): (r: Option<nat>)
  {
    ParseFields(Split(s, ':'))
  }

  /** Minutes and seconds, or hours, minutes and seconds. */
  function ParseFields(parts: seq<string>): (r: Option<nat>)
  {
    if |parts| == 2 then
      match (ParseDecimal(parts[0]), ParseDecimal(parts[1]))
      case (Some(m), Some(sec)) => Some(m * 60 + sec)
      case _ => None
    else if |parts| == 3 then
      match (ParseDecimal(parts[0]), ParseDecimal(parts[1]), ParseDecimal(parts[2]))
      case (Some(h), Some(m), Some(sec)) => Some(h * 3600 + m * 60 + sec)
      case _ => None
    else None
  }

  /** hours * 3600 + minutes * 60 + seconds recomposes the input, and the two
      lower fields are below 60. */
  lemma Decompose(n: nat)
    ensures n % 60 < 60 && (n / 60) % 60 < 60
    ensures (n / 3600) * 3600 + ((n / 60) % 60) * 60 + n % 60 == n
  {
    var q, r := n / 60, n % 60;
    assert n == 60 * q + r;
    var h, m := q / 60, q % 60;
    assert q == 60 * h + m;
    assert n == 3600 * h + (60 * m + r);
    assert 0 <= 60 * m + r < 3600;
    assert n / 3600 == h;
  }

  lemma SplitTwoFields(a: string, b: string)
    requires ':' !in a && ':' !in b
    ensures Split(a + ":" + b, ':') == [a, b]
  {
    SplitAtFirst(a, ':', b);
    SplitNoSeparator(b, ':');
  }

  lemma SplitThreeFields(a: string, b: string, c: string)
    requires ':' !in a && ':' !in b && ':' !in c
    ensures Split(a + ":" + b + ":" + c, ':') == [a, b, c]
  {
    assert a + ":" + b + ":" + c == a + [':'] + (b + ":" + c);
    SplitAtFirst(a, ':', b + ":" + c);
    SplitTwoFields(b, c);
  }

  lemma DigitsHaveNoColon(s: string)
    requires AllDigits(s)
    ensures ':' !in s
  {
  }

  /** Two fields that read as `m` and `sec` give `m` minutes and `sec` seconds. */
  lemma ParseTwoFields(mText: string, secText: string, m: nat, sec: nat)
    requires ParseDecimal(mText) == Some(m) && ParseDecimal(secText) == Some(sec)
    ensures ParseDuration(mText + ":" + secText) == Some(m * 60 + sec)
  {
    DigitsHaveNoColon(mText);
    DigitsHaveNoColon(secText);
    SplitTwoFields(mText, secText);
  }

  /** Three fields that read as `h`, `m` and `sec`. */
  lemma ParseThreeFields(hText: string, mText: string, secText: string, h: nat, m: nat, sec: nat)
    requires ParseDecimal(hText) == Some(h) && ParseDecimal(mText) == Some(m)
    requires ParseDecimal(secText) == Some(sec)
    ensures ParseDuration(hText + ":" + mText + ":" + secText) == Some(h * 3600 + m * 60 + sec)
  {
    DigitsHaveNoColon(hText);
    DigitsHaveNoColon(mText);
    DigitsHaveNoColon(secText);
    SplitThreeFields(hText, mText, secText);
  }

  /** Round trip: parsing the clock text of any duration gives the duration back. */
  lemma {:induction false} ParseFormatDuration(n: nat)
    ensures ParseDuration(FormatDuration(n)) == Some(n)
  {
    if n == 0 {
      assert FormatDuration(0) == "0" + ":" + "00";
      assert AllDigits("00") && DigitsValue("00") == 0 by {
        assert "00"[..1] == "0";
      }
      ParseTwoFields("0", "00", 0, 0);
    } else {
      Decompose(n);
      var h, m, s := Pad2(n / 3600), Pad2((n / 60) % 60), Pad2(n % 60);
      if n / 3600 > 0 {
        assert FormatDuration(n) == h + ":" + m + ":" + s;
        ParseThreeFields(h, m, s, n / 3600, (n / 60) % 60, n % 60);
      } else {
        assert FormatDuration(n) == m + ":" + s;
        ParseTwoFields(m, s, (n / 60) % 60, n % 60);
      }
    }
  }

  /** The shape of the clock text: two fields below an hour and three from an
      hour on; minutes and seconds are exactly two digits and below 60; hours
      have at least two digits. */
  lemma FormatDurationFields(n: nat)
    requires n > 0
    ensures var parts := Split(FormatDuration(n), ':');
      && |parts| == (if n < 3600 then 2 else 3)
      && (forall k :: 0 <= k < |parts| ==> AllDigits(parts[k]) && |parts[k]| >= 2)
      && |parts[|parts| - 1]| == 2 && DigitsValue(parts[|parts| - 1]) < 60
      && |parts[|parts| - 2]| == 2 && DigitsValue(parts[|parts| - 2]) < 60
  {
    Decompose(n);
    var h, m, s := Pad2(n / 3600), Pad2((n / 60) % 60), Pad2(n % 60);
    DigitsHaveNoColon(h);
    DigitsHaveNoColon(m);
    DigitsHaveNoColon(s);
    if n / 3600 > 0 {
      SplitThreeFields(h, m, s);
    } else {
      SplitTwoFields(m, s);
    }
  }
}
