/**
 * The browsing-history page's relative date label. Times are epoch milliseconds.
 */
module BrowsingHistory {
  import opened Text

  const DayMs: nat := 86400000

  /** `Math.ceil(Math.abs(now - viewed) / 86400000)`. */
  function DayCount(viewedMs: int, nowMs: int): (d: nat)
    ensures d == 0 <==> viewedMs == nowMs
    ensures d > 0 ==> (d - 1) * DayMs < Distance(viewedMs, nowMs) <= d * DayMs
  {
    (Distance(viewedMs, nowMs) + DayMs - 1) / DayMs
  }

  function Distance(a: int, b: int): nat {
    if a <= b then b - a else a - b
  }

  /** The label: a relative text, or the browser's locale date (not modelled). */
  datatype DateText = Relative(text: string) | LocaleDate

  /** `formatDate`: day count 1 is "Today", 2 "Yesterday", anything else up to 7 "(d-1) days ago". */
  function FormatDate(viewedMs: int, nowMs: int): (r: DateText)
    ensures r == Relative("Today") <==> 0 < Distance(viewedMs, nowMs) <= DayMs
    ensures r == Relative("Yesterday") <==> DayMs < Distance(viewedMs, nowMs) <= 2 * DayMs
    ensures r.LocaleDate? <==> Distance(viewedMs, nowMs) > 7 * DayMs
    ensures DayCount(viewedMs, nowMs) != 1 && DayCount(viewedMs, nowMs) != 2 && !r.LocaleDate? ==>
      r == Relative(IntToString(DayCount(viewedMs, nowMs) - 1) + " days ago")
  {
    var d := DayCount(viewedMs, nowMs);
    if d == 1 then Relative("Today")
    else if d == 2 then Relative("Yesterday")
    else if d <= 7 then Relative(IntToString(d - 1) + " days ago")
    else LocaleDate
  }

  /** A view stamped with the current instant reads "-1 days ago". */
  lemma SameInstantSaysMinusOne(t: int)
    ensures FormatDate(t, t) == Relative("-1 days ago")
  {
    assert IntToString(-1) == "-1";
  }

  /** Past and future timestamps at the same distance get the same label. */
  lemma FutureLikePast(now: int, delta: nat)
    ensures FormatDate(now - delta, now) == FormatDate(now + delta, now)
  {
  }
}
