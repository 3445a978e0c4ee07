/**
 * The rate column of the disbursement report (src/pages/DisbursementReport.tsx): each
 * project's disbursement rate, in percent, chooses a badge colour and at most one icon.
 */
module DisbursementReport {
  import opened Types

  datatype Icon = Check | Alert

  /** The badge: emerald from 90 on, blue above 0, red otherwise. */
  function RateBadge(rate: real): Tone
  {
    if rate >= 90.0 then Emerald else if rate > 0.0 then Blue else Red
  }

  /** The icon: a check mark from 90 on, an alert at exactly 0, none otherwise. */
  function RateIcon(rate: real): Option<Icon>
  {
    if rate >= 90.0 then Some(Check) else if rate == 0.0 then Some(Alert) else None
  }

  /**
   * The four kinds of row: at least 90 is emerald with a check; between 0 and 90 blue with no
   * icon; exactly 0 red with an alert; below 0 red with no icon.
   */
  lemma RateCases(rate: real)
    ensures rate >= 90.0 <==> RateBadge(rate) == Emerald && RateIcon(rate) == Some(Check)
    ensures 0.0 < rate < 90.0 <==> RateBadge(rate) == Blue && RateIcon(rate) == None
    ensures rate == 0.0 <==> RateBadge(rate) == Red && RateIcon(rate) == Some(Alert)
    ensures rate < 0.0 <==> RateBadge(rate) == Red && RateIcon(rate) == None
  {
  }

  /** The icon never contradicts the badge: a check only on emerald, an alert only on red, and a higher rate never a worse badge. */
  lemma IconAgreesWithBadge(rate: real, higher: real)
    ensures RateIcon(rate) == Some(Check) <==> RateBadge(rate) == Emerald
    ensures RateIcon(rate) == Some(Alert) ==> RateBadge(rate) == Red
    ensures RateBadge(rate) == Blue ==> RateIcon(rate) == None
    ensures rate <= higher ==> Rank(RateBadge(rate)) <= Rank(RateBadge(higher))
  {
  }
}
