/** The alert evaluation: the response it returns and the effects it performs. */
module Alerts {
  import opened FillLevel

  /** An externally visible effect: announcing a text by speech, or writing it
      to the alert log. */
  datatype Effect = Speak(text: string) | Log(text: string)

  /** The body of the alert endpoint's reply. */
  datatype AlertResponse = AlertResponse(alert: bool, message: string)

  const AlertMessage: string := "Bin is over 80% full. Please empty it!"
  const BelowMessage: string := "Bin is below the alert threshold."

  /** The reply for a given fill percentage. The comparison is inclusive. */
  function Evaluate(fill: real): (r: AlertResponse)
    ensures r.alert <==> fill >= ThresholdPercentage
    ensures r.message == AlertMessage <==> r.alert
    ensures r.message == BelowMessage <==> !r.alert
  {
    if fill >= ThresholdPercentage then AlertResponse(true, AlertMessage)
    else AlertResponse(false, BelowMessage)
  }

  /** The effects that go with a reply: on an alert, the returned message is
      spoken first and logged second; otherwise nothing happens. */
  function EffectsOf(r: AlertResponse): (e: seq<Effect>)
    ensures r.alert ==> |e| == 2 && e[0].Speak? && e[1].Log?
    ensures r.alert ==> e[0].text == r.message && e[1].text == r.message
    ensures !r.alert ==> e == []
  {
    if r.alert then [Speak(r.message), Log(r.message)] else []
  }

  /** The effects of `n` consecutive alert checks with no sensor message in
      between, so all of them see the same fill percentage. */
  function Repeated(fill: real, n: nat): seq<Effect>
    decreases n
  {
    if n == 0 then [] else Repeated(fill, n - 1) + EffectsOf(Evaluate(fill))
  }

  /** No suppression: while the fill stays at or above the threshold, every
      check speaks and then logs the alert again. */
  lemma {:induction false} RepeatedChecksAlertEveryTime(fill: real, n: nat)
    requires fill >= ThresholdPercentage
    ensures |Repeated(fill, n)| == 2 * n
    ensures forall k :: 0 <= k < |Repeated(fill, n)| ==>
              Repeated(fill, n)[k] == if k % 2 == 0 then Speak(AlertMessage) else Log(AlertMessage)
    decreases n
  {
    if n > 0 {
      RepeatedChecksAlertEveryTime(fill, n - 1);
      var before := Repeated(fill, n - 1);
      var all := Repeated(fill, n);
      assert all == before + [Speak(AlertMessage), Log(AlertMessage)];
      forall k | 0 <= k < |all|
        ensures all[k] == if k % 2 == 0 then Speak(AlertMessage) else Log(AlertMessage)
      {
        if k < |before| {
          assert all[k] == before[k];
        } else if k == 2 * n - 2 {
          assert k % 2 == 0;
        } else {
          assert k == 2 * n - 1 && k % 2 == 1;
        }
      }
    }
  }

  /** Below the threshold no number of checks has any effect. */
  lemma {:induction false} RepeatedChecksBelowThresholdSilent(fill: real, n: nat)
    requires fill < ThresholdPercentage
    ensures Repeated(fill, n) == []
    decreases n
  {
    if n > 0 {
      RepeatedChecksBelowThresholdSilent(fill, n - 1);
    }
  }

  /** The threshold itself raises the alert; anything below it does not. */
  lemma ThresholdIsInclusive()
    ensures Evaluate(80.0) == AlertResponse(true, AlertMessage)
    ensures Evaluate(79.9) == AlertResponse(false, BelowMessage)
  {
  }

  /** From a valid reading, an alert is raised exactly when the surface is at
      most 120 mm from the sensor. */
  lemma AlertForDistance(distance: real)
    ensures Evaluate(Fill(distance)).alert <==> distance <= 120.0
  {
    ThresholdAsDistance(distance);
  }
}
