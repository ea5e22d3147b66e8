/** The running service: the process-wide bin record, the message callback
    that writes it, and the two request handlers that read it. */
module Monitor {
  import opened Wrappers
  import opened FillLevel
  import opened BinState
  import opened Alerts

  class Bin {
    var distanceMm: real
    var fillPercentage: real
    /** Every speech announcement and log line performed so far, in order. */
    ghost var effects: seq<Effect>

    /** The record as a value. */
    function Snapshot(): State
      reads this
    {
      State(distanceMm, fillPercentage)
    }

    ghost predicate Valid()
      reads this
    {
      BinState.Valid(Snapshot())
    }

    /** Process start: both fields zero, nothing announced or logged yet. */
    constructor ()
      ensures Snapshot() == Initial && Valid()
      ensures effects == []
    {
      distanceMm := 0.0;
      fillPercentage := 0.0;
      effects := [];
    }

    /** A message from the broker. `payload` is the outcome of parsing its
        text as a number; on `None` the parse fails before any field is
        written. A parsed distance is written first, then its fill. */
    method OnMessage(payload: Option<real>)
      requires Valid()
      modifies this`distanceMm, this`fillPercentage
      ensures Valid()
      ensures Snapshot() == Step(old(Snapshot()), payload)
      ensures payload.None? ==> distanceMm == old(distanceMm) && fillPercentage == old(fillPercentage)
      ensures payload.Some? ==> distanceMm == payload.value && fillPercentage == Fill(payload.value)
    {
      match payload {
        case None =>
        case Some(distance) =>
          distanceMm := distance;
          var raw := 100.0 - (distance / BinHeightMm) * 100.0;
          fillPercentage := if raw > 0.0 then raw else 0.0;
      }
    }

    /** The status query: the current record, with nothing changed. */
    method GetStatus() returns (status: State)
      ensures status.distanceMm == distanceMm && status.fillPercentage == fillPercentage
    {
      status := State(distanceMm, fillPercentage);
    }

    /** The alert request: compares the current fill with the threshold and,
        when it is reached, speaks and then logs the alert message. The bin
        record is never written; nothing remembers an earlier alert. */
    method CheckAlert() returns (response: AlertResponse)
      requires Valid()
      modifies this`effects
      ensures Valid()
      ensures response == Evaluate(fillPercentage)
      ensures effects == old(effects) + EffectsOf(response)
    {
      if fillPercentage >= ThresholdPercentage {
        var message := AlertMessage;
        effects := effects + [Speak(message)];
        effects := effects + [Log(message)];
        return AlertResponse(true, message);
      }
      return AlertResponse(false, BelowMessage);
    }
  }

  /** Two alert requests with no message in between, on a full enough bin:
      both of them speak and log. */
  method CheckAlertTwice(bin: Bin) returns (first: AlertResponse, second: AlertResponse)
    requires bin.fillPercentage >= ThresholdPercentage
    modifies bin
    ensures first.alert && second.alert
    ensures bin.effects == old(bin.effects) + Repeated(bin.fillPercentage, 2)
    ensures bin.effects == old(bin.effects) +
              [Speak(AlertMessage), Log(AlertMessage), Speak(AlertMessage), Log(AlertMessage)]
    ensures bin.Snapshot() == old(bin.Snapshot())
  {
    first := bin.CheckAlert();
    second := bin.CheckAlert();
    assert Repeated(bin.fillPercentage, 2) == Repeated(bin.fillPercentage, 1) + EffectsOf(second);
    assert Repeated(bin.fillPercentage, 1) == EffectsOf(first);
  }

  /** A fresh process answers the status query with the all-zero record, and a
      malformed payload afterwards does not change that. */
  method StatusBeforeAnyReading() returns (before: State, after: State)
    ensures before == State(0.0, 0.0)
    ensures after == before
  {
    var bin := new Bin();
    before := bin.GetStatus();
    bin.OnMessage(None);
    after := bin.GetStatus();
  }
}
