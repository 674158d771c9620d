/** One accepted telephony connection and the voice-AI connection opened for
    it. The handler's closure variables become fields; each socket callback
    becomes a method that updates them in place and appends what it sends to
    the outbox of the leg it sends on. */
module Session {
  import opened Messages
  import opened RelaySpec

  class RelaySession {
    /** `streamSid`, latched by the telephony `start` event. */
    var streamSid: Option<string>
    /** Whether the commit interval (`timer`) is live. */
    var timerArmed: bool
    /** Whether `rt.close()` has been called. */
    var aiCloseRequested: bool
    /** Everything sent on the voice-AI connection (`rt.send`), in order. */
    var toAi: seq<AiOut>
    /** Everything sent on the telephony connection (`twilioWS.send`), in order. */
    var toPhone: seq<PhoneOut>

    /** The abstract value of the relay. */
    function Snapshot(): State
      reads this
    {
      State(streamSid, timerArmed, aiCloseRequested, toAi, toPhone)
    }

    /** Holds of every reachable state: the constructor establishes it and
        every callback keeps it. */
    ghost predicate Valid()
      reads this
    {
      WellFormed(Snapshot())
    }

    /** Accepting the connection: no stream id yet, and the commit interval is
        started right away, before any `start` arrives. */
    constructor ()
      ensures Valid()
      ensures Snapshot() == Initial
      ensures timerArmed && streamSid == None && toAi == [] && toPhone == []
    {
      streamSid := None;
      timerArmed := true;
      aiCloseRequested := false;
      toAi := [];
      toPhone := [];
    }

    /** The telephony `message` callback. */
    method OnTelephonyMessage(m: TelephonyMsg)
      requires Valid()
      modifies this
      ensures Valid()
      ensures Snapshot() == TelephonyMessageStep(old(Snapshot()), m)
      ensures m.TStart? ==> streamSid == Some(m.sid)
      ensures !m.TStart? ==> streamSid == old(streamSid)
      ensures toAi == if m.TMedia? then old(toAi) + [Append(m.payload, MuLaw8k)] else old(toAi)
      ensures aiCloseRequested == (old(aiCloseRequested) || m.TStop?)
      ensures toPhone == old(toPhone) && timerArmed == old(timerArmed)
    {
      match m {
        case TStart(sid) =>
          streamSid := Some(sid);
        case TMedia(payload) =>
          toAi := toAi + [Append(payload, MuLaw8k)];
        case TStop =>
          aiCloseRequested := true;
        case TOther =>
      }
      StepPreservesWellFormed(old(Snapshot()), Telephony(m));
    }

    /** The voice-AI `open` callback: configure the session. */
    method OnAiOpen()
      requires Valid()
      modifies this
      ensures Valid()
      ensures Snapshot() == AiOpenStep(old(Snapshot()))
      ensures toAi == old(toAi) + [SessionUpdate(Instructions, MuLaw8k)]
      ensures unchanged(this`streamSid, this`timerArmed, this`aiCloseRequested, this`toPhone)
    {
      toAi := toAi + [SessionUpdate(Instructions, MuLaw8k)];
      StepPreservesWellFormed(old(Snapshot()), AiOpen);
    }

    /** The voice-AI `message` callback: forward audio once the stream id is
        known; a parse failure is caught and only logged. */
    method OnAiMessage(m: AiMsg)
      requires Valid()
      modifies this
      ensures Valid()
      ensures Snapshot() == AiMessageStep(old(Snapshot()), m)
      ensures m.ADelta? && SidKnown(old(streamSid)) ==>
        toPhone == old(toPhone) + [Media(old(streamSid).value, m.delta),
                                   Mark(old(streamSid).value, AiChunkMark)]
      ensures !(m.ADelta? && SidKnown(old(streamSid))) ==> toPhone == old(toPhone)
      ensures unchanged(this`streamSid, this`timerArmed, this`aiCloseRequested, this`toAi)
    {
      match m {
        case ADelta(delta) =>
          if SidKnown(streamSid) {
            toPhone := toPhone + [Media(streamSid.value, delta)];
            toPhone := toPhone + [Mark(streamSid.value, AiChunkMark)];
          }
        case AOther =>
        case AMalformed =>
      }
      StepPreservesWellFormed(old(Snapshot()), AiMessage(m));
    }

    /** One firing of the commit interval. */
    method OnCommitTick()
      requires Valid()
      modifies this
      ensures Valid()
      ensures Snapshot() == TickStep(old(Snapshot()))
      ensures toAi == if old(timerArmed) then old(toAi) + [Commit] else old(toAi)
      ensures unchanged(this`streamSid, this`timerArmed, this`aiCloseRequested, this`toPhone)
    {
      if timerArmed {
        toAi := toAi + [Commit];
      }
      StepPreservesWellFormed(old(Snapshot()), Tick);
    }

    /** The telephony `close` callback: clear the interval, close the AI leg. */
    method OnTelephonyClose()
      requires Valid()
      modifies this
      ensures Valid()
      ensures Snapshot() == TelephonyCloseStep(old(Snapshot()))
      ensures !timerArmed && aiCloseRequested
      ensures unchanged(this`streamSid, this`toAi, this`toPhone)
    {
      timerArmed := false;
      aiCloseRequested := true;
      StepPreservesWellFormed(old(Snapshot()), TelephonyClose);
    }
  }

  /** The event loop delivering one event to the callback registered for it. */
  method Handle(c: RelaySession, e: Event)
    requires c.Valid()
    modifies c
    ensures c.Valid()
    ensures c.Snapshot() == Step(old(c.Snapshot()), e)
  {
    match e {
      case Telephony(m) => c.OnTelephonyMessage(m);
      case AiOpen => c.OnAiOpen();
      case AiMessage(m) => c.OnAiMessage(m);
      case Tick => c.OnCommitTick();
      case TelephonyClose => c.OnTelephonyClose();
    }
  }
}
