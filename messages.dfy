/** Values exchanged on the two legs of one call: the telephony media stream
    and the voice-AI realtime session. JSON framing is abstracted away; each
    wire message is one constructor. Audio payloads are base64 text that the
    relay never decodes, so they stay opaque strings. */
module Messages {

  datatype Option<+T> = None | Some(value: T)

  /** The audio format descriptor `{type, sample_rate_hz, channels}`. */
  datatype AudioFormat = AudioFormat(encoding: string, sampleRateHz: nat, channels: nat)

  /** 8 kHz mono mu-law, the format the telephony stream uses, requested for the
      AI output and declared on every appended chunk. */
  const MuLaw8k: AudioFormat := AudioFormat("mulaw", 8000, 1)

  /** Persona text sent in the `session.update` message. */
  const Instructions: string :=
    "Eres un asistente telefónico en español. Responde con voz natural, frases breves y amables. "
    + "Si el usuario interrumpe, deja de hablar y escucha."

  /** Name of the synchronisation mark that follows every forwarded AI chunk. */
  const AiChunkMark: string := "ai-chunk"

  /** Messages the relay sends to the voice-AI leg. */
  datatype AiOut =
    | SessionUpdate(instructions: string, outputAudioFormat: AudioFormat)  // `session.update`
    | Append(audio: string, format: AudioFormat)                           // `input_audio_buffer.append`
    | Commit                                                                // `input_audio_buffer.commit`

  /** Messages the relay sends to the telephony leg. */
  datatype PhoneOut =
    | Media(streamSid: string, payload: string)  // `{event: 'media', streamSid, media: {payload}}`
    | Mark(streamSid: string, name: string)      // `{event: 'mark', streamSid, mark: {name}}`

  /** A parsed message from the telephony leg, told apart by its `event` field. */
  datatype TelephonyMsg =
    | TStart(sid: string)       // `start`, carrying `start.streamSid`
    | TMedia(payload: string)   // `media`, carrying `media.payload`
    | TStop                     // `stop`
    | TOther                    // any other event name (`connected`, `mark`, ...)

  /** A message from the voice-AI leg, told apart by its `type` field. */
  datatype AiMsg =
    | ADelta(delta: string)     // `output_audio.delta`, carrying `delta`
    | AOther                    // a message of any other type
    | AMalformed                // text that is not JSON: the parse throws

  /** Everything that can happen to one relay, in the order it is handled. */
  datatype Event =
    | Telephony(msg: TelephonyMsg)  // a message on the telephony connection
    | AiOpen                        // the voice-AI connection finished opening
    | AiMessage(reply: AiMsg)       // a message on the voice-AI connection
    | Tick                          // the periodic commit timer fires
    | TelephonyClose                // the telephony connection closed
}
