/** The text-to-speech player of components/TextToSpeech.tsx: one audio
    context per mount of the component, made at 24000 Hz, a guard chain
    before each request, and a playback rule that stops the source playing so
    far before the new one starts, so that at most one source is ever playing.

    The Web Audio objects are modelled by the state the component relies on:
    a context's sample rate and whether it is suspended, whether a source
    node has been started and stopped, and, as a ghost log on the context, the
    order in which the context was resumed and its sources started and
    stopped. Decoding the base64 payload into an
    audio buffer is not modelled beyond the buffer's origin and format; a
    decoding failure is a parameter of Submit. */
module SpeechPlayback {
  import opened JsValues
  import opened GeminiService

  const DEFAULT_TEXT := "Hello! I am Gemini. " + "I can convert text into natural sounding speech."
  const SAMPLE_RATE := 24000
  const CHANNELS := 1
  const NO_AUDIO_CONTEXT := "AudioContext is not supported by your browser."
  const ENTER_TEXT := "Please enter some text."
  const NOT_INITIALIZED := "AudioContext not initialized. " + "Please interact with the page first."
  const SPEECH_FAILED_PREFIX := "Error generating speech: "

  /** Decoded audio: the base64 payload it was decoded from, at the requested rate and channel count. */
  datatype AudioBuffer = AudioBuffer(payload: string, sampleRate: nat, channels: nat)

  datatype ContextState = Suspended | Running

  /** What happened to a context and its sources, in the order it happened. */
  datatype AudioEvent = Resumed | Started(source: SourceNode) | Stopped(source: SourceNode)

  /** An AudioContext, reduced to its sample rate, whether it is suspended, and its event log. */
  class AudioContext {
    const sampleRate: nat
    var state: ContextState
    ghost var events: seq<AudioEvent>

    /** `new AudioContext({sampleRate})`; whether it starts suspended is the browser's choice. */
    constructor (sampleRate: nat, initial: ContextState)
      ensures this.sampleRate == sampleRate && state == initial && events == []
    {
      this.sampleRate := sampleRate;
      state := initial;
      events := [];
    }

    method Resume()
      modifies this
      ensures state == Running && events == old(events) + [Resumed]
    {
      state := Running;
      events := events + [Resumed];
    }
  }

  /** An AudioBufferSourceNode of a context, playing one buffer: it plays between start() and
      stop(), and both are logged on its context. */
  class SourceNode {
    const context: AudioContext
    const buffer: AudioBuffer
    var started: bool
    var stopped: bool

    /** `context.createBufferSource()` with `buffer` assigned. */
    constructor (context: AudioContext, buffer: AudioBuffer)
      ensures this.context == context && this.buffer == buffer && !started && !stopped
    {
      this.context := context;
      this.buffer := buffer;
      started := false;
      stopped := false;
    }

    predicate Active()
      reads this
    {
      started && !stopped
    }

    method Start()
      requires !started
      modifies this, context`events
      ensures started && stopped == old(stopped)
      ensures context.events == old(context.events) + [Started(this)]
    {
      started := true;
      context.events := context.events + [Started(this)];
    }

    /** stop() on a started source ends its playback for good. */
    method Stop()
      requires started
      modifies this, context`events
      ensures started && stopped
      ensures context.events == old(context.events) + [Stopped(this)]
    {
      stopped := true;
      context.events := context.events + [Stopped(this)];
    }
  }

  /** The log entries of a handover of the playback: the stored source, if any, is stopped,
      then the next one started. */
  function Handover(previous: SourceNode?, next: SourceNode): seq<AudioEvent>
  {
    (if previous != null then [Stopped(previous)] else []) + [Started(next)]
  }

  class TextToSpeech {
    var text: string
    var isLoading: bool
    var error: Option<string>
    /** audioContextRef. */
    var context: AudioContext?
    /** audioSourceRef: the source started last. */
    var current: SourceNode?
    /** The requests sent to the remote, oldest first. */
    var sent: seq<Sent>
    /** Every source the component has started, oldest first. */
    ghost var played: seq<SourceNode>

    /** The context runs at the component's rate; every started source belongs to it and holds a
        buffer decoded at that rate, in mono; and no source but the stored one is still playing. */
    ghost predicate Valid()
      reads this, context, played
    {
      (context != null ==> context.sampleRate == SAMPLE_RATE) &&
      (current != null ==> current in played) &&
      (forall i :: 0 <= i < |played| ==>
        played[i].context == context && played[i].started &&
        played[i].buffer.sampleRate == SAMPLE_RATE && played[i].buffer.channels == CHANNELS) &&
      (forall i :: 0 <= i < |played| && played[i].Active() ==> played[i] == current)
    }

    /** The component's initial state, before its mount effect. */
    constructor ()
      ensures Valid()
      ensures text == DEFAULT_TEXT && !isLoading && error == None
      ensures context == null && current == null && sent == [] && played == []
    {
      text := DEFAULT_TEXT;
      isLoading := false;
      error := None;
      context := null;
      current := null;
      sent := [];
      played := [];
    }

    /** The mount effect: a context is made only when there is none yet, at 24000 Hz; a browser
        without Web Audio leaves none and shows an error. */
    method Mount(supported: bool, initial: ContextState)
      requires Valid()
      modifies this`context, this`error
      ensures Valid()
      ensures old(context) != null ==> context == old(context) && error == old(error)
      ensures old(context) == null && supported ==>
        context != null && fresh(context) && context.sampleRate == SAMPLE_RATE && context.state == initial &&
        error == old(error)
      ensures old(context) == null && !supported ==> context == null && error == Some(NO_AUDIO_CONTEXT)
    {
      if context == null {
        if supported {
          context := new AudioContext(SAMPLE_RATE, initial);
        } else {
          error := Some(NO_AUDIO_CONTEXT);
        }
      }
    }

    /** The mount effect's cleanup: the stored source is stopped, after which nothing plays. */
    method Unmount()
      requires Valid()
      modifies current, context
      ensures Valid()
      ensures forall i :: 0 <= i < |played| ==> !played[i].Active()
      ensures current != null ==> context.events == old(context.events) + [Stopped(current)]
      ensures context != null ==> context.state == old(context.state)
      ensures current == null && context != null ==> context.events == old(context.events)
    {
      if current != null {
        current.Stop();
      }
    }

    method SetText(value: string)
      modifies this`text
      ensures text == value
    {
      text := value;
    }

    /** handleSubmit: the text must be non-empty and the context made, in that order; a suspended
        context is resumed; then the speech is requested and decoded at 24000 Hz in mono. On
        success the stored source is stopped and a new one started and stored; on failure the
        playback is left as it was and the failure is reported. Loading stops either way. */
    method Submit(apiKey: Option<string>, response: Result<ContentResponse>, decodeError: Option<string>)
      requires Valid()
      modifies this, context, played
      ensures Valid()
      ensures text == old(text) && context == old(context)
      ensures old(text) == "" ==>
        error == Some(ENTER_TEXT) && UntouchedExceptError()
      ensures old(text) != "" && old(context) == null ==>
        error == Some(NOT_INITIALIZED) && UntouchedExceptError()
      ensures old(text) != "" && old(context) != null ==>
        var call := GenerateSpeech(apiKey, text, response);
        var resumed := if old(context.state) == Suspended then [Resumed] else [];
        context.state == Running && !isLoading && sent == old(sent) + call.sent &&
        (call.result.Success? && decodeError.None? ==>
          error == None && current != null && fresh(current) && current.Active() &&
          current.buffer == AudioBuffer(call.result.value, SAMPLE_RATE, CHANNELS) &&
          played == old(played) + [current] &&
          (forall i :: 0 <= i < |old(played)| ==> !old(played)[i].Active()) &&
          context.events == old(context.events) + resumed + Handover(old(current), current)) &&
        (call.result.Failure? ==>
          error == Some(SPEECH_FAILED_PREFIX + call.result.message) && PlaybackUnchanged() &&
          context.events == old(context.events) + resumed) &&
        (call.result.Success? && decodeError.Some? ==>
          error == Some(SPEECH_FAILED_PREFIX + decodeError.value) && PlaybackUnchanged() &&
          context.events == old(context.events) + resumed)
    {
      if text == "" {
        error := Some(ENTER_TEXT);
        return;
      }
      if context == null {
        error := Some(NOT_INITIALIZED);
        return;
      }
      if context.state == Suspended {
        context.Resume();
      }
      Speak(apiKey, response, decodeError);
    }

    /** What handleSubmit does once both guards passed: the speech is requested only once the
        context runs. */
    method Speak(apiKey: Option<string>, response: Result<ContentResponse>, decodeError: Option<string>)
      requires Valid() && context != null && context.state == Running
      modifies this`isLoading, this`error, this`sent, this`current, this`played, played, context`events
      ensures Valid()
      ensures
        var call := GenerateSpeech(apiKey, text, response);
        !isLoading && sent == old(sent) + call.sent &&
        (call.result.Success? && decodeError.None? ==>
          error == None && current != null && fresh(current) && current.Active() &&
          current.buffer == AudioBuffer(call.result.value, SAMPLE_RATE, CHANNELS) &&
          played == old(played) + [current] &&
          (forall i :: 0 <= i < |old(played)| ==> !old(played)[i].Active()) &&
          context.events == old(context.events) + Handover(old(current), current)) &&
        (call.result.Failure? ==>
          error == Some(SPEECH_FAILED_PREFIX + call.result.message) && PlaybackUnchanged() &&
          context.events == old(context.events)) &&
        (call.result.Success? && decodeError.Some? ==>
          error == Some(SPEECH_FAILED_PREFIX + decodeError.value) && PlaybackUnchanged() &&
          context.events == old(context.events))
    {
      isLoading := true;
      error := None;
      var call := GenerateSpeech(apiKey, text, response);
      sent := sent + call.sent;
      PlayOrReport(call.result, decodeError);
      isLoading := false;
    }

    /** The try block and its catch: the payload is decoded and played, or the failure of the
        request or of the decoding is reported and the playback left alone. */
    method PlayOrReport(payload: Result<string>, decodeError: Option<string>)
      requires Valid() && context != null
      modifies this`error, this`current, this`played, played, context`events
      ensures Valid()
      ensures payload.Success? && decodeError.None? ==>
        error == old(error) && current != null && fresh(current) && current.Active() &&
        current.buffer == AudioBuffer(payload.value, SAMPLE_RATE, CHANNELS) &&
        played == old(played) + [current] &&
        (forall i :: 0 <= i < |old(played)| ==> !old(played)[i].Active()) &&
        context.events == old(context.events) + Handover(old(current), current)
      ensures payload.Failure? ==>
        error == Some(SPEECH_FAILED_PREFIX + payload.message) && PlaybackUnchanged() &&
        context.events == old(context.events)
      ensures payload.Success? && decodeError.Some? ==>
        error == Some(SPEECH_FAILED_PREFIX + decodeError.value) && PlaybackUnchanged() &&
        context.events == old(context.events)
    {
      match payload {
        case Failure(message) =>
          error := Some(SPEECH_FAILED_PREFIX + message);
        case Success(base64Audio) =>
          if decodeError.Some? {
            error := Some(SPEECH_FAILED_PREFIX + decodeError.value);
          } else {
            Play(AudioBuffer(base64Audio, SAMPLE_RATE, CHANNELS));
          }
      }
    }

    /** Only the error changed: the loading flag, the requests, the context and the playback are
        as they were. */
    twostate predicate UntouchedExceptError()
      reads this, context, played
    {
      isLoading == old(isLoading) && sent == old(sent) && PlaybackUnchanged() &&
      context == old(context) &&
      (context != null ==> context.state == old(context.state) && context.events == old(context.events))
    }

    /** The playback is as it was: the same stored source, and every started source still
        playing or stopped as before. */
    twostate predicate PlaybackUnchanged()
      reads this, played
    {
      current == old(current) && played == old(played) &&
      forall i :: 0 <= i < |played| ==> played[i].Active() == old(played[i].Active())
    }

    /** The stored source is stopped, and only then a new one playing `buffer` is made from the
        context, started and stored. */
    method Play(buffer: AudioBuffer)
      requires Valid() && context != null
      requires buffer.sampleRate == SAMPLE_RATE && buffer.channels == CHANNELS
      modifies this`current, this`played, played, context`events
      ensures Valid()
      ensures current != null && fresh(current) && current.Active() && current.buffer == buffer
      ensures played == old(played) + [current]
      ensures forall i :: 0 <= i < |old(played)| ==> !old(played)[i].Active()
      ensures context.events == old(context.events) + Handover(old(current), current)
    {
      if current != null {
        current.Stop();
      }
      var source := new SourceNode(context, buffer);
      source.Start();
      current := source;
      played := played + [source];
    }

    /** At most one source is playing at any time. */
    lemma AtMostOneActive(i: nat, j: nat)
      requires Valid()
      requires i < |played| && j < |played| && played[i].Active() && played[j].Active()
      ensures played[i] == played[j]
    {
    }
  }
}
