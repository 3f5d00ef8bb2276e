/**
 * Static configuration of the Gemini Live connection: audio format
 * constants, the OpenClaw gateway address and the websocket URL builder.
 */
module GeminiConfig {
  import opened Wrappers

  const WebsocketBaseURL: string := "wss://generativelanguage.googleapis.com/ws/google.ai.generativelanguage.v1beta.GenerativeService.BidiGenerateContent"
  const Model: string := "models/gemini-2.5-flash-native-audio-preview-12-2025"

  // The sample rates are `Double` in the source; both are whole numbers.
  const InputAudioSampleRate: nat := 16000
  const OutputAudioSampleRate: nat := 24000
  // `UInt32` in the source; the values are far from the 32-bit bound.
  const AudioChannels: nat := 1
  const AudioBitsPerSample: nat := 16

  /** One video frame per second, in milliseconds. */
  const VideoFrameIntervalMs: nat := 1000

  const ApiKey: string := "REDACTED_GEMINI_API_KEY"

  const OpenClawHost: string := "http://127.0.0.1"
  const OpenClawPort: nat := 18789
  const OpenClawHookToken: string := "REDACTED_OPENCLAW_HOOK_TOKEN"

  const KeyQuery: string := "?key="

  /** Bytes in one interleaved 16-bit PCM frame: `bitsPerSample / 8 * channels`. */
  function BytesPerFrame(): (r: nat)
    ensures r == 2
  {
    AudioBitsPerSample / 8 * AudioChannels
  }

  /** Number of whole frames in a PCM buffer, the division playback uses. */
  function FrameCount(byteCount: nat): (r: nat)
    ensures 2 * r <= byteCount < 2 * r + 2
  {
    byteCount / BytesPerFrame()
  }

  /**
   * `websocketURL()` for a given key. `parses` stands for `URL(string:)`,
   * which is not modelled: it says which strings Foundation accepts.
   */
  function WebsocketURLFor(apiKey: string, parses: string -> bool): (r: Option<string>)
    ensures apiKey == [] ==> r == None
    ensures apiKey != [] ==> (r.Some? <==> parses(WebsocketBaseURL + KeyQuery + apiKey))
    ensures r.Some? ==> WebsocketBaseURL <= r.value && KeyOfURL(r.value) == Some(apiKey)
  {
    if apiKey == [] then None
    else
      var candidate := WebsocketBaseURL + KeyQuery + apiKey;
      KeyOfCandidate(apiKey);
      if parses(candidate) then Some(candidate) else None
  }

  /** `websocketURL()` with the configured key. */
  function WebsocketURL(parses: string -> bool): (r: Option<string>)
    ensures r.Some? <==> parses(WebsocketBaseURL + KeyQuery + ApiKey)
    ensures r.Some? ==> r.value == WebsocketBaseURL + KeyQuery + ApiKey
  {
    WebsocketURLFor(ApiKey, parses)
  }

  /** Recovers the key from a URL built by `WebsocketURLFor`. */
  function KeyOfURL(url: string): Option<string>
  {
    var prefix := WebsocketBaseURL + KeyQuery;
    if prefix <= url then Some(url[|prefix|..]) else None
  }

  lemma KeyOfCandidate(apiKey: string)
    ensures KeyOfURL(WebsocketBaseURL + KeyQuery + apiKey) == Some(apiKey)
    ensures WebsocketBaseURL <= WebsocketBaseURL + KeyQuery + apiKey
  {
    var prefix := WebsocketBaseURL + KeyQuery;
    assert WebsocketBaseURL + KeyQuery + apiKey == prefix + apiKey;
    assert (prefix + apiKey)[|prefix|..] == apiKey;
    assert (prefix + apiKey)[..|WebsocketBaseURL|] == WebsocketBaseURL;
  }

  /** Different keys give different URLs. */
  lemma WebsocketURLInjective(k1: string, k2: string, parses: string -> bool)
    requires WebsocketURLFor(k1, parses).Some? && WebsocketURLFor(k1, parses) == WebsocketURLFor(k2, parses)
    ensures k1 == k2
  {
    assert KeyOfURL(WebsocketURLFor(k1, parses).value) == Some(k1);
  }
}
