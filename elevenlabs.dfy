/** lib/elevenlabs.ts: a client for the ElevenLabs HTTP API and the
    process-wide instance the routes share. `fetch` is a parameter: it maps
    the request the client builds to what the network gives back. */
module ElevenLabs {
  import opened Wrappers
  import opened Types

  const BaseUrl := "https://api.elevenlabs.io/v1"
  const MissingApiKeyMessage := "ELEVENLABS_API_KEY environment variable is required"
  const NotImplementedMessage := "TTS streaming not implemented yet"

  datatype ProviderVoiceSettings = ProviderVoiceSettings(
    stability: real,
    similarity_boost: real,
    style: Option<real>,
    use_speaker_boost: Option<bool>)

  /** A voice as the provider describes it. `labels` is declared as always
      present, but the client reads it through `?.`, so it may be missing. */
  datatype ProviderVoice = ProviderVoice(
    voice_id: string,
    name: string,
    category: string,
    labels: Option<map<string, string>>,
    description: Option<string>,
    preview_url: Option<string>,
    available_for_tiers: Option<seq<string>>,
    settings: Option<ProviderVoiceSettings>)

  /** The reply of `GET /voices`. */
  datatype VoiceListReply = VoiceListReply(voices: seq<ProviderVoice>)

  /** `VoiceSettings`, the options of a speech request. */
  datatype VoiceSettings = VoiceSettings(stability: real, similarity_boost: real, style: Option<string>)

  const DefaultSpeechSettings := VoiceSettings(0.5, 0.5, None)

  /** The audio stream a speech request would return. */
  datatype AudioStream = AudioStream(chunks: seq<seq<bv8>>)

  datatype HttpRequest = HttpRequest(url: string, headers: map<string, string>)

  /** What `fetch` gives back: a rejected promise (no reply at all), or a
      reply with its status, its text, and its body read as JSON of the
      expected shape (or the error `response.json()` throws). */
  datatype Reply<T> =
    | NetworkFailure(reason: string)
    | Replied(status: nat, text: string, json: Result<T, string>)

  /** `response.ok`. */
  predicate IsSuccess(status: nat) {
    200 <= status <= 299
  }

  function DigitChar(d: nat): char
    requires d < 10
  {
    ('0' as int + d) as char
  }

  /** The decimal digits of `n`, as a template literal writes it. */
  function Decimal(n: nat): (s: string)
    ensures |s| >= 1
    ensures forall i :: 0 <= i < |s| ==> '0' <= s[i] <= '9'
  {
    if n < 10 then [DigitChar(n)] else Decimal(n / 10) + [DigitChar(n % 10)]
  }

  /** The number a string of decimal digits denotes. */
  function DecimalValue(s: string): nat
    requires forall i :: 0 <= i < |s| ==> '0' <= s[i] <= '9'
  {
    if s == [] then 0 else 10 * DecimalValue(s[..|s| - 1]) + (s[|s| - 1] - '0') as nat
  }

  /** `Decimal` loses nothing: the digits read back as the status. */
  lemma {:induction false} DecimalRoundTrip(n: nat)
    ensures DecimalValue(Decimal(n)) == n
  {
    var s := Decimal(n);
    if n >= 10 {
      DecimalRoundTrip(n / 10);
      assert s[..|s| - 1] == Decimal(n / 10);
      assert (s[|s| - 1] - '0') as nat == n % 10;
    } else {
      assert s[..0] == [];
    }
  }

  function ApiError(status: nat, text: string): string {
    "ElevenLabs API error: " + Decimal(status) + " - " + text
  }

  /** `labels?.language || labels?.accent`: a non-empty language label, or
      else the accent label as it is (an empty accent stays empty). */
  function LanguageOf(labels: Option<map<string, string>>): (r: Option<string>)
    ensures labels.Some? && "language" in labels.value && labels.value["language"] != "" ==>
      r == Some(labels.value["language"])
    ensures !(labels.Some? && "language" in labels.value && labels.value["language"] != "") ==>
      r == if labels.Some? && "accent" in labels.value then Some(labels.value["accent"]) else None
    ensures r.Some? ==> labels.Some? && r.value in labels.value.Values
  {
    if labels.Some? && "language" in labels.value && labels.value["language"] != "" then
      Some(labels.value["language"])
    else if labels.Some? && "accent" in labels.value then Some(labels.value["accent"])
    else None
  }

  /** The mapping `listVoices` and `getVoice` apply to a provider voice. */
  function ToVoice(v: ProviderVoice): (r: Voice)
    ensures r.id == v.voice_id && r.name == v.name
    ensures r.language == LanguageOf(v.labels)
    ensures r.category == Some(v.category) && r.description == v.description
  {
    Voice(v.voice_id, v.name, LanguageOf(v.labels), Some(v.category), v.description)
  }

  function MapVoices(vs: seq<ProviderVoice>): (r: seq<Voice>)
    ensures |r| == |vs|
    ensures forall i :: 0 <= i < |vs| ==> r[i] == ToVoice(vs[i])
  {
    if vs == [] then [] else [ToVoice(vs[0])] + MapVoices(vs[1..])
  }

  class ElevenLabsClient {
    const apiKey: string
    const baseUrl: string

    constructor (apiKey: string)
      ensures this.apiKey == apiKey && baseUrl == BaseUrl
    {
      this.apiKey := apiKey;
      baseUrl := BaseUrl;
    }

    /** The request `request(endpoint)` sends: the endpoint appended to the
        base URL, with the API key and the JSON content type as headers. */
    function RequestFor(endpoint: string): (req: HttpRequest)
      ensures |req.url| == |baseUrl| + |endpoint|
      ensures req.url[..|baseUrl|] == baseUrl && req.url[|baseUrl|..] == endpoint
      ensures req.headers.Keys == {"xi-api-key", "Content-Type"}
      ensures req.headers["xi-api-key"] == apiKey && req.headers["Content-Type"] == "application/json"
    {
      HttpRequest(baseUrl + endpoint, map["xi-api-key" := apiKey, "Content-Type" := "application/json"])
    }

    /** `request<T>(endpoint)`: the body of a successful reply, or the
        message of the error it throws. */
    function Request<T>(endpoint: string, fetch: HttpRequest -> Reply<T>): (r: Result<T, string>)
      ensures r.Ok? <==>
        fetch(RequestFor(endpoint)).Replied? && IsSuccess(fetch(RequestFor(endpoint)).status)
        && fetch(RequestFor(endpoint)).json.Ok?
      ensures r.Ok? ==> r.value == fetch(RequestFor(endpoint)).json.value
      ensures fetch(RequestFor(endpoint)).Replied? && !IsSuccess(fetch(RequestFor(endpoint)).status) ==>
        r == Err(ApiError(fetch(RequestFor(endpoint)).status, fetch(RequestFor(endpoint)).text))
    {
      match fetch(RequestFor(endpoint))
      case NetworkFailure(reason) => Err(reason)
      case Replied(status, text, json) =>
        if !IsSuccess(status) then Err(ApiError(status, text)) else json
    }

    /** `listVoices()`: every provider voice, in the provider's order, mapped by `ToVoice`. */
    function ListVoices(fetch: HttpRequest -> Reply<VoiceListReply>): (r: Result<seq<Voice>, string>)
      ensures r.Ok? <==> Request("/voices", fetch).Ok?
      ensures r.Err? ==> r == Err(Request("/voices", fetch).error)
      ensures r.Ok? ==>
        var vs := Request("/voices", fetch).value.voices;
        |r.value| == |vs| && forall i :: 0 <= i < |vs| ==> r.value[i] == ToVoice(vs[i])
    {
      match Request("/voices", fetch)
      case Err(e) => Err(e)
      case Ok(reply) => Ok(MapVoices(reply.voices))
    }

    /** `getVoice(voiceId)`: the voice, or `null` whatever went wrong. */
    function GetVoice(voiceId: string, fetch: HttpRequest -> Reply<ProviderVoice>): (r: Option<Voice>)
      ensures r.None? <==> Request("/voices/" + voiceId, fetch).Err?
      ensures r.Some? ==> r.value == ToVoice(Request("/voices/" + voiceId, fetch).value)
    {
      match Request("/voices/" + voiceId, fetch)
      case Err(_) => None
      case Ok(v) => Some(ToVoice(v))
    }

    /** `speakStream`: not implemented; every call throws. */
    function SpeakStream(text: string, voiceId: string, options: VoiceSettings): (r: Result<AudioStream, string>)
      ensures r == Err(NotImplementedMessage)
    {
      Err(NotImplementedMessage)
    }
  }

  /** The module-level `elevenLabsClient` and `getElevenLabsClient`. */
  class ClientProvider {
    var elevenLabsClient: ElevenLabsClient?

    constructor ()
      ensures elevenLabsClient == null
    {
      elevenLabsClient := null;
    }

    /** The shared client, created on first use from `ELEVENLABS_API_KEY`
        (`apiKeyEnv`); a missing or empty key throws and leaves nothing
        created. Once created, the same client is returned whatever the
        environment says. */
    method GetElevenLabsClient(apiKeyEnv: Option<string>) returns (r: Result<ElevenLabsClient, string>)
      modifies this
      ensures old(elevenLabsClient) != null ==>
        r == Ok(old(elevenLabsClient)) && elevenLabsClient == old(elevenLabsClient)
      ensures old(elevenLabsClient) == null && (apiKeyEnv.None? || apiKeyEnv == Some("")) ==>
        r == Err(MissingApiKeyMessage) && elevenLabsClient == null
      ensures old(elevenLabsClient) == null && apiKeyEnv.Some? && apiKeyEnv.value != "" ==>
        r.Ok? && fresh(r.value) && r.value.apiKey == apiKeyEnv.value && r.value.baseUrl == BaseUrl
        && elevenLabsClient == r.value
      ensures r.Ok? ==> elevenLabsClient == r.value
    {
      if elevenLabsClient == null {
        if apiKeyEnv.None? || apiKeyEnv.value == "" {
          return Err(MissingApiKeyMessage);
        }
        elevenLabsClient := new ElevenLabsClient(apiKeyEnv.value);
      }
      r := Ok(elevenLabsClient);
    }
  }
}
