/** The `App` component of src/App.jsx as a state machine: its `useState`
    fields are the fields of class `App`, and each event handler (a search, a
    response arriving, a failed request, the voice button, a voice result) is
    a method that changes some of them and leaves the rest alone.

    Side effects towards the outside are returned, not performed: an `Effect`
    says whether the handler showed an alert (and its text) or started a
    request (and for which city). The request's answer comes back later as a
    separate event, `Complete` or `Fail`. */
module WeatherApp {
  import opened Wrappers
  import opened JsString
  import JsNumber
  import opened CitySearch

  /** The `cod` field of a response body. The weather service sends the
      number 200 on success and often a string such as "404" on failure; the
      field may also be missing. */
  datatype Cod = CodNumber(n: int) | CodText(text: string) | CodMissing

  /** `result.cod !== 200` is false: strict equality, so only the number 200
      is success and the string "200" is not. */
  predicate IsSuccess(cod: Cod)
  {
    cod.CodNumber? && cod.n == 200
  }

  /** The display fields of a response, handed to the presentation unchanged. */
  datatype Payload = Payload(fields: map<string, string>)

  /** A decoded response body: `cod`, `message`, the condition keyword
      `weather[0].main` (`None` when `weather` or its first entry is
      missing) and everything else. */
  datatype Response = Response(cod: Cod, message: Option<string>, main: Option<string>, payload: Payload)

  /** The `weather` state: the initial empty object, or a response. */
  datatype Weather = NoWeather | Loaded(result: Response)

  /** What a handler did towards the outside world. */
  datatype Effect = NoEffect | Alert(text: string) | Fetch(city: string)

  const MissingKeyAlert: string := "API key is missing! Please check your .env file."
  const CityNotFoundAlert: string := "City Not Found"
  const DefaultCity: string := "Aurangabad"

  /** `!apiKey` is false: the key is defined and not the empty string. */
  predicate HasApiKey(apiKey: Option<string>)
  {
    apiKey.Some? && apiKey.value != []
  }

  /** The alert for a response that is not a success:
      `result.message || "City Not Found"`. */
  function ErrorAlert(result: Response): (text: string)
    ensures text != []
    ensures result.message.Some? && result.message.value != [] ==> text == result.message.value
    ensures result.message.None? || result.message.value == [] ==> text == CityNotFoundAlert
  {
    match result.message
    case Some(m) => if m != [] then m else CityNotFoundAlert
    case None => CityNotFoundAlert
  }

  /** What `search(text)` does towards the outside: refuse the text with an
      alert, or hand the trimmed text to `fetchWeather`, which alerts when
      the key is missing and otherwise starts one request. */
  function SearchEffect(apiKey: Option<string>, text: string): (e: Effect)
    ensures e.Fetch? <==> Validate(text).Some? && HasApiKey(apiKey)
    ensures e.Fetch? ==> e.city == Trim(text) && e.city != []
    ensures Trim(text) == [] ==> e == Alert(InvalidCityAlert)
    ensures !e.Fetch? ==> e.Alert? && (e.text == InvalidCityAlert <==> Validate(text).None?)
  {
    match Validate(text)
    case None => Alert(InvalidCityAlert)
    case Some(city) => if HasApiKey(apiKey) then Fetch(city) else Alert(MissingKeyAlert)
  }

  /** The voice handler trims the transcript before `search` trims it again;
      the second trim changes nothing, so a spoken query has exactly the
      effect of the same text typed. */
  lemma VoiceSearchIsTypedSearch(apiKey: Option<string>, transcript: string)
    ensures SearchEffect(apiKey, Trim(transcript)) == SearchEffect(apiKey, transcript)
  {
    ValidateTrimmed(transcript);
  }

  class App {
    /** `import.meta.env.VITE_API_KEY`, fixed at build time. */
    const apiKey: Option<string>
    /** Whether the platform offers speech recognition, so that the
        recogniser exists once the component is mounted. */
    const hasRecognizer: bool
    /** The theme `setWeatherName` derives from a condition keyword and passes
        to `setName`. setWeatherName.js is not part of this model, so the
        mapping is a parameter. */
    const weatherName: string -> string

    var query: string
    var weather: Weather
    var name: string
    var loading: bool
    var listening: bool

    /** The weather on display is always a successful response. */
    ghost predicate Valid()
      reads this
    {
      weather.Loaded? ==> IsSuccess(weather.result.cod)
    }

    /** The initial state of the five `useState` hooks. */
    constructor (apiKey: Option<string>, hasRecognizer: bool, weatherName: string -> string)
      ensures this.apiKey == apiKey && this.hasRecognizer == hasRecognizer
      ensures this.weatherName == weatherName
      ensures query == [] && weather == NoWeather && name == []
      ensures !loading && !listening
      ensures Valid()
    {
      this.apiKey := apiKey;
      this.hasRecognizer := hasRecognizer;
      this.weatherName := weatherName;
      query := [];
      weather := NoWeather;
      name := [];
      loading := false;
      listening := false;
    }

    /** `fetchWeather(cityName)`: without a key, only an alert; otherwise
        `loading` becomes true and one request for `cityName` starts. */
    method FetchWeather(cityName: string) returns (e: Effect)
      requires Valid()
      modifies this`loading
      ensures Valid()
      ensures HasApiKey(apiKey) ==> loading && e == Fetch(cityName)
      ensures !HasApiKey(apiKey) ==> loading == old(loading) && e == Alert(MissingKeyAlert)
    {
      if !HasApiKey(apiKey) {
        e := Alert(MissingKeyAlert);
        return;
      }
      loading := true;
      e := Fetch(cityName);
    }

    /** The mount effect: one request for the default city. */
    method Mount() returns (e: Effect)
      requires Valid()
      modifies this`loading
      ensures Valid()
      ensures HasApiKey(apiKey) ==> loading && e == Fetch(DefaultCity)
      ensures !HasApiKey(apiKey) ==> loading == old(loading) && e == Alert(MissingKeyAlert)
    {
      e := FetchWeather(DefaultCity);
    }

    /** The input's `onChange`: the field holds what was typed. */
    method Type(text: string)
      requires Valid()
      modifies this`query
      ensures Valid()
      ensures query == text
    {
      query := text;
    }

    /** `search(searchQuery)`: a refused text clears the field; an accepted
        one leaves the field as it is and goes to `fetchWeather` trimmed. */
    method Search(searchQuery: string) returns (e: Effect)
      requires Valid()
      modifies this`query, this`loading
      ensures Valid()
      ensures e == SearchEffect(apiKey, searchQuery)
      ensures query == if Validate(searchQuery).None? then [] else old(query)
      ensures loading == (e.Fetch? || old(loading))
    {
      var trimmedQuery := Trim(searchQuery);
      if trimmedQuery == [] || JsNumber.IsIntegerParse(trimmedQuery) {
        e := Alert(InvalidCityAlert);
        query := [];
        return;
      }
      e := FetchWeather(trimmedQuery);
    }

    /** `handleKeyDown`: Enter searches for what is in the field. */
    method KeyDown(key: string) returns (e: Effect)
      requires Valid()
      modifies this`query, this`loading
      ensures Valid()
      ensures key != "Enter" ==> e == NoEffect && query == old(query) && loading == old(loading)
      ensures key == "Enter" ==> e == SearchEffect(apiKey, old(query))
      ensures key == "Enter" ==> query == if Validate(old(query)).None? then [] else old(query)
      ensures loading == (e.Fetch? || old(loading))
    {
      e := NoEffect;
      if key == "Enter" {
        e := Search(query);
      }
    }

    /** The Search button: the same path as Enter. */
    method Click() returns (e: Effect)
      requires Valid()
      modifies this`query, this`loading
      ensures Valid()
      ensures e == SearchEffect(apiKey, old(query))
      ensures query == if Validate(old(query)).None? then [] else old(query)
      ensures loading == (e.Fetch? || old(loading))
    {
      e := Search(query);
    }

    /** A response body arrived. On `cod === 200` the response is shown, the
        field cleared, loading ends and the theme follows the condition
        keyword; when that keyword is missing, reading it throws after the
        first three updates and the `catch` only ends loading again, so the
        theme stays. Otherwise the message (or "City Not Found") is
        alerted, loading ends, the field is cleared and the old weather
        stays on display. */
    method Complete(result: Response) returns (e: Effect)
      requires Valid()
      modifies this`weather, this`query, this`loading, this`name
      ensures Valid()
      ensures query == [] && !loading
      ensures !IsSuccess(result.cod) ==>
                e == Alert(ErrorAlert(result)) && weather == old(weather) && name == old(name)
      ensures IsSuccess(result.cod) ==> e == NoEffect && weather == Loaded(result)
      ensures IsSuccess(result.cod) ==>
                name == if result.main.Some? then weatherName(result.main.value) else old(name)
    {
      if !IsSuccess(result.cod) {
        e := Alert(ErrorAlert(result));
        loading := false;
        query := [];
      } else {
        e := NoEffect;
        weather := Loaded(result);
        query := [];
        loading := false;
        if result.main.Some? {
          name := weatherName(result.main.value);
        } else {
          // The TypeError lands in the `catch`, which logs it.
          loading := false;
        }
      }
    }

    /** The request or the decoding of its body failed: the `catch` only
        ends loading. */
    method Fail()
      requires Valid()
      modifies this`loading
      ensures Valid()
      ensures !loading
    {
      loading := false;
    }

    /** `startVoiceSearch`: the indicator turns on whether or not a
        recogniser exists; `started` says whether one was started. */
    method StartVoiceSearch() returns (started: bool)
      requires Valid()
      modifies this`listening
      ensures Valid()
      ensures listening
      ensures started == hasRecognizer
    {
      listening := true;
      started := hasRecognizer;
    }

    /** The recogniser's `onresult`: search for the trimmed transcript, then
        turn the indicator off, whatever the search did. */
    method VoiceResult(transcript: string) returns (e: Effect)
      requires Valid()
      modifies this`query, this`loading, this`listening
      ensures Valid()
      ensures !listening
      ensures e == SearchEffect(apiKey, transcript)
      ensures e.Fetch? ==> e.city == Trim(transcript)
      ensures query == if Validate(transcript).None? then [] else old(query)
      ensures loading == (e.Fetch? || old(loading))
    {
      var voiceQuery := Trim(transcript);
      e := Search(voiceQuery);
      VoiceSearchIsTypedSearch(apiKey, transcript);
      ValidateTrimmed(transcript);
      listening := false;
    }
  }
}
