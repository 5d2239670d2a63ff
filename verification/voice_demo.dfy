/** The voice-agent demo section (src/components/sections/VoiceDemo.tsx):
    the call button driven by the voice SDK's events, and the
    "build my demo" form that sends a website URL to the build webhook. The
    SDK and the webhook are outside the model: their answers are parameters. */
module VoiceDemo {
  import opened Optional

  // ------------------------------------------------------------ call button

  const MissingKeyMessage := "Configuration Error: VITE_VAPI_PUBLIC_KEY is missing."
  const SdkMissingMessage := "SDK Error: Vapi SDK not initialized."
  const MissingAssistantMessage :=
    "Configuration Error: VITE_VAPI_ASSISTANT_ID is missing. Please add it to Vercel environment variables."
  const ConnectionFailedMessage :=
    "Connection failed. Please check your microphone permissions and try again."
  const StartFailedFallback := "Failed to connect"

  /** What the module reads when it loads: the public key and assistant id
      from the environment ("" when unset), and whether the SDK object was
      built, which is only tried when there is a key. */
  datatype Config = Config(publicKey: string, sdkReady: bool, assistantId: string)
  {
    ghost predicate Valid() {
      sdkReady ==> publicKey != ""
    }
  }

  /** The first configuration problem `toggleCall` reports, in the order it
      checks: key, then SDK, then assistant id. */
  function ConfigProblem(config: Config): (problem: Option<string>)
    ensures problem == None <==> config.publicKey != "" && config.sdkReady && config.assistantId != ""
    ensures config.publicKey == "" ==> problem == Some(MissingKeyMessage)
    ensures config.publicKey != "" && !config.sdkReady ==> problem == Some(SdkMissingMessage)
    ensures problem.Some? ==> problem.value in {MissingKeyMessage, SdkMissingMessage, MissingAssistantMessage}
  {
    if config.publicKey == "" then Some(MissingKeyMessage)
    else if !config.sdkReady then Some(SdkMissingMessage)
    else if config.assistantId == "" then Some(MissingAssistantMessage)
    else None
  }

  /** What a press of the call button asks of the SDK. */
  datatype CallRequest = Refused | StopCall | StartCall(assistantId: string)

  /** How `vapi.start` settles: it resolves, or it throws an error whose
      `message` may be empty or missing (""). */
  datatype StartOutcome = StartResolved | StartThrew(message: string)

  /** The line under the button. */
  function StatusLine(error: Option<string>, connecting: bool, active: bool): (line: string)
    ensures error.Some? ==> line == error.value
    ensures error.None? ==> line in {"Connecting...", "Listening...", "Tap to start call"}
  {
    if error.Some? then error.value
    else if connecting then "Connecting..."
    else if active then "Listening..."
    else "Tap to start call"
  }

  class VoiceCall {
    const config: Config
    var isCallActive: bool
    var isConnecting: bool
    var volumeLevel: real
    var error: Option<string>

    /** A call is never both connecting and active. */
    ghost predicate Valid()
      reads this
    {
      config.Valid() && !(isCallActive && isConnecting)
    }

    function Status(): string
      reads this
    {
      StatusLine(error, isConnecting, isCallActive)
    }

    constructor (config: Config)
      requires config.Valid()
      ensures Valid() && this.config == config
      ensures !isCallActive && !isConnecting && volumeLevel == 0.0 && error == None
    {
      this.config := config;
      isCallActive, isConnecting, volumeLevel, error := false, false, 0.0, None;
    }

    /** `toggleCall`, up to the `await` of `vapi.start`. The button is
        disabled while connecting. A configuration problem is reported and
        nothing starts; an active call is only asked to stop; otherwise the
        widget shows it is connecting and asks for a call. */
    method ToggleCall() returns (request: CallRequest)
      requires Valid() && !isConnecting
      modifies this
      ensures Valid()
      ensures request == Refused <==> ConfigProblem(config).Some?
      ensures ConfigProblem(config).Some? ==>
                error == ConfigProblem(config) && isCallActive == old(isCallActive) && !isConnecting
      ensures request == StopCall <==> ConfigProblem(config).None? && old(isCallActive)
      ensures request == StopCall ==> isCallActive && !isConnecting && error == old(error)
      ensures request.StartCall? ==>
                request.assistantId == config.assistantId && isConnecting && !isCallActive && error == None
      ensures volumeLevel == old(volumeLevel)
    {
      var problem := ConfigProblem(config);
      if problem.Some? {
        error := problem;
        request := Refused;
      } else if isCallActive {
        request := StopCall;
      } else {
        isConnecting := true;
        error := None;
        request := StartCall(config.assistantId);
      }
    }

    /** The end of the `try` around `vapi.start`: a rejection stops the
        spinner and shows the error's message, or a fallback when it has
        none; a resolved start waits for the SDK's events. */
    method FinishStart(outcome: StartOutcome)
      requires Valid()
      modifies this
      ensures Valid()
      ensures outcome == StartResolved ==>
                isConnecting == old(isConnecting) && error == old(error)
      ensures outcome.StartThrew? ==>
                && !isConnecting
                && error == Some(if outcome.message != "" then outcome.message else StartFailedFallback)
      ensures isCallActive == old(isCallActive) && volumeLevel == old(volumeLevel)
    {
      if outcome.StartThrew? {
        isConnecting := false;
        error := Some(if outcome.message != "" then outcome.message else StartFailedFallback);
      }
    }

    /** The SDK's `call-start` event. */
    method OnCallStart()
      requires Valid()
      modifies this
      ensures Valid()
      ensures isCallActive && !isConnecting && error == None && volumeLevel == old(volumeLevel)
      ensures Status() == "Listening..."
    {
      isConnecting := false;
      isCallActive := true;
      error := None;
    }

    /** The SDK's `call-end` event. */
    method OnCallEnd()
      requires Valid()
      modifies this
      ensures Valid()
      ensures !isCallActive && !isConnecting && volumeLevel == 0.0 && error == old(error)
    {
      isCallActive := false;
      isConnecting := false;
      volumeLevel := 0.0;
    }

    /** The SDK's `volume-level` event. */
    method OnVolumeLevel(level: real)
      requires Valid()
      modifies this`volumeLevel
      ensures Valid() && volumeLevel == level
    {
      volumeLevel := level;
    }

    /** The SDK's `error` event. */
    method OnError()
      requires Valid()
      modifies this
      ensures Valid()
      ensures !isCallActive && !isConnecting && error == Some(ConnectionFailedMessage)
      ensures volumeLevel == old(volumeLevel)
      ensures Status() == ConnectionFailedMessage
    {
      isConnecting := false;
      isCallActive := false;
      error := Some(ConnectionFailedMessage);
    }
  }

  // ------------------------------------------------------- build-demo form

  const Https := "https://"
  const Http := "http://"
  const BuildingLabel := "Building..."
  const IdleLabel := "Build My Demo"
  const BuildFailedAlert := "Something went wrong starting the build. Please try again."
  const DemoTemplate := "https://w3-demo-template.vercel.app?bot="

  /** The test `/^https?:\/\//`: the text begins with `http://` or `https://`,
      in lower case. */
  predicate HasScheme(url: string) {
    Http <= url || Https <= url
  }

  /** The protocol fix: a URL without a scheme gets `https://` in front;
      nothing is trimmed or lower-cased. */
  function NormalizeUrl(url: string): (r: string)
    ensures HasScheme(r)
    ensures HasScheme(url) ==> r == url
    ensures r == url || r == Https + url
  {
    if HasScheme(url) then url else Https + url
  }

  /** Normalising twice is normalising once. */
  lemma NormalizeIdempotent(url: string)
    ensures NormalizeUrl(NormalizeUrl(url)) == NormalizeUrl(url)
  {
  }

  /** The typed text always survives at the end of the normalised URL. */
  lemma NormalizeKeepsText(url: string)
    ensures var r := NormalizeUrl(url); |r| >= |url| && r[|r| - |url|..] == url
  {
    var r := NormalizeUrl(url);
    if r != url {
      assert r[|r| - |url|..] == (Https + url)[|Https|..];
    }
  }

  /** The test is case-sensitive and does not trim: text starting with
      anything but a lower-case 'h' (an upper-case letter, a space) always
      gets the prefix, even when a scheme follows. */
  lemma NormalizeIsLiteral(url: string)
    requires |url| > 0 && url[0] != 'h'
    ensures NormalizeUrl(url) == Https + url
  {
    assert !(Http <= url) by {
      if |Http| <= |url| {
        assert url[..|Http|][0] == url[0] != Http[0];
      }
    }
    assert !(Https <= url) by {
      if |Https| <= |url| {
        assert url[..|Https|][0] == url[0] != Https[0];
      }
    }
  }

  /** What the build webhook answers: a JSON body with possibly a `status`
      and an `assistant_id`, or a failure to fetch or to read the body. */
  datatype BuildResponse =
    | Reply(status: Option<string>, assistantId: Option<string>)
    | RequestFailed

  /** Only `status === 'success'` with a non-empty assistant id is a build. */
  function BuiltAssistant(response: BuildResponse): (id: Option<string>)
    ensures id.Some? <==> response.Reply? && response.status == Some("success")
                          && response.assistantId.Some? && response.assistantId.value != ""
    ensures id.Some? ==> id == response.assistantId
  {
    if response.Reply? && response.status == Some("success")
       && response.assistantId.Some? && response.assistantId.value != ""
    then response.assistantId
    else None
  }

  class BuildForm {
    var buttonLabel: string
    var buttonDisabled: bool
    var location: Option<string>
    var alert: Option<string>

    /** Once the page is sent to the demo, the button stays disabled. */
    ghost predicate Valid()
      reads this
    {
      (location.Some? ==> buttonDisabled) && (buttonDisabled ==> buttonLabel == BuildingLabel)
    }

    constructor ()
      ensures Valid()
      ensures buttonLabel == IdleLabel && !buttonDisabled && location == None && alert == None
    {
      buttonLabel, buttonDisabled, location, alert := IdleLabel, false, None, None;
    }

    /** The form's submit handler, up to the webhook call: an empty URL
        does nothing; otherwise the normalised URL is sent and the button
        shows that the build is under way. */
    method Submit(url: string) returns (sent: Option<string>)
      requires Valid() && !buttonDisabled
      modifies this
      ensures Valid()
      ensures url == "" ==> sent == None && buttonLabel == old(buttonLabel) && !buttonDisabled
      ensures url != "" ==> sent == Some(NormalizeUrl(url)) && buttonLabel == BuildingLabel && buttonDisabled
      ensures location == old(location) && alert == old(alert)
    {
      if url == "" {
        return None;
      }
      var normalized := NormalizeUrl(url);
      buttonLabel := BuildingLabel;
      buttonDisabled := true;
      sent := Some(normalized);
    }

    /** The webhook's answer: a built assistant sends the page to the demo
        template for it; anything else alerts and re-enables the button. */
    method FinishBuild(response: BuildResponse)
      requires Valid() && buttonDisabled && location == None
      modifies this
      ensures Valid()
      ensures BuiltAssistant(response).Some? ==>
                location == Some(DemoTemplate + BuiltAssistant(response).value)
                && buttonDisabled && alert == old(alert)
      ensures BuiltAssistant(response).None? ==>
                location == None && !buttonDisabled && buttonLabel == IdleLabel
                && alert == Some(BuildFailedAlert)
    {
      var built := BuiltAssistant(response);
      if built.Some? {
        location := Some(DemoTemplate + built.value);
      } else {
        alert := Some(BuildFailedAlert);
        buttonLabel := IdleLabel;
        buttonDisabled := false;
      }
    }
  }
}
