/** The example handlers shipped with the library: the greeting and weather
    tools and the greeting and code-review prompts, each a pure string builder.
    The two tools and the code-review reply have readers that recover from the
    text every argument that affects it (the greeting cannot tell an absent
    `formal` from false, and neither does the tool). The greeting prompt is
    tied to the greeting tool instead, and the code-review opening states where
    the language sits in its text. */
module ExampleTools {
  import opened Wrappers
  import opened Entities
  import opened Strings

  /** One item of a tool's result content. */
  datatype ContentItem = Text(text: string)

  /** The error type the tools may throw (they never do). */
  datatype ToolError = ToolError(message: string)

  // ---------------------------------------------------------------- greet

  /** The greeting tool's arguments; `formal` may be absent. */
  datatype GreetingParameters = GreetingParameters(name: string, formal: Option<bool>)

  const FormalOpening: string := "Good day, "
  const InformalOpening: string := "Hey "

  /** `GreetingTool.call(with:)`: exactly one text item, never an error; only
      `formal == true` selects the formal greeting, absent and false agree. */
  function GreetingCall(args: GreetingParameters): (r: Result<seq<ContentItem>, ToolError>)
    ensures r.Success? && |r.value| == 1
    ensures args.formal == Some(true) ==> r.value[0].text == FormalOpening + args.name + "."
    ensures args.formal != Some(true) ==> r.value[0].text == InformalOpening + args.name + "!"
  {
    var greeting := if args.formal == Some(true) then FormalOpening + args.name + "." else InformalOpening + args.name + "!";
    Success([Text(greeting)])
  }

  /** Reads a greeting back as (name, formal). */
  function ParseGreeting(text: string): Option<(string, bool)>
  {
    if StartsWith(text, FormalOpening) && EndsWith(text, ".") && |FormalOpening| + 1 <= |text| then
      Some((text[|FormalOpening|..|text| - 1], true))
    else if StartsWith(text, InformalOpening) && EndsWith(text, "!") && |InformalOpening| + 1 <= |text| then
      Some((text[|InformalOpening|..|text| - 1], false))
    else None
  }

  /** The greeting embeds the name verbatim and tells the two styles apart. */
  lemma GreetingRoundTrip(args: GreetingParameters)
    ensures ParseGreeting(GreetingCall(args).value[0].text) == Some((args.name, args.formal == Some(true)))
  {
  }

  /** Different arguments that are not merely absent-versus-false give
      different greetings. */
  lemma GreetingInjective(a: GreetingParameters, b: GreetingParameters)
    requires GreetingCall(a) == GreetingCall(b)
    ensures a.name == b.name && (a.formal == Some(true) <==> b.formal == Some(true))
  {
    GreetingRoundTrip(a);
    GreetingRoundTrip(b);
  }

  // ---------------------------------------------------------------- get_weather

  datatype TemperatureUnit = Celsius | Fahrenheit

  /** The weather tool's arguments; `unit` may be absent. */
  datatype WeatherParameters = WeatherParameters(location: string, unit: Option<TemperatureUnit>)

  const WeatherOpening: string := "Weather in "
  const CelsiusReport: string := ": 22°C, Sunny"
  const FahrenheitReport: string := ": 72°F, Sunny"

  /** `WeatherTool.call(with:)`: one text item, never an error; an absent unit
      means Celsius. */
  function WeatherCall(args: WeatherParameters): (r: Result<seq<ContentItem>, ToolError>)
    ensures r.Success? && |r.value| == 1
    ensures args.unit != Some(Fahrenheit) ==> r.value[0].text == WeatherOpening + args.location + CelsiusReport
    ensures args.unit == Some(Fahrenheit) ==> r.value[0].text == WeatherOpening + args.location + FahrenheitReport
  {
    var unit := args.unit.GetOr(Celsius);
    var temp := if unit == Celsius then "22°C" else "72°F";
    var text := "Weather in " + args.location + ": " + temp + ", Sunny";
    assert text == WeatherOpening + args.location + (": " + temp + ", Sunny");
    assert args.unit != Some(Fahrenheit) ==> unit == Celsius && ": " + temp + ", Sunny" == CelsiusReport;
    assert args.unit == Some(Fahrenheit) ==> ": " + temp + ", Sunny" == FahrenheitReport;
    Success([Text(text)])
  }

  /** Reads a weather report back as (location, unit). */
  function ParseWeather(text: string): Option<(string, TemperatureUnit)>
  {
    if !StartsWith(text, WeatherOpening) || |text| < |WeatherOpening| + |CelsiusReport| then None
    else
      var location := text[|WeatherOpening|..|text| - |CelsiusReport|];
      if EndsWith(text, CelsiusReport) then Some((location, Celsius))
      else if EndsWith(text, FahrenheitReport) then Some((location, Fahrenheit))
      else None
  }

  /** The report embeds the location verbatim and the unit, absent read as Celsius. */
  lemma WeatherRoundTrip(args: WeatherParameters)
    ensures ParseWeather(WeatherCall(args).value[0].text) == Some((args.location, args.unit.GetOr(Celsius)))
  {
  }

  // ---------------------------------------------------------------- greeting prompt

  /** The greeting prompt's arguments. */
  datatype GreetingPromptArguments = GreetingPromptArguments(name: string, formal: Option<bool>)

  /** `GreetingPrompt.getMessages`: a user message setting the scene, then an
      assistant message opening the conversation. */
  function GreetingMessages(args: GreetingPromptArguments): (ms: seq<Message>)
    ensures |ms| == 2 && ms[0].role == User && ms[1].role == Assistant
    ensures args.formal == Some(true) ==>
      ms[0].text == "You are a formal assistant helping " + args.name + "."
      && ms[1].text == "Good day, " + args.name + ". How may I assist you today?"
    ensures args.formal != Some(true) ==>
      ms[0].text == "You are a friendly assistant helping " + args.name + "."
      && ms[1].text == "Hey " + args.name + "! What can I help you with?"
  {
    if args.formal == Some(true) then
      [Message(User, "You are a formal assistant helping " + args.name + "."),
       Message(Assistant, "Good day, " + args.name + ". How may I assist you today?")]
    else
      [Message(User, "You are a friendly assistant helping " + args.name + "."),
       Message(Assistant, "Hey " + args.name + "! What can I help you with?")]
  }

  /** The prompt's assistant opening begins with exactly the text the greeting
      tool returns for the same name and style. */
  lemma PromptOpensWithToolGreeting(args: GreetingPromptArguments)
    ensures StartsWith(GreetingMessages(args)[1].text,
                       GreetingCall(GreetingParameters(args.name, args.formal)).value[0].text)
  {
  }

  // ---------------------------------------------------------------- code review prompt

  /** The code-review prompt's arguments. */
  datatype CodeReviewArguments = CodeReviewArguments(language: string, focusAreas: Option<string>)

  const FocusLead: string := ", with focus on "

  /** The fixed text the assistant message starts with, up to the focus clause. */
  function ReviewHead(language: string): string
  {
    "I understand. Please share the " + language + " code you'd like me to review"
  }

  /** The first message of `CodeReviewPrompt.getMessages`: a user message
      naming the language. */
  function CodeReviewOpening(args: CodeReviewArguments): (m: Message)
    ensures m.role == User
    ensures StartsWith(m.text, "You are an expert ") && EndsWith(m.text, " code reviewer.")
    ensures |m.text| == |"You are an expert "| + |args.language| + |" code reviewer."|
    ensures m.text[|"You are an expert "|..|m.text| - |" code reviewer."|] == args.language
  {
    var text := "You are an expert " + args.language + " code reviewer.";
    assert text[..|"You are an expert "|] == "You are an expert ";
    assert text[|text| - |" code reviewer."|..] == " code reviewer.";
    Message(User, text)
  }

  /** The last message of `CodeReviewPrompt.getMessages`: an assistant message
      that mentions the focus areas only when they are given. */
  function CodeReviewReply(args: CodeReviewArguments): (m: Message)
    ensures m.role == Assistant && StartsWith(m.text, ReviewHead(args.language))
    ensures args.focusAreas.None? ==> EndsWith(m.text, "review.")
    ensures args.focusAreas.Some? ==> EndsWith(m.text, FocusLead + args.focusAreas.value + ".")
  {
    var focus := if args.focusAreas.Some? then ", with focus on " + args.focusAreas.value else "";
    var text := "I understand. Please share the " + args.language + " code you'd like me to review" + focus + ".";
    assert text == ReviewHead(args.language) + (focus + ".");
    assert text[..|ReviewHead(args.language)|] == ReviewHead(args.language);
    assert text[|text| - |focus + "."|..] == focus + ".";
    assert args.focusAreas.None? ==> text[|text| - |"review."|..] == "review.";
    Message(Assistant, text)
  }

  /** Reads the focus areas back from the assistant message, given the
      language; `None` when the text is not such a message. */
  function ParseFocus(language: string, text: string): Option<Option<string>>
  {
    var head := ReviewHead(language);
    if !StartsWith(text, head) || !EndsWith(text, ".") || |text| < |head| + 1 then None
    else
      var middle := text[|head|..|text| - 1];
      if middle == "" then Some(None)
      else if StartsWith(middle, FocusLead) then Some(Some(middle[|FocusLead|..]))
      else None
  }

  /** The assistant message carries the focus areas exactly: absent gives no
      focus clause, present gives that very text. */
  lemma CodeReviewFocusRoundTrip(args: CodeReviewArguments)
    ensures ParseFocus(args.language, CodeReviewReply(args).text) == Some(args.focusAreas)
  {
  }
}
