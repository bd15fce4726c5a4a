/** Everything the assistant says or builds from what it heard: the fixed replies, the
    search query and URL, the email message and its delivery report, and the weather
    request and report. These are the expression-level decisions inside the handlers. */
module Messages {

  import opened Options
  import opened Text

  // ---------------------------------------------------------------------------
  // What is spoken
  // ---------------------------------------------------------------------------

  /** Every kind of sentence the assistant speaks, with the parts that vary. */
  datatype Message =
    | NamePrompt                                          // get_user_name
    | Welcome(name: string)                               // welcome_statement
    | HelpOffer(name: string)                             // main, before the loop
    | Bye                                                 // the farewell
    | Capabilities(name: string)                          // the fallback for an unrecognised command
    | HelloReply(name: string)                            // respond_to_greeting, first branch
    | SelfIntroduction                                    // respond_to_greeting, second branch
    | UnsureReply(name: string)                           // respond_to_greeting, third branch
    | TimeReport(name: string, time: string)
    | DateReport(name: string, date: string)
    | Results(name: string, query: string)
    | NoQuery
    | SubjectPrompt(name: string)
    | BodyPrompt
    | EmailSent
    | EmailFailed(error: string)
    | CityPrompt(name: string)
    | NoKey
    | NoCity
    | WeatherSentence(city: string, temp: string, description: string)
    | NotAvailable

  /** The exact wording spoken for each message. */
  function Wording(m: Message): string
  {
    match m
    case NamePrompt => "May I know your name?"
    case Welcome(name) =>
      "Welcome " + name + " to your personal voice assistant! I'm here to make your life easier and more convenient."
    case HelpOffer(name) => name + ", how can I help you?"
    case Bye => "Goodbye!"
    case Capabilities(name) =>
      name + ", I can perform tasks like telling the time, date, searching the web, sending emails, and providing weather updates."
    case HelloReply(name) => "Hello, " + name + "! How can I assist you today?"
    case SelfIntroduction => "I am your voice assistant."
    case UnsureReply(name) => "Hello, " + name + "! I'm not sure how to respond to that."
    case TimeReport(name, time) => name + ", the current time is " + time
    case DateReport(name, date) => name + ", today's date is " + date
    case Results(name, query) => name + ", here are the results for " + query
    case NoQuery => "Sorry, I didn't catch the search query."
    case SubjectPrompt(name) => name + ", what is the subject of the email?"
    case BodyPrompt => "What is the message?"
    case EmailSent => "Email has been sent successfully."
    case EmailFailed(error) => "Failed to send email. Error: " + error
    case CityPrompt(name) => name + ", which city's weather would you like to know?"
    case NoKey => "Weather API key not found. Please check your environment variables."
    case NoCity => "Please specify a city."
    case WeatherSentence(city, temp, description) =>
      "The temperature in " + city + " is " + temp + " degrees Celsius with " + description + "."
    case NotAvailable => "Weather information not available for this city."
  }

  /** The reply to a greeting. It tests the stored user name, not the command that
      triggered it, so "hello" in the command alone does not select the first reply. */
  function GreetingReply(name: string): (m: Message)
    ensures m == HelloReply(name) <==> Contains(name, "hello")
    ensures m == SelfIntroduction <==> !Contains(name, "hello") && Contains(name, "what is your name")
    ensures m == UnsureReply(name) <==> !Contains(name, "hello") && !Contains(name, "what is your name")
  {
    if Contains(name, "hello") then HelloReply(name)
    else if Contains(name, "what is your name") then SelfIntroduction
    else UnsureReply(name)
  }

  /** The three greeting replies read differently, so the words spoken tell which test on
      the name succeeded. */
  lemma GreetingWordingsDiffer(name: string)
    ensures Wording(HelloReply(name)) != Wording(SelfIntroduction)
    ensures Wording(HelloReply(name)) != Wording(UnsureReply(name))
    ensures Wording(UnsureReply(name)) != Wording(SelfIntroduction)
  {
    var a := Wording(HelloReply(name));
    var c := Wording(UnsureReply(name));
    assert a[|a| - 2] == 'y' && c[|c| - 2] == 't';
    assert a[0] == 'H' && c[0] == 'H';
    assert Wording(SelfIntroduction)[0] == 'I';
  }

  // ---------------------------------------------------------------------------
  // Web search
  // ---------------------------------------------------------------------------

  /** `command.replace("search", "").strip()`. */
  function SearchQuery(command: string): string
  {
    Strip(RemoveAll(command, "search"))
  }

  /** The query is no longer than the command and has no whitespace at either end; it is empty
      exactly when what is left after deleting "search" is all whitespace. */
  lemma SearchQuerySpec(command: string)
    ensures var q := SearchQuery(command);
      |q| <= |command| && (q == [] || (!IsSpace(q[0]) && !IsSpace(q[|q| - 1]))) &&
      (q == [] <==> AllSpace(RemoveAll(command, "search")))
  {
    var rest := RemoveAll(command, "search");
    StripSpec(rest);
    var i :| TrimmedAt(rest, Strip(rest), i);
  }

  const SearchBase := "https://www.google.com/search?q="

  /** The page opened for a query; the query is inserted as it is, without URL encoding. */
  function SearchUrl(query: string): (url: string)
    ensures SearchBase <= url && url[|SearchBase|..] == query
  {
    SearchBase + query
  }

  // ---------------------------------------------------------------------------
  // Email
  // ---------------------------------------------------------------------------

  /** The fixed placeholder recipient. */
  const Recipient := "recipient@example.com"

  const HeaderTag := "Subject: "

  const Separator := "\n\n"

  /** The message handed to the mail transport: a `Subject:` header line, a blank line, then the body. */
  function ComposeEmail(subject: string, body: string): string
  {
    HeaderTag + subject + Separator + body
  }

  /** How a reader of the message recovers its parts: the header tag, then everything up to the
      first blank line is the subject and everything after it the body. */
  function ParseEmail(message: string): Option<(string, string)>
  {
    if !(HeaderTag <= message) then None
    else
      var rest := message[|HeaderTag|..];
      match IndexOf(rest, Separator)
      case None => None
      case Some(k) => Some((rest[..k], rest[k + |Separator|..]))
  }

  /** A subject without a line break survives the trip through the message unchanged, and so does the body. */
  lemma ComposeParseRoundTrip(subject: string, body: string)
    requires '\n' !in subject
    ensures ParseEmail(ComposeEmail(subject, body)) == Some((subject, body))
  {
    var m := ComposeEmail(subject, body);
    var rest := subject + Separator + body;
    assert HeaderTag <= m && m[|HeaderTag|..] == rest;
    assert rest[|subject|..|subject| + 2] == Separator;
    forall j | 0 <= j < |subject| ensures !OccursAt(rest, Separator, j) {
      assert rest[j] == subject[j];
    }
    IndexOfFirst(rest, Separator, |subject|);
    assert rest[..|subject|] == subject;
    assert rest[|subject| + 2..] == body;
  }

  /** Whatever parses was composed: the parts put back together give the message itself. */
  lemma ParseComposeRoundTrip(message: string, subject: string, body: string)
    requires ParseEmail(message) == Some((subject, body))
    ensures ComposeEmail(subject, body) == message
  {
    var rest := message[|HeaderTag|..];
    assert HeaderTag <= message;
    var k := IndexOf(rest, Separator).value;
    assert rest[k..k + 2] == Separator;
    assert rest == subject + Separator + body;
    assert message == HeaderTag + rest;
  }

  /** The subject read back from a message never holds a blank line: it stops at the first one. */
  lemma ParsedSubjectHasNoBlankLine(message: string, subject: string, body: string)
    requires ParseEmail(message) == Some((subject, body))
    ensures !Contains(subject, Separator)
  {
    var rest := message[|HeaderTag|..];
    var k := IndexOf(rest, Separator).value;
    assert subject == rest[..k];
    ContainsIff(subject, Separator);
    forall j | 0 <= j && j + 2 <= |subject| ensures !OccursAt(subject, Separator, j) {
      assert subject[j..j + 2] == rest[j..j + 2];
      assert OccursAt(subject, Separator, j) == OccursAt(rest, Separator, j);
    }
  }

  /** What the mail transport reports: delivery, or the text of the exception it raised. */
  datatype SendOutcome = Sent | SendFailed(error: string)

  /** The one sentence spoken after an attempt to send: the confirmation exactly when the
      transport delivered, and otherwise the failure with the error's text. */
  function DeliveryReport(outcome: SendOutcome): (m: Message)
    ensures m == EmailSent <==> outcome.Sent?
    ensures m.EmailFailed? <==> outcome.SendFailed?
    ensures outcome.SendFailed? ==> m == EmailFailed(outcome.error)
  {
    match outcome
    case Sent => EmailSent
    case SendFailed(e) => EmailFailed(e)
  }

  // ---------------------------------------------------------------------------
  // Weather
  // ---------------------------------------------------------------------------

  const WeatherBase := "http://api.openweathermap.org/data/2.5/weather?"

  function WeatherUrl(city: string, key: string): string
  {
    WeatherBase + "q=" + city + "&appid=" + key + "&units=metric"
  }

  /** What the weather handler does before any data arrives: refuse with a message, or fetch a URL. */
  datatype Request = Refuse(message: Message) | Fetch(url: string)

  /** The guards of the weather handler, in their order: the key first, then the city. A
      request is made exactly when both are present, and then for the metric report on that city. */
  function WeatherRequest(apiKey: Option<string>, city: Option<string>): (r: Request)
    ensures apiKey.None? ==> r == Refuse(NoKey)
    ensures apiKey.Some? && city.None? ==> r == Refuse(NoCity)
    ensures r.Fetch? <==> apiKey.Some? && city.Some?
    ensures r.Fetch? ==> r.url == WeatherUrl(city.value, apiKey.value)
  {
    if apiKey.None? then Refuse(NoKey)
    else if city.None? then Refuse(NoCity)
    else Fetch(WeatherUrl(city.value, apiKey.value))
  }

  /** The `temp` entry of the `main` section, as the text it prints as, if present. */
  datatype MainSection = MainSection(temp: Option<string>)

  /** One entry of the `weather` list: its `description`, if present. */
  datatype Condition = Condition(description: Option<string>)

  /** The decoded response: which of the two top-level keys are present, and what they hold. */
  datatype WeatherData = WeatherData(main: Option<MainSection>, weather: Option<seq<Condition>>)

  /** The sentence spoken for a response, or None where the lookup raises an exception: an empty
      `weather` list, or a missing `temp` or `description` once both sections are present. */
  function WeatherReport(city: string, data: WeatherData): (r: Option<Message>)
    ensures data.main.None? || data.weather.None? ==> r == Some(NotAvailable)
    ensures r.None? <==> (data.main.Some? && data.weather.Some? &&
      (|data.weather.value| == 0 || data.main.value.temp.None? || data.weather.value[0].description.None?))
    ensures r.Some? && data.main.Some? && data.weather.Some? ==>
      r == Some(WeatherSentence(city, data.main.value.temp.value, data.weather.value[0].description.value))
  {
    if data.main.Some? && data.weather.Some? then
      var conditions := data.weather.value;
      if |conditions| == 0 || data.main.value.temp.None? || conditions[0].description.None? then None
      else Some(WeatherSentence(city, data.main.value.temp.value, conditions[0].description.value))
    else Some(NotAvailable)
  }

}
