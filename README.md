# Voice assistant: command interpretation and dispatch

A model of the decision logic in `voice.py`, a small spoken personal assistant. It models:

- the startup, which asks for the user's name, welcomes them and offers help;
- the `while True` dialogue loop, which hears a command and classifies it by keyword in a fixed first-match order;
- the handlers:
  - the greeting;
  - time or date;
  - web search;
  - email;
  - weather;
  - the capabilities fallback.

Speech recognition and synthesis are abstract. The recognised utterances are a scripted sequence `script`. `listen` returns the next one. `speak` and every outside request are appended to a trace of `Event`s. The outside requests are opening the browser, sending mail and fetching the weather. The model proves properties of that trace:

- exactly one message is spoken;
- nothing is fetched;
- exactly two utterances are consumed;
- "Goodbye!" comes last.

Modules, in dependency order:

- `Options`: the `Option` type.
- `Text`: Python's `pat in s`, `s.replace(pat, "")` and `s.strip()` on `seq<char>`.
  - `replace` is a single left-to-right pass.
  - `strip` uses the code points that `str.isspace` accepts.
- `Intents`: the `if`/`elif` chain of `main`.
  - It is written as the chain itself (`Chain`) and as a walk over an ordered keyword table (`Classify`).
  - The two are proved equal.
- `Messages`: the pure decisions inside the handlers:
  - every sentence spoken, as a `Message` value with its exact wording;
  - the greeting choice;
  - the search query and URL;
  - composing the email message, and a reader for it;
  - the delivery report;
  - the weather guards, the request URL and the report.
- `Handlers`: the specification of behaviour as pure functions.
  - What each handler does, as events plus the number of utterances consumed.
  - One pass of the loop (`Turn`).
  - The loop over a whole input (`Loop`, `LoopFrom`) and a whole `Session`.
  - Lemmas about turns and sessions.
- `Assistant`: a class `Assistant` with the input (`script`), the environment (`env`), the input cursor (`pos`) and the trace (`trace`).
  - Each Python function is one method that updates `pos` and `trace` step by step.
  - Each method is proved to do exactly what its `Handlers` function describes.
  - `Converse` is the `while True` loop.
  - `Run` is `main` and is proved to produce `Session(script, env)`.

What lies outside the core is a parameter, the `Env` datatype:

- `apiKey`: the configured weather key.
- `clock(p)`: the formatted time and date while the command at position `p` is answered.
- `mail(p, to, message)`: the transport, given the moment `p` of the call as the number of utterances heard so far. It returns `Sent`, or `SendFailed(error)` with the text of the exception.
- `weather(p, url)`: the JSON response at moment `p` as a `WeatherData`, or `None` where the request or decoding raises.

An exception that escapes the loop becomes the session status `Crashed`. `main` has no `try`, so such an exception ends the program here.

Some behaviour of the code is easy to misread; the model does what the code does:

- The greeting reply tests the stored user name, not the command.
- A command with both "time" and "date" speaks only the time.
- An empty capture is not re-prompted silently. It reaches the capabilities fallback.
- The search query is not URL-encoded.
- Several weather failures propagate instead of being spoken:
  - the request or decoding fails;
  - the `weather` list is empty;
  - `main` has no `temp`;
  - the first condition has no `description`.
- The city guard tests `None`, not the empty string. An empty city is fetched.
- `replace` deletes occurrences in one pass, so the query can still contain "search" (`RemovalCanExposeWord`).

## Model

| member | source | states |
|---|---|---|
| Text.ContainsIff | voice.py:136-148 | the scanning `Contains` used for every `in` test holds exactly when the word occurs at some index, in both directions |
| Text.RemoveAll | voice.py:71 | `replace(pat, "")` never lengthens the string |
| Text.RemoveAllIsRepeatedFind | voice.py:71 | `replace(pat, "")` keeps the text before the first occurrence found by `find`, drops that occurrence and goes on after it; with no occurrence the string is kept whole |
| Text.RemoveAllAtFirst | voice.py:71 | everything before the first occurrence of the word survives the deletion and that occurrence is dropped |
| Text.RemoveAllWithout | voice.py:71 | a command in which the word is not found is left unchanged |
| Text.RemoveAllUnchangedIff | voice.py:71 | deleting "search" leaves the command unchanged if and only if it does not contain the word |
| Text.RemovalCanExposeWord | voice.py:71 | one pass of deletion is not a fixpoint: "sesearcharch" becomes "search", which still contains the word |
| Text.StripLeftSpec | voice.py:71 | `lstrip` yields the longest suffix that does not start with whitespace; everything cut is whitespace |
| Text.StripRightSpec | voice.py:71 | `rstrip` yields the longest prefix that does not end with whitespace; everything cut is whitespace |
| Text.StripSpec | voice.py:71 | `strip` yields a block of the input with whitespace-only blocks cut from both ends; the result is empty exactly when the input is all whitespace, and otherwise has non-space ends |
| Intents.ClassifyCases | voice.py:136-150 | each intent is chosen exactly when its own keywords occur and those of every earlier branch do not (seven if-and-only-ifs) |
| Intents.ClassifyIsChain | voice.py:136-150 | the table-driven classifier agrees with the `if`/`elif` chain as written on every command |
| Intents.FirstMatchIsEarliest | voice.py:136-148 | the rule table is evaluated strictly first-match: the earliest rule that fires decides, whatever later rules would fire |
| Intents.FirstMatchFallsBack | voice.py:149-150 | a command that fires no rule gets the fallback |
| Intents.ShadowedKeywords | voice.py:136-148 | exit beats everything; search beats weather; time beats search; a greeting beats email |
| Intents.EmptyCommandExample | voice.py:149-150 | the empty capture matches no rule and is unrecognised |
| Messages.GreetingReply | voice.py:53-59 | the reply is the hello reply exactly when the name contains "hello", the self-introduction exactly when it contains "what is your name" but not "hello", and otherwise the unsure reply |
| Messages.GreetingWordingsDiffer | voice.py:55-59 | the three greeting replies have pairwise different wordings |
| Messages.SearchQuerySpec | voice.py:71-72 | the query is no longer than the command and has no whitespace at either end; it is empty exactly when what is left after deleting "search" is all whitespace |
| Messages.SearchUrl | voice.py:73 | the URL is the Google search prefix followed by the query, unencoded |
| Messages.ComposeParseRoundTrip | voice.py:83 | a subject without a line break and any body are read back unchanged from the composed `Subject:` message |
| Messages.ParseComposeRoundTrip | voice.py:83 | every message that reads as a subject and a body is exactly the composition of those parts |
| Messages.ParsedSubjectHasNoBlankLine | voice.py:83 | the subject read back never contains the blank-line separator |
| Messages.DeliveryReport | voice.py:86-88 | the success sentence is spoken exactly when the transport delivered; otherwise the failure sentence is spoken with the error's text |
| Messages.WeatherRequest | voice.py:99-111 | no key refuses with the key message; a key and no city refuses with the city message; a fetch happens exactly when both are present, for the metric report URL on that city and key |
| Messages.WeatherReport | voice.py:115-122 | either top-level key missing gives "not available"; with both present, the lookup raises exactly when the list is empty or `temp` or `description` is missing; otherwise the sentence carries the city, the temperature and the first description |
| Handlers.EmailStep | voice.py:90-96 | the email dialogue never consumes beyond the input |
| Handlers.WeatherStep | voice.py:124-127 | the weather dialogue never consumes beyond the input |
| Handlers.Handle | voice.py:136-150 | the handler chosen for a command consumes only input that is there |
| Handlers.Turn | voice.py:133-150 | a pass of the loop consumes at least its command and stays within the input |
| Handlers.EmailStepHears | voice.py:91-94 | the email dialogue hears exactly the next utterances it consumes, subject first |
| Handlers.WeatherStepHears | voice.py:125-127 | the weather dialogue hears exactly the one next utterance it consumes |
| Handlers.HandleHears | voice.py:136-150 | every handler hears exactly the utterances after the command that it consumes, in order |
| Handlers.TurnHears | voice.py:134-150 | a pass hears its command and then exactly the utterances it consumes, in order |
| Handlers.HandleFarewell | voice.py:136-138 | a handler ends the session with a farewell exactly when the intent is the farewell, saying "Goodbye!" alone |
| Handlers.HandleNoKey | voice.py:101-103 | without a key no handler requests weather data |
| Handlers.TurnGoodbye | voice.py:136-138 | a pass that ends with a farewell hears the command and says "Goodbye!", nothing else |
| Handlers.TurnNoKey | voice.py:101-103 | without a key no pass requests weather data |
| Handlers.FarewellTurn | voice.py:136-138 | a pass ends with a farewell if and only if the command contains "exit" or "stop", and then its events are hearing the command and "Goodbye!" |
| Handlers.TurnContinues | voice.py:136-150 | only the weather handler can raise; only the email and weather handlers can run out of input; every other non-exit command returns to listening |
| Handlers.EmptyCommandTurn | voice.py:149-150 | an empty capture gets the capabilities message and the loop continues |
| Handlers.GreetingTurn | voice.py:139-140 | every greeting command gets the reply chosen by the stored name alone |
| Handlers.TimeOrDateTurn | voice.py:61-67 | exactly one message is spoken: the time whenever "time" is present, even with "date", and otherwise the date |
| Handlers.SearchTurn | voice.py:69-76 | a non-empty query opens the results page and confirms; an empty one only apologises; the browser opens if and only if the query is non-empty |
| Handlers.EmailTurn | voice.py:90-96 | the email command consumes exactly the next two utterances, subject then body; it sends their composition once to the fixed recipient and speaks exactly one report |
| Handlers.WeatherTurn | voice.py:98-127 | the weather command consumes exactly one more utterance as the city; without a key it speaks the key message and never fetches; with one it fetches that city's URL and speaks the report, or the session ends in an exception |
| Handlers.CityAlwaysGiven | voice.py:107-108 | the "Please specify a city." branch is unreachable from the loop |
| Handlers.ExitEndsLoop | voice.py:133-138 | a farewell command ends the loop at once; nothing after it is heard |
| Handlers.LoopGoodbyeIsLast | voice.py:133-138 | if every pass that ends with a farewell ends with "Goodbye!", so does a loop that ends with a farewell |
| Handlers.PassesEndWithBye | voice.py:136-138 | every pass of the dialogue loop that ends with a farewell ends with "Goodbye!" |
| Handlers.GoodbyeIsLast | voice.py:129-138 | a session that ends with a farewell has "Goodbye!" as its last event |
| Handlers.LoopHearsInOrder | voice.py:133-134 | if each pass hears exactly the block it consumes, the loop hears a contiguous block of the input from its start |
| Handlers.StartupHears | voice.py:130-132 | the opening hears the name and nothing else |
| Handlers.PassesHear | voice.py:133-150 | every pass of the dialogue loop hears exactly the block of the input it consumes |
| Handlers.SessionHearsInOrder | voice.py:129-150 | a session hears a prefix of the input in order, never skipping or repeating an utterance |
| Handlers.LoopNeverFetches | voice.py:133-150 | if no pass fetches weather data, neither does the loop |
| Handlers.PassesNeverFetch | voice.py:101-103 | without a key no pass of the dialogue loop fetches weather data |
| Handlers.NoKeyNeverFetches | voice.py:101-103 | without a key a whole session never requests weather data |
| Handlers.StartupTrace | voice.py:129-132 | a session opens with the name prompt, one utterance (the name), the welcome and the offer of help; with no input it only asks for the name |
| Assistant.Assistant.Speak | voice.py:24-26 | speaking appends exactly that message to the trace |
| Assistant.Assistant.Listen | voice.py:28-43 | listening returns the next utterance and moves past it, recording that it was heard; at the end of the input it returns None and changes nothing |
| Assistant.Assistant.GetUserName | voice.py:45-48 | asks for the name and returns the first utterance |
| Assistant.Assistant.RespondToGreeting | voice.py:53-59 | appends exactly the greeting events and consumes nothing |
| Assistant.Assistant.TellTimeOrDate | voice.py:61-67 | appends exactly the time-or-date events for the clock reading and consumes nothing |
| Assistant.Assistant.SearchWeb | voice.py:69-76 | appends exactly the search events and consumes nothing |
| Assistant.Assistant.SendEmail | voice.py:78-88 | appends one send of the composed message and the report on its outcome |
| Assistant.Assistant.HandleEmailCommand | voice.py:90-96 | appends, consumes and ends exactly as the email dialogue specifies |
| Assistant.Assistant.GetWeather | voice.py:98-122 | appends exactly the weather lookup events and reports whether it raised |
| Assistant.Assistant.HandleWeatherCommand | voice.py:124-127 | appends, consumes and ends exactly as the weather dialogue specifies |
| Assistant.Assistant.Dispatch | voice.py:136-150 | the `if`/`elif` chain performs exactly what the handler of the classified intent specifies |
| Assistant.Assistant.Pass | voice.py:134-150 | one iteration hears a command and performs exactly that turn; at the end of the input it changes nothing and reports the input exhausted |
| Assistant.Assistant.Converse | voice.py:133-150 | the `while True` loop appends exactly the loop's trace and ends with the loop's status |
| Assistant.Assistant.Run | voice.py:129-150 | `main` produces exactly the session's trace and status over the input |

## Left out

- Speech capture and synthesis (voice.py:21-43): the microphone, noise adjustment, Google recognition and pyttsx3 are foreign library calls. `listen` is the next scripted utterance, already lower-cased. The two recognition errors give `""`, which is an ordinary element of the script.
- Assistant.Assistant.Listen: when the script is exhausted, `listen` ends the session with status `OutOfInput`. The real program would block on the microphone instead.
- The SMTP session (voice.py:80-85): connecting, TLS, login and closing are one abstract call `env.mail` that returns success or the exception's text.
- The HTTP request and JSON decoding (voice.py:112-113): `env.weather` returns the decoded fields that the report reads, or `None` where the call raises.
- Messages.WeatherReport: the temperature is the text it prints as. Float formatting is outside the model.
- The clock and `strftime` (voice.py:63, 66): `env.clock` gives the formatted strings for each command position.
- `webbrowser.open` (voice.py:73) is recorded as an `OpenBrowser` event with its URL. Its failures are not modelled.
- The `.env` loading and the credentials (voice.py:8-16, 99): the weather key is the parameter `env.apiKey`, and the sender credentials do not enter any decision.
- The `print` diagnostics (voice.py:19, 30, 34, 36, 39, 42, 135) are not observable speech and are omitted.
- `welcome_statement` (voice.py:50-51) is modelled as the `Welcome` message spoken by `Run`, not as a method of its own.
- The entry-point guard (voice.py:152): it reads the undefined name `_name_` (compared with the string `"_main_"`), so as written it raises a `NameError` instead of calling `main`. The model starts at `main`.
- The exact wording of every sentence is the function `Messages.Wording`. Only the greeting replies are proved to differ from each other.
