/** What one pass of the dialogue loop does, and what a whole session does, described as the
    trace of observable events it produces: each message spoken, each utterance heard, and
    each request made to the browser, the mail transport or the weather service. */
module Handlers {

  import opened Options
  import opened Text
  import opened Intents
  import opened Messages

  /** One observable step of the assistant. */
  datatype Event =
    | Say(message: Message)                  // one call of speak, with what it said
    | Hear(utterance: string)                // one call of listen, with what it returned
    | OpenBrowser(url: string)               // webbrowser.open
    | SendMail(to: string, mail: string)     // an attempt to deliver through the mail server
    | FetchWeather(url: string)              // the HTTP request to the weather service

  /** How a session ends: a farewell command, no more recognised input, or an exception that
      escapes the loop. */
  datatype Status = Goodbye | OutOfInput | Crashed

  /** The clock as the handlers see it: the current time ("%H:%M") and date ("%Y-%m-%d"). */
  datatype Stamp = Stamp(time: string, date: string)

  /** The collaborators outside the core: the configured weather key, the clock reading while
      the command at a given position of the input is answered, the mail transport and the
      weather service (None where the request or the JSON decoding raises). The transport and
      the service are also given the moment of the call, as the number of utterances heard so
      far, so the same request may succeed once and fail another time. */
  datatype Env = Env(
    apiKey: Option<string>,
    clock: nat -> Stamp,
    mail: (nat, string, string) -> SendOutcome,
    weather: (nat, string) -> Option<WeatherData>)

  /** What a handler or a turn did: its events, how many utterances it consumed, and whether it
      ended the session. */
  datatype Step = Step(events: seq<Event>, consumed: nat, done: Option<Status>)

  /** What a whole session did. */
  datatype Outcome = Outcome(trace: seq<Event>, status: Status)

  /** A handler's events together with whether an exception escaped it. */
  datatype Effect = Effect(events: seq<Event>, crashed: bool)

  // ---------------------------------------------------------------------------
  // Reading a trace
  // ---------------------------------------------------------------------------

  /** The messages spoken, in order. */
  function Spoken(events: seq<Event>): seq<Message>
  {
    if |events| == 0 then []
    else (if events[0].Say? then [events[0].message] else []) + Spoken(events[1..])
  }

  /** The utterances consumed, in order. */
  function Heard(events: seq<Event>): seq<string>
  {
    if |events| == 0 then []
    else (if events[0].Hear? then [events[0].utterance] else []) + Heard(events[1..])
  }

  lemma {:induction false} HeardAppend(a: seq<Event>, b: seq<Event>)
    ensures Heard(a + b) == Heard(a) + Heard(b)
  {
    if |a| > 0 {
      assert (a + b)[1..] == a[1..] + b;
      HeardAppend(a[1..], b);
    } else {
      assert a + b == b;
    }
  }

  lemma HeardCons(e: Event, rest: seq<Event>)
    ensures Heard([e] + rest) == (if e.Hear? then [e.utterance] else []) + Heard(rest)
  {
    assert ([e] + rest)[1..] == rest;
  }

  lemma SpokenCons(e: Event, rest: seq<Event>)
    ensures Spoken([e] + rest) == (if e.Say? then [e.message] else []) + Spoken(rest)
  {
    assert ([e] + rest)[1..] == rest;
  }

  /** No event of the trace is a call of listen. */
  predicate HearsNothing(events: seq<Event>)
  {
    forall k :: 0 <= k < |events| ==> !events[k].Hear?
  }

  lemma {:induction false} HeardNothing(events: seq<Event>)
    requires HearsNothing(events)
    ensures Heard(events) == []
  {
    if |events| > 0 {
      HeardNothing(events[1..]);
    }
  }

  /** No event of the trace is a weather request. */
  predicate NeverFetches(events: seq<Event>)
  {
    forall k :: 0 <= k < |events| ==> !events[k].FetchWeather?
  }

  // ---------------------------------------------------------------------------
  // The handlers
  // ---------------------------------------------------------------------------

  function GreetingEvents(name: string): seq<Event>
  {
    [Say(GreetingReply(name))]
  }

  /** One message at most: the time when "time" is in the command (even with "date"), otherwise
      the date when "date" is, otherwise nothing. */
  function TimeOrDateEvents(name: string, command: string, stamp: Stamp): seq<Event>
  {
    if Contains(command, "time") then [Say(TimeReport(name, stamp.time))]
    else if Contains(command, "date") then [Say(DateReport(name, stamp.date))]
    else []
  }

  /** Opens the results page and confirms when the query is non-empty; otherwise only apologises.
      Does nothing for a command without "search". */
  function SearchEvents(name: string, command: string): seq<Event>
  {
    if !Contains(command, "search") then []
    else
      var query := SearchQuery(command);
      if query != "" then [OpenBrowser(SearchUrl(query)), Say(Results(name, query))]
      else [Say(NoQuery)]
  }

  /** One delivery attempt of the composed message at moment `at`, then the one report on its outcome. */
  function SendEmailEvents(env: Env, at: nat, to: string, subject: string, body: string): seq<Event>
  {
    var message := ComposeEmail(subject, body);
    [SendMail(to, message), Say(DeliveryReport(env.mail(at, to, message)))]
  }

  /** The email dialogue after the command at `pos - 1`: ask for and hear the subject, ask for and
      hear the body, then send to the fixed recipient. */
  function EmailStep(name: string, script: seq<string>, pos: nat, env: Env): (r: Step)
    requires pos <= |script|
    ensures pos + r.consumed <= |script|
  {
    var ask := [Say(SubjectPrompt(name))];
    if pos == |script| then Step(ask, 0, Some(OutOfInput))
    else if pos + 1 == |script| then Step(ask + [Hear(script[pos]), Say(BodyPrompt)], 1, Some(OutOfInput))
    else
      Step(ask + [Hear(script[pos]), Say(BodyPrompt), Hear(script[pos + 1])] +
           SendEmailEvents(env, pos + 2, Recipient, script[pos], script[pos + 1]), 2, None)
  }

  /** The weather lookup for a city at moment `at`: the guards, the request, and the report. */
  function GetWeatherEvents(env: Env, at: nat, city: Option<string>): Effect
  {
    match WeatherRequest(env.apiKey, city)
    case Refuse(message) => Effect([Say(message)], false)
    case Fetch(url) =>
      match env.weather(at, url)
      case None => Effect([FetchWeather(url)], true)
      case Some(data) =>
        match WeatherReport(city.value, data)
        case None => Effect([FetchWeather(url)], true)
        case Some(sentence) => Effect([FetchWeather(url), Say(sentence)], false)
  }

  /** The weather dialogue after the command at `pos - 1`: ask for and hear the city, then look it up. */
  function WeatherStep(name: string, script: seq<string>, pos: nat, env: Env): (r: Step)
    requires pos <= |script|
    ensures pos + r.consumed <= |script|
  {
    var ask := [Say(CityPrompt(name))];
    if pos == |script| then Step(ask, 0, Some(OutOfInput))
    else
      var effect := GetWeatherEvents(env, pos + 1, Some(script[pos]));
      Step(ask + [Hear(script[pos])] + effect.events, 1, if effect.crashed then Some(Crashed) else None)
  }

  // ---------------------------------------------------------------------------
  // One pass of the loop, and the session
  // ---------------------------------------------------------------------------

  /** Run the handler the command at `pos` was classified as: what happens after the command
      is heard. */
  function Handle(intent: Intent, name: string, script: seq<string>, pos: nat, env: Env): (h: Step)
    requires pos < |script|
    ensures pos + 1 + h.consumed <= |script|
  {
    var command := script[pos];
    match intent
    case Farewell => Step([Say(Bye)], 0, Some(Goodbye))
    case Greeting => Step(GreetingEvents(name), 0, None)
    case TimeOrDate => Step(TimeOrDateEvents(name, command, env.clock(pos)), 0, None)
    case WebSearch => Step(SearchEvents(name, command), 0, None)
    case SendEmail => EmailStep(name, script, pos + 1, env)
    case WeatherQuery => WeatherStep(name, script, pos + 1, env)
    case Unrecognized => Step([Say(Capabilities(name))], 0, None)
  }

  /** One pass of the loop: hear the command at `pos`, then handle it. It consumes the next
      utterances of the input in order, ends with "Goodbye!" alone when it ends the session
      with a farewell, and never contacts the weather service when no key is configured. */
  function Turn(name: string, script: seq<string>, pos: nat, env: Env): (t: Step)
    requires pos < |script|
    ensures 1 <= t.consumed && pos + t.consumed <= |script|
  {
    var h := Handle(Classify(script[pos]), name, script, pos, env);
    Step([Hear(script[pos])] + h.events, 1 + h.consumed, h.done)
  }

  /** The email dialogue hears the subject and then the body, the next two utterances. */
  lemma EmailStepHears(name: string, script: seq<string>, pos: nat, env: Env)
    requires pos <= |script|
    ensures var r := EmailStep(name, script, pos, env); Heard(r.events) == script[pos..pos + r.consumed]
  {
    var ask := [Say(SubjectPrompt(name))];
    HeardCons(Say(SubjectPrompt(name)), []);
    if pos == |script| {
    } else if pos + 1 == |script| {
      var rest := [Hear(script[pos]), Say(BodyPrompt)];
      HeardAppend(ask, rest);
      HeardCons(Say(BodyPrompt), []);
      HeardCons(Hear(script[pos]), [Say(BodyPrompt)]);
    } else {
      var heard := [Hear(script[pos]), Say(BodyPrompt), Hear(script[pos + 1])];
      var send := SendEmailEvents(env, pos + 2, Recipient, script[pos], script[pos + 1]);
      HeardCons(send[1], []);
      HeardCons(send[0], [send[1]]);
      assert send == [send[0], send[1]];
      HeardAppend(ask + heard, send);
      HeardAppend(ask, heard);
      HeardCons(Hear(script[pos + 1]), []);
      HeardCons(Say(BodyPrompt), [Hear(script[pos + 1])]);
      HeardCons(Hear(script[pos]), [Say(BodyPrompt), Hear(script[pos + 1])]);
      assert script[pos..pos + 2] == [script[pos], script[pos + 1]];
    }
  }

  /** The weather dialogue hears the city, the next utterance, and nothing else. */
  lemma WeatherStepHears(name: string, script: seq<string>, pos: nat, env: Env)
    requires pos <= |script|
    ensures var r := WeatherStep(name, script, pos, env); Heard(r.events) == script[pos..pos + r.consumed]
  {
    var ask := [Say(CityPrompt(name))];
    HeardCons(Say(CityPrompt(name)), []);
    if pos < |script| {
      var effect := GetWeatherEvents(env, pos + 1, Some(script[pos]));
      HeardNothing(effect.events);
      HeardAppend(ask + [Hear(script[pos])], effect.events);
      HeardAppend(ask, [Hear(script[pos])]);
      HeardCons(Hear(script[pos]), []);
      assert script[pos..pos + 1] == [script[pos]];
    }
  }

  /** The handlers hear exactly the utterances they consume, in order. */
  lemma HandleHears(intent: Intent, name: string, script: seq<string>, pos: nat, env: Env)
    requires pos < |script|
    ensures var h := Handle(intent, name, script, pos, env);
      Heard(h.events) == script[pos + 1..pos + 1 + h.consumed]
  {
    match intent
    case SendEmail => EmailStepHears(name, script, pos + 1, env);
    case WeatherQuery => WeatherStepHears(name, script, pos + 1, env);
    case _ => HeardNothing(Handle(intent, name, script, pos, env).events);
  }

  /** Hearing one more utterance in front of a trace that hears the block after it hears the
      longer block. */
  lemma HearFirst(script: seq<string>, pos: nat, events: seq<Event>, n: nat)
    requires pos + 1 + n <= |script| && Heard(events) == script[pos + 1..pos + 1 + n]
    ensures Heard([Hear(script[pos])] + events) == script[pos..pos + 1 + n]
  {
    HeardCons(Hear(script[pos]), events);
    assert script[pos..pos + 1 + n] == [script[pos]] + script[pos + 1..pos + 1 + n];
  }

  /** A turn hears the command and then exactly the utterances it consumes, in order. */
  lemma TurnHears(name: string, script: seq<string>, pos: nat, env: Env)
    requires pos < |script|
    ensures var t := Turn(name, script, pos, env); Heard(t.events) == script[pos..pos + t.consumed]
  {
    var h := Handle(Classify(script[pos]), name, script, pos, env);
    HandleHears(Classify(script[pos]), name, script, pos, env);
    HearFirst(script, pos, h.events, h.consumed);
  }

  /** Only the farewell branch ends the session with a farewell, and it says "Goodbye!" alone. */
  lemma HandleFarewell(intent: Intent, name: string, script: seq<string>, pos: nat, env: Env)
    requires pos < |script|
    ensures Handle(intent, name, script, pos, env).done == Some(Goodbye) <==> intent == Farewell
    ensures Handle(intent, name, script, pos, env).done == Some(Goodbye) ==>
      Handle(intent, name, script, pos, env).events == [Say(Bye)]
  {
  }

  /** Without a key, no handler contacts the weather service. */
  lemma HandleNoKey(intent: Intent, name: string, script: seq<string>, pos: nat, env: Env)
    requires pos < |script|
    ensures env.apiKey.None? ==> NeverFetches(Handle(intent, name, script, pos, env).events)
  {
  }

  /** A turn that ends the session with a farewell heard the command and said "Goodbye!", nothing else. */
  lemma TurnGoodbye(name: string, script: seq<string>, pos: nat, env: Env)
    requires pos < |script|
    ensures var t := Turn(name, script, pos, env);
      t.done == Some(Goodbye) ==> t.events == [Hear(script[pos]), Say(Bye)]
  {
    HandleFarewell(Classify(script[pos]), name, script, pos, env);
  }

  /** Without a key, no turn contacts the weather service. */
  lemma TurnNoKey(name: string, script: seq<string>, pos: nat, env: Env)
    requires pos < |script| && env.apiKey.None?
    ensures NeverFetches(Turn(name, script, pos, env).events)
  {
    HandleNoKey(Classify(script[pos]), name, script, pos, env);
  }

  /** Each pass from `pos` until `end` is defined, hears at least its command and stays
      within the input. */
  ghost predicate Advances(pass: nat --> Step, pos: nat, end: nat)
  {
    forall p :: pos <= p < end ==> pass.requires(p) && 1 <= pass(p).consumed && p + pass(p).consumed <= end
  }

  /** `while True`: run passes from the utterance at `pos` until one ends the session or the input
      runs out at `end`. */
  function Loop(pass: nat --> Step, pos: nat, end: nat): Outcome
    requires pos <= end && Advances(pass, pos, end)
    decreases end - pos
  {
    if pos == end then Outcome([], OutOfInput)
    else
      var t := pass(pos);
      if t.done.Some? then Outcome(t.events, t.done.value)
      else
        var rest := Loop(pass, pos + t.consumed, end);
        Outcome(t.events + rest.trace, rest.status)
  }

  /** The pass of the dialogue loop of a given user over a given input. */
  function Passes(name: string, script: seq<string>, env: Env): nat --> Step
  {
    (p: nat) requires p < |script| => Turn(name, script, p, env)
  }

  /** The dialogue loop from the command at `pos` on. */
  function LoopFrom(name: string, script: seq<string>, pos: nat, env: Env): Outcome
    requires pos <= |script|
  {
    Loop(Passes(name, script, env), pos, |script|)
  }

  /** `pass` is, at every utterance of `script`, the turn of the dialogue loop of `name`. The
      correspondence is only used where that turn is already under discussion. */
  ghost predicate Follows(pass: nat --> Step, name: string, script: seq<string>, env: Env)
  {
    forall p: nat {:trigger Turn(name, script, p, env)} ::
      p < |script| ==> pass.requires(p) && pass(p) == Turn(name, script, p, env)
  }

  /** The turns of the dialogue loop are its passes, and each of them moves on through the input. */
  lemma PassesFollow(name: string, script: seq<string>, pos: nat, env: Env)
    ensures Follows(Passes(name, script, env), name, script, env)
    ensures Advances(Passes(name, script, env), pos, |script|)
  {
  }

  /** One pass of the loop, whatever the passes are: a pass that ends the session ends the loop
      with its own events; any other is followed by the loop from the next unconsumed utterance. */
  lemma LoopStep(pass: nat --> Step, pos: nat, end: nat)
    requires pos < end && Advances(pass, pos, end)
    ensures var t := pass(pos);
      var rest := Loop(pass, pos + t.consumed, end);
      Loop(pass, pos, end) ==
        if t.done.Some? then Outcome(t.events, t.done.value) else Outcome(t.events + rest.trace, rest.status)
  {
  }

  /** The fixed opening: prompt for the name, hear it, welcome, offer help. */
  function Startup(name: string): seq<Event>
  {
    [Say(NamePrompt), Hear(name), Say(Welcome(name)), Say(HelpOffer(name))]
  }

  /** A whole session over the recognised utterances `script`; the first one is the user's name. */
  function Session(script: seq<string>, env: Env): Outcome
  {
    if |script| == 0 then Outcome([Say(NamePrompt)], OutOfInput)
    else
      var rest := LoopFrom(script[0], script, 1, env);
      Outcome(Startup(script[0]) + rest.trace, rest.status)
  }

  // ---------------------------------------------------------------------------
  // Properties of one turn
  // ---------------------------------------------------------------------------

  /** A command with "exit" or "stop" is answered with "Goodbye!" alone and ends the session,
      whatever else it contains; no other command ends it with a farewell. */
  lemma FarewellTurn(name: string, script: seq<string>, pos: nat, env: Env)
    requires pos < |script|
    ensures Turn(name, script, pos, env).done == Some(Goodbye) <==> AsksExit(script[pos])
    ensures AsksExit(script[pos]) ==>
      Turn(name, script, pos, env) == Step([Hear(script[pos]), Say(Bye)], 1, Some(Goodbye))
  {
    HandleFarewell(Classify(script[pos]), name, script, pos, env);
    ClassifyCases(script[pos]);
  }

  /** Only the two handlers that listen again can run out of input, and only the weather handler
      can raise; every other command returns to listening. */
  lemma TurnContinues(name: string, script: seq<string>, pos: nat, env: Env)
    requires pos < |script|
    ensures Turn(name, script, pos, env).done == Some(Crashed) ==> Classify(script[pos]) == WeatherQuery
    ensures Turn(name, script, pos, env).done == Some(OutOfInput) ==>
      Classify(script[pos]) == SendEmail || Classify(script[pos]) == WeatherQuery
    ensures !AsksExit(script[pos]) && Classify(script[pos]) != SendEmail && Classify(script[pos]) != WeatherQuery ==>
      Turn(name, script, pos, env).done.None?
  {
    ClassifyCases(script[pos]);
  }

  /** An empty capture, which is what recognition failure yields, gets the capabilities message
      and the loop goes on. */
  lemma EmptyCommandTurn(name: string, script: seq<string>, pos: nat, env: Env)
    requires pos < |script| && script[pos] == ""
    ensures Turn(name, script, pos, env) == Step([Hear(""), Say(Capabilities(name))], 1, None)
  {
    EmptyCommandExample();
  }

  /** The greeting reply is chosen by the stored name alone: every greeting command gets it. */
  lemma GreetingTurn(name: string, script: seq<string>, pos: nat, env: Env)
    requires pos < |script| && Classify(script[pos]) == Greeting
    ensures Turn(name, script, pos, env) == Step([Hear(script[pos]), Say(GreetingReply(name))], 1, None)
  {
  }

  /** A time-or-date command speaks exactly one message: the time whenever "time" is present,
      even alongside "date", and the date otherwise. */
  lemma TimeOrDateTurn(name: string, script: seq<string>, pos: nat, env: Env)
    requires pos < |script| && Classify(script[pos]) == TimeOrDate
    ensures |Spoken(Turn(name, script, pos, env).events)| == 1
    ensures Spoken(Turn(name, script, pos, env).events) ==
      if Contains(script[pos], "time") then [TimeReport(name, env.clock(pos).time)]
      else [DateReport(name, env.clock(pos).date)]
    ensures Turn(name, script, pos, env).done.None?
  {
    ClassifyCases(script[pos]);
    var said := if Contains(script[pos], "time") then TimeReport(name, env.clock(pos).time)
                else DateReport(name, env.clock(pos).date);
    SpokenCons(Say(said), []);
    SpokenCons(Hear(script[pos]), [Say(said)]);
  }

  /** A search opens the results page for the extracted query if and only if the query is
      non-empty; an empty query only gets the apology. */
  lemma SearchTurn(name: string, script: seq<string>, pos: nat, env: Env)
    requires pos < |script| && Classify(script[pos]) == WebSearch
    ensures var query := SearchQuery(script[pos]);
      Turn(name, script, pos, env).events ==
        if query != "" then [Hear(script[pos]), OpenBrowser(SearchUrl(query)), Say(Results(name, query))]
        else [Hear(script[pos]), Say(NoQuery)]
    ensures (exists k :: 0 <= k < |Turn(name, script, pos, env).events| &&
                         Turn(name, script, pos, env).events[k].OpenBrowser?)
            <==> SearchQuery(script[pos]) != ""
  {
    ClassifyCases(script[pos]);
    var t := Turn(name, script, pos, env);
    if SearchQuery(script[pos]) != "" {
      assert t.events[1].OpenBrowser?;
    }
  }

  /** The email handler consumes exactly the two utterances after the command, subject first,
      sends their composition to the fixed recipient once, and speaks exactly one report. */
  lemma EmailTurn(name: string, script: seq<string>, pos: nat, env: Env)
    requires pos + 2 < |script| && Classify(script[pos]) == SendEmail
    ensures var message := ComposeEmail(script[pos + 1], script[pos + 2]);
      Turn(name, script, pos, env) == Step(
        [Hear(script[pos]), Say(SubjectPrompt(name)), Hear(script[pos + 1]), Say(BodyPrompt),
         Hear(script[pos + 2]), SendMail(Recipient, message),
         Say(DeliveryReport(env.mail(pos + 3, Recipient, message)))],
        3, None)
  {
  }

  /** The weather handler consumes exactly the one utterance after the command, as the city.
      Without a key it speaks the key message and never fetches. With a key it fetches the
      report for that city and speaks the report, or the session ends in an exception. */
  lemma WeatherTurn(name: string, script: seq<string>, pos: nat, env: Env)
    requires pos + 1 < |script| && Classify(script[pos]) == WeatherQuery
    ensures Turn(name, script, pos, env).consumed == 2
    ensures var city := script[pos + 1];
      var prefix := [Hear(script[pos]), Say(CityPrompt(name)), Hear(city)];
      var t := Turn(name, script, pos, env);
      if env.apiKey.None? then
        t.events == prefix + [Say(NoKey)] && t.done.None?
      else
        var url := WeatherUrl(city, env.apiKey.value);
        match env.weather(pos + 2, url)
        case None => t.events == prefix + [FetchWeather(url)] && t.done == Some(Crashed)
        case Some(data) =>
          match WeatherReport(city, data)
          case None => t.events == prefix + [FetchWeather(url)] && t.done == Some(Crashed)
          case Some(sentence) => t.events == prefix + [FetchWeather(url), Say(sentence)] && t.done.None?
  {
  }

  /** The "Please specify a city." branch is unreachable from the loop: the handler always passes
      the city it heard. */
  lemma CityAlwaysGiven(name: string, script: seq<string>, pos: nat, env: Env)
    requires pos + 1 < |script| && Classify(script[pos]) == WeatherQuery
    ensures Say(NoCity) !in Turn(name, script, pos, env).events
  {
  }

  // ---------------------------------------------------------------------------
  // Properties of the session
  // ---------------------------------------------------------------------------

  /** A farewell command ends the loop at once: nothing after it is heard. */
  lemma ExitEndsLoop(name: string, script: seq<string>, pos: nat, env: Env)
    requires pos < |script| && AsksExit(script[pos])
    ensures LoopFrom(name, script, pos, env) == Outcome([Hear(script[pos]), Say(Bye)], Goodbye)
  {
    FarewellTurn(name, script, pos, env);
  }

  /** A joined trace ends with the last event of its second part. */
  lemma LastOfJoin(first: seq<Event>, second: seq<Event>)
    requires |second| > 0
    ensures |first + second| > 0 && (first + second)[|first + second| - 1] == second[|second| - 1]
  {
  }

  /** Two traces that hear adjacent blocks of the input hear, together, the joined block. */
  lemma HeardBlocks(first: seq<Event>, second: seq<Event>, script: seq<string>, i: nat, j: nat, k: nat)
    requires i <= j <= k <= |script|
    requires Heard(first) == script[i..j] && Heard(second) == script[j..k]
    ensures Heard(first + second) == script[i..k]
  {
    HeardAppend(first, second);
    assert script[i..j] + script[j..k] == script[i..k];
  }

  /** The last event of a trace says "Goodbye!". */
  predicate EndsWithBye(events: seq<Event>)
  {
    |events| > 0 && events[|events| - 1] == Say(Bye)
  }

  /** Whatever the passes, a loop ends in a farewell only through a pass that ended with "Goodbye!". */
  lemma {:induction false} LoopGoodbyeIsLast(pass: nat --> Step, pos: nat, end: nat)
    requires pos <= end && Advances(pass, pos, end)
    requires forall p :: pos <= p < end ==> (pass(p).done == Some(Goodbye) ==> EndsWithBye(pass(p).events))
    ensures Loop(pass, pos, end).status == Goodbye ==> EndsWithBye(Loop(pass, pos, end).trace)
    decreases end - pos
  {
    if pos < end {
      var t := pass(pos);
      if t.done.None? {
        var next := pos + t.consumed;
        LoopGoodbyeIsLast(pass, next, end);
        var rest := Loop(pass, next, end);
        if rest.status == Goodbye {
          LastOfJoin(t.events, rest.trace);
        }
      }
    }
  }

  /** Every pass of the dialogue loop that ends in a farewell ends with "Goodbye!". */
  lemma PassesEndWithBye(name: string, script: seq<string>, env: Env)
    ensures var pass := Passes(name, script, env);
      forall p :: 1 <= p < |script| ==> (pass(p).done == Some(Goodbye) ==> EndsWithBye(pass(p).events))
  {
    forall p | 1 <= p < |script|
      ensures Turn(name, script, p, env).done == Some(Goodbye) ==> EndsWithBye(Turn(name, script, p, env).events)
    {
      TurnGoodbye(name, script, p, env);
    }
  }

  /** A session that ends in a farewell has "Goodbye!" as its last event. */
  lemma GoodbyeIsLast(script: seq<string>, env: Env)
    ensures Session(script, env).status == Goodbye ==> EndsWithBye(Session(script, env).trace)
  {
    if |script| > 0 {
      var name := script[0];
      var pass := Passes(name, script, env);
      PassesEndWithBye(name, script, env);
      LoopGoodbyeIsLast(pass, 1, |script|);
      var rest := Loop(pass, 1, |script|);
      if rest.status == Goodbye {
        LastOfJoin(Startup(name), rest.trace);
      }
    }
  }

  /** Whatever the passes, if each hears exactly the block of the input it consumes, the loop
      hears the block of the input from `pos` to some later position, in order. */
  lemma {:induction false} LoopHearsInOrder(pass: nat --> Step, script: seq<string>, pos: nat)
    requires pos <= |script| && Advances(pass, pos, |script|)
    requires forall p :: pos <= p < |script| ==> Heard(pass(p).events) == script[p..p + pass(p).consumed]
    ensures exists k :: pos <= k <= |script| && Heard(Loop(pass, pos, |script|).trace) == script[pos..k]
    decreases |script| - pos
  {
    if pos == |script| {
      assert Heard([]) == script[pos..pos];
    } else {
      var t := pass(pos);
      if t.done.Some? {
        assert Heard(Loop(pass, pos, |script|).trace) == script[pos..pos + t.consumed];
      } else {
        var next := pos + t.consumed;
        LoopHearsInOrder(pass, script, next);
        var rest := Loop(pass, next, |script|);
        var k :| next <= k <= |script| && Heard(rest.trace) == script[next..k];
        HeardBlocks(t.events, rest.trace, script, pos, next, k);
      }
    }
  }

  /** The opening hears the name and nothing else. */
  lemma StartupHears(name: string)
    ensures Heard(Startup(name)) == [name]
  {
    HeardCons(Say(HelpOffer(name)), []);
    HeardCons(Say(Welcome(name)), [Say(HelpOffer(name))]);
    HeardCons(Hear(name), [Say(Welcome(name)), Say(HelpOffer(name))]);
    HeardCons(Say(NamePrompt), [Hear(name), Say(Welcome(name)), Say(HelpOffer(name))]);
  }

  /** Every pass of the dialogue loop hears exactly the block of the input it consumes. */
  lemma PassesHear(name: string, script: seq<string>, env: Env)
    ensures var pass := Passes(name, script, env);
      forall p :: 1 <= p < |script| ==> Heard(pass(p).events) == script[p..p + pass(p).consumed]
  {
    forall p | 1 <= p < |script|
      ensures Heard(Turn(name, script, p, env).events) == script[p..p + Turn(name, script, p, env).consumed]
    {
      TurnHears(name, script, p, env);
    }
  }

  /** A session hears a prefix of the input, in order, never skipping or repeating an utterance:
      the name first, then the commands and the follow-up answers. */
  lemma SessionHearsInOrder(script: seq<string>, env: Env)
    ensures exists k :: 0 <= k <= |script| && Heard(Session(script, env).trace) == script[..k]
  {
    if |script| == 0 {
      assert Heard([Say(NamePrompt)]) == script[..0];
    } else {
      var name := script[0];
      var pass := Passes(name, script, env);
      PassesHear(name, script, env);
      LoopHearsInOrder(pass, script, 1);
      var rest := Loop(pass, 1, |script|);
      var k :| 1 <= k <= |script| && Heard(rest.trace) == script[1..k];
      StartupHears(name);
      HeardBlocks(Startup(name), rest.trace, script, 0, 1, k);
    }
  }

  /** Whatever the passes, if none contacts the weather service, neither does the loop. */
  lemma {:induction false} LoopNeverFetches(pass: nat --> Step, pos: nat, end: nat)
    requires pos <= end && Advances(pass, pos, end)
    requires forall p :: pos <= p < end ==> NeverFetches(pass(p).events)
    ensures NeverFetches(Loop(pass, pos, end).trace)
    decreases end - pos
  {
    if pos < end {
      var t := pass(pos);
      if t.done.None? {
        LoopNeverFetches(pass, pos + t.consumed, end);
      }
    }
  }

  /** Without a weather key, no pass of the dialogue loop contacts the weather service. */
  lemma PassesNeverFetch(name: string, script: seq<string>, env: Env)
    requires env.apiKey.None?
    ensures var pass := Passes(name, script, env);
      forall p :: 1 <= p < |script| ==> NeverFetches(pass(p).events)
  {
    forall p | 1 <= p < |script| ensures NeverFetches(Turn(name, script, p, env).events) {
      TurnNoKey(name, script, p, env);
    }
  }

  /** Without a weather key, a whole session never contacts the weather service. */
  lemma NoKeyNeverFetches(script: seq<string>, env: Env)
    requires env.apiKey.None?
    ensures NeverFetches(Session(script, env).trace)
  {
    if |script| > 0 {
      var name := script[0];
      var pass := Passes(name, script, env);
      PassesNeverFetch(name, script, env);
      LoopNeverFetches(pass, 1, |script|);
    }
  }

  /** The session opens with the name prompt, exactly one utterance (the name), the welcome and
      the offer of help; with no input at all it only asks for the name. */
  lemma StartupTrace(script: seq<string>, env: Env)
    ensures |script| == 0 ==> Session(script, env) == Outcome([Say(NamePrompt)], OutOfInput)
    ensures |script| > 0 ==>
      Session(script, env).trace[..4] ==
        [Say(NamePrompt), Hear(script[0]), Say(Welcome(script[0])), Say(HelpOffer(script[0]))]
  {
    if |script| > 0 {
      var rest := LoopFrom(script[0], script, 1, env);
      assert (Startup(script[0]) + rest.trace)[..4] == Startup(script[0]);
    }
  }

}
