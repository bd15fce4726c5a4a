/** The assistant as the program runs it: an object that reads the recognised utterances one
    at a time, speaks, and requests effects, appending each to its trace. Every method
    mirrors one function of the program and is proved to do exactly what the trace model of
    that function describes; `Run` is the dialogue loop and is proved to produce the session. */
module Assistant {

  import opened Options
  import opened Text
  import opened Intents
  import opened Messages
  import opened Handlers

  class Assistant {
    /** The utterances `listen` will return, in order (already lower-cased by the recogniser). */
    const script: seq<string>
    /** The configured key, the clock, the mail transport and the weather service. */
    const env: Env
    /** How many utterances have been consumed so far. */
    var pos: nat
    /** Everything observable done so far. */
    var trace: seq<Event>

    /** The input cursor stays within the input, and the trace has heard exactly the utterances
        consumed so far, in order. */
    ghost predicate Valid()
      reads this
    {
      pos <= |script| && Heard(trace) == script[..pos]
    }

    constructor (script: seq<string>, env: Env)
      ensures this.script == script && this.env == env
      ensures pos == 0 && trace == []
      ensures Valid()
    {
      this.script := script;
      this.env := env;
      pos := 0;
      trace := [];
    }

    /** Performs one observable step that is not a call of listen. */
    method Record(e: Event)
      requires Valid() && !e.Hear?
      modifies this
      ensures Valid()
      ensures trace == old(trace) + [e] && pos == old(pos)
    {
      HeardAppend(trace, [e]);
      HeardCons(e, []);
      trace := trace + [e];
    }

    /** `speak`. */
    method Speak(m: Message)
      requires Valid()
      modifies this
      ensures Valid()
      ensures trace == old(trace) + [Say(m)] && pos == old(pos)
    {
      Record(Say(m));
    }

    /** `listen`: the next utterance, or None once the input is exhausted. */
    method Listen() returns (heard: Option<string>)
      requires Valid()
      modifies this
      ensures Valid()
      ensures old(pos) < |script| ==>
        heard == Some(script[old(pos)]) && pos == old(pos) + 1 && trace == old(trace) + [Hear(script[old(pos)])]
      ensures old(pos) == |script| ==> heard.None? && pos == old(pos) && trace == old(trace)
    {
      if pos == |script| {
        heard := None;
      } else {
        var u := script[pos];
        HeardAppend(trace, [Hear(u)]);
        HeardCons(Hear(u), []);
        assert script[..pos + 1] == script[..pos] + [u];
        trace := trace + [Hear(u)];
        pos := pos + 1;
        heard := Some(u);
      }
    }

    /** `get_user_name`. */
    method GetUserName() returns (name: Option<string>)
      requires Valid() && pos == 0
      modifies this
      ensures Valid()
      ensures |script| == 0 ==> name.None? && pos == 0 && trace == old(trace) + [Say(NamePrompt)]
      ensures |script| > 0 ==>
        name == Some(script[0]) && pos == 1 && trace == old(trace) + [Say(NamePrompt), Hear(script[0])]
    {
      Speak(NamePrompt);
      name := Listen();
    }

    /** `respond_to_greeting`: the reply chosen by the stored name. */
    method RespondToGreeting(name: string)
      requires Valid()
      modifies this
      ensures Valid()
      ensures trace == old(trace) + GreetingEvents(name) && pos == old(pos)
    {
      if Contains(name, "hello") {
        Speak(HelloReply(name));
      } else if Contains(name, "what is your name") {
        Speak(SelfIntroduction);
      } else {
        Speak(UnsureReply(name));
      }
    }

    /** `tell_time_or_date`, with the clock reading taken as a parameter. */
    method TellTimeOrDate(name: string, command: string, now: Stamp)
      requires Valid()
      modifies this
      ensures Valid()
      ensures trace == old(trace) + TimeOrDateEvents(name, command, now) && pos == old(pos)
    {
      if Contains(command, "time") {
        Speak(TimeReport(name, now.time));
      } else if Contains(command, "date") {
        Speak(DateReport(name, now.date));
      }
    }

    /** `search_web`. */
    method SearchWeb(name: string, command: string)
      requires Valid()
      modifies this
      ensures Valid()
      ensures trace == old(trace) + SearchEvents(name, command) && pos == old(pos)
    {
      if Contains(command, "search") {
        var query := SearchQuery(command);
        if query != "" {
          Record(OpenBrowser(SearchUrl(query)));
          Speak(Results(name, query));
        } else {
          Speak(NoQuery);
        }
      }
    }

    /** `send_email`: one delivery attempt, then the report on its outcome. */
    method SendEmail(to: string, subject: string, body: string)
      requires Valid()
      modifies this
      ensures Valid()
      ensures trace == old(trace) + SendEmailEvents(env, pos, to, subject, body) && pos == old(pos)
    {
      var message := ComposeEmail(subject, body);
      Record(SendMail(to, message));
      var outcome := env.mail(pos, to, message);
      Speak(DeliveryReport(outcome));
    }

    /** `handle_email_command`: ask for and hear the subject, then the body, then send. Returns
        Some(OutOfInput) when the input runs out on the way. */
    method HandleEmailCommand(name: string) returns (done: Option<Status>)
      requires Valid()
      modifies this
      ensures Valid()
      ensures var r := EmailStep(name, script, old(pos), env);
        trace == old(trace) + r.events && pos == old(pos) + r.consumed && done == r.done
    {
      Speak(SubjectPrompt(name));
      var subject := Listen();
      if subject.None? {
        return Some(OutOfInput);
      }
      Speak(BodyPrompt);
      var body := Listen();
      if body.None? {
        return Some(OutOfInput);
      }
      SendEmail(Recipient, subject.value, body.value);
      done := None;
    }

    /** `get_weather`: the key guard, the city guard, the request, then the report. Returns true
        where the program raises: the request or decoding fails, or the response lacks a field
        the report reads. */
    method GetWeather(city: Option<string>) returns (crashed: bool)
      requires Valid()
      modifies this
      ensures Valid()
      ensures var e := GetWeatherEvents(env, pos, city);
        trace == old(trace) + e.events && pos == old(pos) && crashed == e.crashed
    {
      if env.apiKey.None? {
        Speak(NoKey);
        return false;
      }
      if city.None? {
        Speak(NoCity);
        return false;
      }
      var url := WeatherUrl(city.value, env.apiKey.value);
      Record(FetchWeather(url));
      var data := env.weather(pos, url);
      if data.None? {
        return true;
      }
      var report := WeatherReport(city.value, data.value);
      if report.None? {
        return true;
      }
      Speak(report.value);
      crashed := false;
    }

    /** `handle_weather_command`: ask for and hear the city, then look it up. */
    method HandleWeatherCommand(name: string) returns (done: Option<Status>)
      requires Valid()
      modifies this
      ensures Valid()
      ensures var r := WeatherStep(name, script, old(pos), env);
        trace == old(trace) + r.events && pos == old(pos) + r.consumed && done == r.done
    {
      Speak(CityPrompt(name));
      var city := Listen();
      if city.None? {
        return Some(OutOfInput);
      }
      var crashed := GetWeather(city);
      done := if crashed then Some(Crashed) else None;
    }

    /** The body of the dialogue loop after the command was heard: the `if`/`elif` chain. */
    method Dispatch(name: string, command: string) returns (done: Option<Status>)
      requires Valid() && 1 <= pos && command == script[pos - 1]
      modifies this
      ensures Valid()
      ensures var h := Handle(Classify(command), name, script, old(pos) - 1, env);
        trace == old(trace) + h.events && pos == old(pos) + h.consumed && done == h.done
    {
      ClassifyCases(command);
      if AsksExit(command) {
        Speak(Bye);
        done := Some(Goodbye);
      } else if AsksGreeting(command) {
        RespondToGreeting(name);
        done := None;
      } else if AsksTimeOrDate(command) {
        TellTimeOrDate(name, command, env.clock(pos - 1));
        done := None;
      } else if AsksSearch(command) {
        SearchWeb(name, command);
        done := None;
      } else if AsksEmail(command) {
        done := HandleEmailCommand(name);
      } else if AsksWeather(command) {
        done := HandleWeatherCommand(name);
      } else {
        Speak(Capabilities(name));
        done := None;
      }
    }

    /** One pass of the `while True` loop: hear a command and dispatch it; this is the turn the
        pass `pass` describes. Returns Some(OutOfInput) when there is no command left to hear. */
    method Pass(name: string, ghost pass: nat --> Step) returns (done: Option<Status>)
      requires Valid() && Follows(pass, name, script, env)
      modifies this
      ensures Valid()
      ensures old(pos) == |script| ==> done == Some(OutOfInput) && pos == old(pos) && trace == old(trace)
      ensures old(pos) < |script| ==>
        pass.requires(old(pos)) && trace == old(trace) + pass(old(pos)).events &&
        pos == old(pos) + pass(old(pos)).consumed && done == pass(old(pos)).done
    {
      var command := Listen();
      if command.None? {
        return Some(OutOfInput);
      }
      ghost var heard := trace;
      done := Dispatch(name, command.value);
      ghost var t := Turn(name, script, old(pos), env);
      assert trace == old(trace) + ([Hear(command.value)] + (trace[|heard|..]));
    }

    /** The `while True` loop of `main`: passes until a farewell, the end of the input, or an
        exception. It adds exactly the loop's trace and ends with the loop's status. */
    method Converse(name: string, ghost pass: nat --> Step) returns (status: Status)
      requires Valid() && Follows(pass, name, script, env) && Advances(pass, pos, |script|)
      modifies this
      ensures Valid()
      ensures var loop := Loop(pass, old(pos), |script|);
        trace == old(trace) + loop.trace && status == loop.status
    {
      ghost var start, goal := trace, Loop(pass, pos, |script|);
      while true
        invariant Valid() && Advances(pass, pos, |script|)
        invariant start + goal.trace == trace + Loop(pass, pos, |script|).trace
        invariant goal.status == Loop(pass, pos, |script|).status
        decreases |script| - pos
      {
        ghost var before, at := trace, pos;
        ghost var here := Loop(pass, at, |script|);
        if pos == |script| {
          var done := Pass(name, pass);
          return done.value;
        }
        ghost var t := pass(at);
        LoopStep(pass, at, |script|);
        var done := Pass(name, pass);
        if done.Some? {
          return done.value;
        }
        ghost var rest := Loop(pass, pos, |script|);
        assert here.trace == t.events + rest.trace;
        assert before + (t.events + rest.trace) == (before + t.events) + rest.trace;
      }
    }

    /** `main`: ask for the name, welcome, offer help, then converse. The trace and the final
        status are those of the session over the input. */
    method Run() returns (status: Status)
      requires Valid() && pos == 0 && trace == []
      modifies this
      ensures Valid()
      ensures Outcome(trace, status) == Session(script, env)
    {
      var name := GetUserName();
      if name.None? {
        return OutOfInput;
      }
      var n := name.value;
      Speak(Welcome(n));
      Speak(HelpOffer(n));
      assert trace == Startup(n);
      PassesFollow(n, script, 1, env);
      status := Converse(n, Passes(n, script, env));
    }
  }
}
