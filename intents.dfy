/** The command classifier: the `if`/`elif` chain of the dialogue loop, which tests the
    recognised (lower-cased) command for keywords in a fixed order; the first test that
    succeeds decides what the assistant does. The loop's decision is stated as a walk over an
    ordered keyword table, and proved equal to the chain as written. */
module Intents {

  import opened Text

  /** What a command asks for; one per branch of the chain. */
  datatype Intent = Farewell | Greeting | TimeOrDate | WebSearch | SendEmail | WeatherQuery | Unrecognized

  predicate AsksExit(command: string) { Contains(command, "exit") || Contains(command, "stop") }
  predicate AsksGreeting(command: string) { Contains(command, "hello") || Contains(command, "what is your name") }
  predicate AsksTimeOrDate(command: string) { Contains(command, "time") || Contains(command, "date") }
  predicate AsksSearch(command: string) { Contains(command, "search") }
  predicate AsksEmail(command: string) { Contains(command, "email") }
  predicate AsksWeather(command: string) { Contains(command, "weather") }

  /** The branch of the chain a command takes, written as the chain is. */
  function Chain(command: string): Intent
  {
    if AsksExit(command) then Farewell
    else if AsksGreeting(command) then Greeting
    else if AsksTimeOrDate(command) then TimeOrDate
    else if AsksSearch(command) then WebSearch
    else if AsksEmail(command) then SendEmail
    else if AsksWeather(command) then WeatherQuery
    else Unrecognized
  }

  /** First match wins: each intent is chosen exactly when its own keywords are present and
      none of an earlier branch's are. */
  lemma ClassifyCases(command: string)
    ensures Classify(command) == Farewell <==> AsksExit(command)
    ensures Classify(command) == Greeting <==> !AsksExit(command) && AsksGreeting(command)
    ensures Classify(command) == TimeOrDate <==> !AsksExit(command) && !AsksGreeting(command) && AsksTimeOrDate(command)
    ensures Classify(command) == WebSearch <==>
      !AsksExit(command) && !AsksGreeting(command) && !AsksTimeOrDate(command) && AsksSearch(command)
    ensures Classify(command) == SendEmail <==>
      !AsksExit(command) && !AsksGreeting(command) && !AsksTimeOrDate(command) && !AsksSearch(command) &&
      AsksEmail(command)
    ensures Classify(command) == WeatherQuery <==>
      !AsksExit(command) && !AsksGreeting(command) && !AsksTimeOrDate(command) && !AsksSearch(command) &&
      !AsksEmail(command) && AsksWeather(command)
    ensures Classify(command) == Unrecognized <==>
      !AsksExit(command) && !AsksGreeting(command) && !AsksTimeOrDate(command) && !AsksSearch(command) &&
      !AsksEmail(command) && !AsksWeather(command)
  {
    ClassifyIsChain(command);
  }

  // ---------------------------------------------------------------------------
  // The same decision as an explicit ordered rule table
  // ---------------------------------------------------------------------------

  /** One row of the table: any of the keywords selects the intent. */
  datatype Rule = Rule(keywords: seq<string>, intent: Intent)

  /** Some keyword of the rule occurs in the command. */
  predicate Fires(rule: Rule, command: string)
  {
    exists k :: 0 <= k < |rule.keywords| && Contains(command, rule.keywords[k])
  }

  /** Top-down evaluation of a rule table: the intent of the first rule that fires. */
  function FirstMatch(rules: seq<Rule>, command: string, fallback: Intent): Intent
  {
    if |rules| == 0 then fallback
    else if Fires(rules[0], command) then rules[0].intent
    else FirstMatch(rules[1..], command, fallback)
  }

  /** The classifier's keywords, in the order the chain tests them. */
  const Rules: seq<Rule> := [
    Rule(["exit", "stop"], Farewell),
    Rule(["hello", "what is your name"], Greeting),
    Rule(["time", "date"], TimeOrDate),
    Rule(["search"], WebSearch),
    Rule(["email"], SendEmail),
    Rule(["weather"], WeatherQuery)
  ]

  /** The intent the dialogue loop acts on: that of the first rule in the table that fires. */
  function Classify(command: string): Intent
  {
    FirstMatch(Rules, command, Unrecognized)
  }

  /** Strictly first match: the rule chosen is the earliest that fires, whatever later rules
      would also have fired. */
  lemma {:induction false} FirstMatchIsEarliest(rules: seq<Rule>, command: string, fallback: Intent, j: nat)
    requires j < |rules| && Fires(rules[j], command)
    requires forall k :: 0 <= k < j ==> !Fires(rules[k], command)
    ensures FirstMatch(rules, command, fallback) == rules[j].intent
  {
    if j > 0 {
      assert !Fires(rules[0], command);
      assert rules[1..][j - 1] == rules[j];
      FirstMatchIsEarliest(rules[1..], command, fallback, j - 1);
    }
  }

  /** A command that fires no rule gets the fallback. */
  lemma {:induction false} FirstMatchFallsBack(rules: seq<Rule>, command: string, fallback: Intent)
    requires forall k :: 0 <= k < |rules| ==> !Fires(rules[k], command)
    ensures FirstMatch(rules, command, fallback) == fallback
  {
    if |rules| > 0 {
      assert !Fires(rules[0], command);
      FirstMatchFallsBack(rules[1..], command, fallback);
    }
  }

  /** A two-keyword rule fires exactly when one of its keywords occurs. */
  lemma FiresPair(a: string, b: string, i: Intent, command: string)
    ensures Fires(Rule([a, b], i), command) <==> Contains(command, a) || Contains(command, b)
  {
    var r := Rule([a, b], i);
    if Contains(command, a) { assert Contains(command, r.keywords[0]); }
    if Contains(command, b) { assert Contains(command, r.keywords[1]); }
  }

  /** A one-keyword rule fires exactly when its keyword occurs. */
  lemma FiresSingle(a: string, i: Intent, command: string)
    ensures Fires(Rule([a], i), command) <==> Contains(command, a)
  {
    var r := Rule([a], i);
    if Contains(command, a) { assert Contains(command, r.keywords[0]); }
  }

  /** The table and the chain make the same decision on every command. */
  lemma ClassifyIsChain(command: string)
    ensures Classify(command) == Chain(command)
  {
    FiresPair("exit", "stop", Farewell, command);
    FiresPair("hello", "what is your name", Greeting, command);
    FiresPair("time", "date", TimeOrDate, command);
    FiresSingle("search", WebSearch, command);
    FiresSingle("email", SendEmail, command);
    FiresSingle("weather", WeatherQuery, command);
    assert Rules[0] == Rule(["exit", "stop"], Farewell);
    var r1 := Rules[1..];
    var r2 := r1[1..];
    var r3 := r2[1..];
    var r4 := r3[1..];
    var r5 := r4[1..];
    assert r1[0] == Rule(["hello", "what is your name"], Greeting);
    assert r2[0] == Rule(["time", "date"], TimeOrDate);
    assert r3[0] == Rule(["search"], WebSearch);
    assert r4[0] == Rule(["email"], SendEmail);
    assert r5 == [Rule(["weather"], WeatherQuery)];
    assert FirstMatch(r5[1..], command, Unrecognized) == Unrecognized;
    assert FirstMatch(r5, command, Unrecognized) == if AsksWeather(command) then WeatherQuery else Unrecognized;
    assert FirstMatch(r4, command, Unrecognized) == if AsksEmail(command) then SendEmail else FirstMatch(r5, command, Unrecognized);
    assert FirstMatch(r3, command, Unrecognized) == if AsksSearch(command) then WebSearch else FirstMatch(r4, command, Unrecognized);
    assert FirstMatch(r2, command, Unrecognized) == if AsksTimeOrDate(command) then TimeOrDate else FirstMatch(r3, command, Unrecognized);
    assert FirstMatch(r1, command, Unrecognized) == if AsksGreeting(command) then Greeting else FirstMatch(r2, command, Unrecognized);
  }

  // ---------------------------------------------------------------------------
  // Consequences of the order
  // ---------------------------------------------------------------------------

  /** Commands that look like two requests are resolved by the earlier branch: search beats
      weather, time beats search, a greeting beats email, and exit beats everything. */
  lemma ShadowedKeywords(command: string)
    ensures AsksExit(command) ==> Classify(command) == Farewell
    ensures (!AsksExit(command) && !AsksGreeting(command) && !AsksTimeOrDate(command) &&
             AsksSearch(command) && AsksWeather(command)) ==> Classify(command) == WebSearch
    ensures (!AsksExit(command) && !AsksGreeting(command) && Contains(command, "time") &&
             AsksSearch(command)) ==> Classify(command) == TimeOrDate
    ensures !AsksExit(command) && Contains(command, "hello") && AsksEmail(command) ==>
            Classify(command) == Greeting
  {
    ClassifyIsChain(command);
  }

  /** An empty capture, which is what `listen` returns when recognition fails, matches no rule. */
  lemma EmptyCommandExample()
    ensures Classify("") == Unrecognized
  {
    ClassifyIsChain("");
  }

}
