/**
 * Model of `MethodCallTracker`: a test helper that replaces one named debug
 * function (`assert`, `deprecate`, ...) of a debug environment by a stub that
 * records every call, collects expectations about those calls, and at the end
 * of a test reports a sequence of ok/fail outcomes to the test framework.
 *
 * The regular-expression engine, `checkTest` and the build-time `DEBUG` flag
 * are parameters; the framework's `assert.ok(bool, text)` is modelled by the
 * sequence of outcomes that `Assert` returns (the text is reduced to a kind).
 */
module MethodCallTracking {
  import opened Wrappers

  // ---------------------------------------------------------------------------
  // Values
  // ---------------------------------------------------------------------------

  /** A `RegExp`, known by its source text and its flags; what it accepts is up to `RegexTest`. */
  datatype Regex = Regex(source: string, flags: string)

  /** The literal `/.*\/` that stands in for a missing message. */
  const MatchAll: Regex := Regex(".*", "")

  /** `RegExp.prototype.test`, left uninterpreted. */
  type RegexTest = (Regex, string) -> bool

  /** The one thing every engine knows about `/.*\/`: `test` succeeds on every string. */
  ghost predicate AcceptsMatchAll(test: RegexTest)
  {
    forall s :: test(MatchAll, s)
  }

  /** `string | RegExp`: what an expectation says about a call's message. */
  datatype Message = Text(text: string) | Pattern(regex: Regex)

  /** The own property names of a call's options object, or `undefined`. */
  type CallOptions = Option<set<string>>

  /** `ReadonlyArray<string> | undefined`: the option keys an expectation requires. */
  type OptionList = Option<seq<string>>

  /** One recorded call `[message, passed, options]`. */
  datatype Actual = Actual(message: string, passed: bool, options: CallOptions)

  /** Which `assert.ok` call of `assert()` an outcome stands for. */
  datatype OutcomeKind =
    | DisabledInProduction
    | NoCallsExpected
    | NoCallsReceived(expectation: nat)
    | ReceivedFailing(expectation: nat)
    | NoMatchLastSuccess(expectation: nat)
    | NoMatchLastFailure(expectation: nat)
    | UnexpectedCall(index: nat)

  /** One `assert.ok(ok, ...)` reported to the test framework. */
  datatype Outcome = Outcome(ok: bool, kind: OutcomeKind)

  /** A JavaScript `boolean | number`, as `isExpectingCalls()` returns. */
  datatype JsValue = Bool(b: bool) | Number(n: int)

  predicate IsTruthy(v: JsValue)
  {
    match v
    case Bool(b) => b
    case Number(n) => n != 0
  }

  /** `message` as a JavaScript condition: `undefined` and `""` are falsy, a `RegExp` is not. */
  predicate IsTruthyMessage(message: Option<Message>)
  {
    message.Some? && message.value != Text("")
  }

  /** `message || /.*\/` */
  function ExpectedMessage(message: Option<Message>): (r: Message)
    ensures IsTruthyMessage(message) ==> r == message.value
    ensures !IsTruthyMessage(message) ==> r == Pattern(MatchAll)
    ensures IsTruthyMessage(Some(r))
  {
    if IsTruthyMessage(message) then message.value else Pattern(MatchAll)
  }

  // ---------------------------------------------------------------------------
  // The matching rule
  // ---------------------------------------------------------------------------

  /** The message test: a pattern that accepts it, or the identical string. */
  predicate MessageMatches(test: RegexTest, expected: Message, message: string)
  {
    match expected
    case Pattern(r) => test(r, message)
    case Text(s) => s == message
  }

  /** No option list accepts anything; otherwise the call carries options owning every listed key. */
  predicate OptionListMatches(expected: OptionList, options: CallOptions)
  {
    || expected.None?
    || (options.Some? && forall k :: k in expected.value ==> k in options.value)
  }

  /** A call satisfies an expectation: it failed, and message and options both match. */
  predicate Matches(test: RegexTest, expected: Message, optionList: OptionList, actual: Actual)
  {
    && !actual.passed
    && MessageMatches(test, expected, actual.message)
    && OptionListMatches(optionList, actual.options)
  }

  /** Some expectation with index below `upTo` is satisfied by `actual`. */
  predicate MatchedBy(test: RegexTest, messages: seq<Message>, optionLists: seq<OptionList>,
                      upTo: nat, actual: Actual)
    requires upTo <= |messages| && |messages| == |optionLists|
  {
    exists o :: 0 <= o < upTo && Matches(test, messages[o], optionLists[o], actual)
  }

  /** Some recorded call satisfies some expectation with index below `upTo`. */
  predicate SomeCallMatched(test: RegexTest, messages: seq<Message>, optionLists: seq<OptionList>,
                            upTo: nat, actuals: seq<Actual>)
    requires upTo <= |messages| && |messages| == |optionLists|
  {
    exists i :: 0 <= i < |actuals| && MatchedBy(test, messages, optionLists, upTo, actuals[i])
  }

  lemma MatchedByStep(test: RegexTest, messages: seq<Message>, optionLists: seq<OptionList>,
                      o: nat, actual: Actual)
    requires o < |messages| && |messages| == |optionLists|
    ensures MatchedBy(test, messages, optionLists, o + 1, actual)
        <==> MatchedBy(test, messages, optionLists, o, actual)
             || Matches(test, messages[o], optionLists[o], actual)
  {
    if MatchedBy(test, messages, optionLists, o + 1, actual) {
      var p :| 0 <= p < o + 1 && Matches(test, messages[p], optionLists[p], actual);
      if p < o {
        assert MatchedBy(test, messages, optionLists, o, actual);
      }
    }
  }

  lemma SomeCallMatchedStep(test: RegexTest, messages: seq<Message>, optionLists: seq<OptionList>,
                            o: nat, actuals: seq<Actual>)
    requires o < |messages| && |messages| == |optionLists|
    ensures SomeCallMatched(test, messages, optionLists, o + 1, actuals)
        <==> SomeCallMatched(test, messages, optionLists, o, actuals)
             || exists j :: 0 <= j < |actuals| && Matches(test, messages[o], optionLists[o], actuals[j])
  {
    forall j | 0 <= j < |actuals| {
      MatchedByStep(test, messages, optionLists, o, actuals[j]);
    }
  }

  /** Models lines 127-136: the option-list test of one call, with its `for…of` over the keys. */
  method OptionListMatch(expectedOptionList: OptionList, options: CallOptions)
    returns (matchesOptionList: bool)
    ensures matchesOptionList == OptionListMatches(expectedOptionList, options)
  {
    matchesOptionList := false;
    if expectedOptionList.None? {
      matchesOptionList := true;
    } else if options.Some? {
      matchesOptionList := true;
      var keys := expectedOptionList.value;
      for j := 0 to |keys|
        invariant matchesOptionList <==> forall k :: 0 <= k < j ==> keys[k] in options.value
      {
        matchesOptionList := matchesOptionList && keys[j] in options.value;
      }
    }
  }

  // ---------------------------------------------------------------------------
  // What `assert()` reports
  // ---------------------------------------------------------------------------

  /** The digit character of `d`. */
  function Digit(d: nat): char
    requires d < 10
  {
    "0123456789"[d]
  }

  /** The property key of array index `n`, as `for…in` binds it: its decimal digits. */
  function IndexKey(n: nat): (key: string)
    ensures |key| >= 1
    ensures |key| == 1 <==> n < 10
    decreases n
  {
    if n < 10 then [Digit(n)] else IndexKey(n / 10) + [Digit(n % 10)]
  }

  /**
   * The list that the expect-no-calls branch collects from `n` recorded calls.
   * The loop binds index keys, so `actual[1]` is the key's second character:
   * it is missing (and the key pushed) exactly for the indexes 0 to 9.
   */
  function NoCallsCollected(n: nat): (collected: seq<string>)
    ensures |collected| == if n < 10 then n else 10
    ensures forall k :: 0 <= k < |collected| ==> collected[k] == [Digit(k)]
  {
    if n == 0 then []
    else
      var key := IndexKey(n - 1);
      NoCallsCollected(n - 1) + (if |key| < 2 then [[key[0]]] else [])
  }

  /**
   * Models lines 90-95: the loop of the expect-no-calls branch over `n`
   * recorded calls. `for…in` binds the index keys "0", "1", ..., not the calls.
   */
  method CollectNoCallMessages(n: nat) returns (actualMessages: seq<string>)
    ensures actualMessages == NoCallsCollected(n)
    ensures |actualMessages| == 0 <==> n == 0
  {
    actualMessages := [];
    for k := 0 to n
      invariant actualMessages == NoCallsCollected(k)
    {
      var actual := IndexKey(k);
      if |actual| < 2 {
        actualMessages := actualMessages + [[actual[0]]];
      }
    }
  }

  /**
   * Models lines 111-143: one pass over the recorded calls for one expectation.
   * `actual` ends as the last call; `match` and `matched` only ever grow.
   */
  method ScanCalls(test: RegexTest, expectedMessage: Message, expectedOptionList: OptionList,
                   actuals: seq<Actual>, actual0: Option<Actual>, match0: Option<Actual>, matched0: set<nat>)
    returns (actual: Option<Actual>, matchedCall: Option<Actual>, matched: set<nat>)
    requires match0.Some? ==> !match0.value.passed
    ensures actual == if |actuals| == 0 then actual0 else Some(actuals[|actuals| - 1])
    ensures matchedCall.Some? <==>
      match0.Some? || exists j :: 0 <= j < |actuals| && Matches(test, expectedMessage, expectedOptionList, actuals[j])
    ensures matchedCall.Some? ==> !matchedCall.value.passed
    ensures forall j: nat :: j in matched <==>
      j in matched0 || (j < |actuals| && Matches(test, expectedMessage, expectedOptionList, actuals[j]))
  {
    actual, matchedCall, matched := actual0, match0, matched0;
    for i := 0 to |actuals|
      invariant actual == if i == 0 then actual0 else Some(actuals[i - 1])
      invariant matchedCall.Some? <==>
        match0.Some? || exists j :: 0 <= j < i && Matches(test, expectedMessage, expectedOptionList, actuals[j])
      invariant matchedCall.Some? ==> !matchedCall.value.passed
      invariant forall j: nat :: j in matched <==>
        j in matched0 || (j < i && Matches(test, expectedMessage, expectedOptionList, actuals[j]))
    {
      var matchesMessage := false;
      actual := Some(actuals[i]);
      if actuals[i].passed {
        continue;
      }
      if expectedMessage.Pattern? && test(expectedMessage.regex, actuals[i].message) {
        matchesMessage := true;
      } else if expectedMessage == Text(actuals[i].message) {
        matchesMessage := true;
      }
      var matchesOptionList := OptionListMatch(expectedOptionList, actuals[i].options);
      if matchesMessage && matchesOptionList {
        matchedCall := Some(actuals[i]);
        matched := matched + {i};
        continue;
      }
    }
  }

  /** The outcome reported for expectation `o`, as the chain at lines 153-175 chooses it. */
  function ExpectationOutcome(test: RegexTest, messages: seq<Message>, optionLists: seq<OptionList>,
                              actuals: seq<Actual>, o: nat): Outcome
    requires o < |messages| && |messages| == |optionLists|
  {
    if |actuals| == 0 then Outcome(false, NoCallsReceived(o))
    // `match` is never reset, so a match for any earlier expectation counts
    else if SomeCallMatched(test, messages, optionLists, o + 1, actuals) then Outcome(true, ReceivedFailing(o))
    else if actuals[|actuals| - 1].passed then Outcome(false, NoMatchLastSuccess(o))
    else Outcome(false, NoMatchLastFailure(o))
  }

  /** The outcomes of the first `n` expectations, in order. */
  function ExpectationOutcomes(test: RegexTest, messages: seq<Message>, optionLists: seq<OptionList>,
                               actuals: seq<Actual>, n: nat): (r: seq<Outcome>)
    requires n <= |messages| && |messages| == |optionLists|
    ensures |r| == n
    ensures forall o :: 0 <= o < n ==> r[o] == ExpectationOutcome(test, messages, optionLists, actuals, o)
  {
    if n == 0 then []
    else ExpectationOutcomes(test, messages, optionLists, actuals, n - 1)
         + [ExpectationOutcome(test, messages, optionLists, actuals, n - 1)]
  }

  /** A failing call that no expectation matched. */
  predicate IsUnexpected(test: RegexTest, messages: seq<Message>, optionLists: seq<OptionList>, actual: Actual)
    requires |messages| == |optionLists|
  {
    !actual.passed && !MatchedBy(test, messages, optionLists, |messages|, actual)
  }

  /** The "unexpected call" failures for the first `n` recorded calls, in call order. */
  function UnexpectedOutcomes(test: RegexTest, messages: seq<Message>, optionLists: seq<OptionList>,
                              actuals: seq<Actual>, n: nat): (r: seq<Outcome>)
    requires n <= |actuals| && |messages| == |optionLists|
    ensures forall k :: 0 <= k < |r| ==>
      !r[k].ok && r[k].kind.UnexpectedCall? && r[k].kind.index < n
    ensures forall p, q :: 0 <= p < q < |r| ==> r[p].kind.index < r[q].kind.index
  {
    if n == 0 then []
    else
      UnexpectedOutcomes(test, messages, optionLists, actuals, n - 1)
      + (if IsUnexpected(test, messages, optionLists, actuals[n - 1])
         then [Outcome(false, UnexpectedCall(n - 1))] else [])
  }

  /** Everything `assert()` reports, given the tracker's state. */
  function AssertOutcomes(debug: bool, test: RegexTest, isExpectingNoCalls: bool,
                          messages: seq<Message>, optionLists: seq<OptionList>,
                          actuals: seq<Actual>): seq<Outcome>
    requires |messages| == |optionLists|
  {
    if !isExpectingNoCalls && |messages| == 0 && |actuals| == 0 then []
    else if !debug then [Outcome(true, DisabledInProduction)]
    else if isExpectingNoCalls then [Outcome(|actuals| == 0, NoCallsExpected)]
    else ExpectationOutcomes(test, messages, optionLists, actuals, |messages|)
         + UnexpectedOutcomes(test, messages, optionLists, actuals, |actuals|)
  }

  // ---------------------------------------------------------------------------
  // The tracker and the debug environment it patches
  // ---------------------------------------------------------------------------

  /** A function installed in the debug environment: the host's own, or a tracker's recording stub. */
  datatype DebugFunction = HostFunction(id: nat) | Recorder(tracker: MethodCallTracker)

  /** The registry of debug functions, by name. */
  class DebugEnv {
    var functions: map<string, DebugFunction>

    constructor (functions: map<string, DebugFunction>)
      ensures this.functions == functions
    {
      this.functions := functions;
    }

    /** `getDebugFunction(name)`: `undefined` when nothing is installed under `name`. */
    function GetDebugFunction(name: string): (r: Option<DebugFunction>)
      reads this
      ensures r.None? <==> name !in functions
      ensures r.Some? ==> name in functions && r.value == functions[name]
    {
      if name in functions then Some(functions[name]) else None
    }

    method SetDebugFunction(name: string, f: DebugFunction)
      modifies this
      ensures functions == old(functions)[name := f]
    {
      functions := functions[name := f];
    }
  }

  class MethodCallTracker {
    const env: DebugEnv
    const methodName: string
    var isExpectingNoCalls: bool
    var expectedMessages: seq<Message>
    var expectedOptionLists: seq<OptionList>
    var actuals: seq<Actual>
    var originalMethod: Option<DebugFunction>

    /** The two expectation lists grow together: index k describes the k-th expected call. */
    ghost predicate Valid()
      reads this
    {
      |expectedMessages| == |expectedOptionLists|
    }

    constructor (env: DebugEnv, methodName: string)
      ensures Valid() && this.env == env && this.methodName == methodName
      ensures !isExpectingNoCalls && originalMethod.None?
      ensures expectedMessages == [] && expectedOptionLists == [] && actuals == []
    {
      this.env := env;
      this.methodName := methodName;
      isExpectingNoCalls := false;
      expectedMessages := [];
      expectedOptionLists := [];
      actuals := [];
      originalMethod := None;
    }

    /** Captures the installed function (once) and installs the recording stub in its place. */
    method StubMethod()
      requires Valid()
      modifies this`originalMethod, env
      ensures Valid()
      ensures old(originalMethod).Some? ==>
        originalMethod == old(originalMethod) && env.functions == old(env.functions)
      ensures old(originalMethod).None? ==>
        && originalMethod == old(env.GetDebugFunction(methodName))
        && env.functions == old(env.functions)[methodName := Recorder(this)]
    {
      if originalMethod.Some? {
        // already stubbed
        return;
      }
      originalMethod := env.GetDebugFunction(methodName);
      env.SetDebugFunction(methodName, Recorder(this));
    }

    /** The body of the installed stub: `passed` is the value of `checkTest(test)`. */
    method RecordCall(message: string, passed: bool, options: CallOptions)
      requires Valid()
      modifies this`actuals
      ensures Valid()
      ensures actuals == old(actuals) + [Actual(message, passed, options)]
    {
      actuals := actuals + [Actual(message, passed, options)];
    }

    /** Puts the captured function back, if one was captured. */
    method RestoreMethod()
      modifies env
      ensures originalMethod.Some? ==> env.functions == old(env.functions)[methodName := originalMethod.value]
      ensures originalMethod.None? ==> env.functions == old(env.functions)
    {
      if originalMethod.Some? {
        env.SetDebugFunction(methodName, originalMethod.value);
      }
    }

    method ExpectCall(message: Option<Message>, options: OptionList)
      requires Valid()
      modifies this`originalMethod, this`expectedMessages, this`expectedOptionLists, env
      ensures Valid()
      ensures expectedMessages == old(expectedMessages) + [ExpectedMessage(message)]
      ensures expectedOptionLists == old(expectedOptionLists) + [options]
      ensures old(originalMethod).Some? ==>
        originalMethod == old(originalMethod) && env.functions == old(env.functions)
      ensures old(originalMethod).None? ==>
        && originalMethod == old(env.GetDebugFunction(methodName))
        && env.functions == old(env.functions)[methodName := Recorder(this)]
    {
      StubMethod();
      expectedMessages := expectedMessages + [ExpectedMessage(message)];
      expectedOptionLists := expectedOptionLists + [options];
    }

    method ExpectNoCalls()
      requires Valid()
      modifies this`originalMethod, this`isExpectingNoCalls, env
      ensures Valid()
      ensures isExpectingNoCalls
      ensures old(originalMethod).Some? ==>
        originalMethod == old(originalMethod) && env.functions == old(env.functions)
      ensures old(originalMethod).None? ==>
        && originalMethod == old(env.GetDebugFunction(methodName))
        && env.functions == old(env.functions)[methodName := Recorder(this)]
    {
      StubMethod();
      isExpectingNoCalls := true;
    }

    function IsExpectingNoCalls(): (r: bool)
      reads this
      ensures r ==> !IsTruthy(IsExpectingCalls())
    {
      isExpectingNoCalls
    }

    /** `!isExpectingNoCalls && expectedMessages.length`: `false` or a count. */
    function IsExpectingCalls(): (r: JsValue)
      reads this
      ensures IsTruthy(r) <==> !isExpectingNoCalls && |expectedMessages| > 0
      ensures r.Number? ==> r.n == |expectedMessages|
    {
      if isExpectingNoCalls then Bool(false) else Number(|expectedMessages|)
    }

    /** Matches the recorded calls against the expectations and returns what it reports. */
    method Assert(debug: bool, test: RegexTest) returns (outcomes: seq<Outcome>)
      requires Valid()
      ensures outcomes == AssertOutcomes(debug, test, isExpectingNoCalls,
                                         expectedMessages, expectedOptionLists, actuals)
    {
      outcomes := [];
      if !isExpectingNoCalls && |expectedMessages| == 0 && |actuals| == 0 {
        return;
      }
      if !debug {
        outcomes := [Outcome(true, DisabledInProduction)];
        return;
      }
      if isExpectingNoCalls {
        var actualMessages := CollectNoCallMessages(|actuals|);
        outcomes := [Outcome(|actualMessages| == 0, NoCallsExpected)];
        return;
      }

      var actual: Option<Actual> := None;
      var matchedCall: Option<Actual> := None;
      var matched: set<nat> := {};
      for o := 0 to |expectedMessages|
        invariant forall j: nat :: j in matched <==>
          j < |actuals| && MatchedBy(test, expectedMessages, expectedOptionLists, o, actuals[j])
        invariant matchedCall.Some? <==> SomeCallMatched(test, expectedMessages, expectedOptionLists, o, actuals)
        invariant matchedCall.Some? ==> !matchedCall.value.passed
        invariant actual == if o == 0 || |actuals| == 0 then None else Some(actuals[|actuals| - 1])
        invariant outcomes == ExpectationOutcomes(test, expectedMessages, expectedOptionLists, actuals, o)
      {
        actual, matchedCall, matched :=
          ScanCalls(test, expectedMessages[o], expectedOptionLists[o], actuals, actual, matchedCall, matched);
        SomeCallMatchedStep(test, expectedMessages, expectedOptionLists, o, actuals);
        forall j | 0 <= j < |actuals| {
          MatchedByStep(test, expectedMessages, expectedOptionLists, o, actuals[j]);
        }

        if actual.None? {
          outcomes := outcomes + [Outcome(false, NoCallsReceived(o))];
        } else if matchedCall.Some? && !matchedCall.value.passed {
          outcomes := outcomes + [Outcome(true, ReceivedFailing(o))];
        } else if matchedCall.Some? {
          // `match && match[1]`: passing calls are skipped before they can match
          assert false;
        } else if actual.value.passed {
          outcomes := outcomes + [Outcome(false, NoMatchLastSuccess(o))];
        } else if !actual.value.passed {
          outcomes := outcomes + [Outcome(false, NoMatchLastFailure(o))];
        }
      }

      ghost var expectationOutcomes := outcomes;
      for i := 0 to |actuals|
        invariant outcomes == expectationOutcomes
          + UnexpectedOutcomes(test, expectedMessages, expectedOptionLists, actuals, i)
      {
        if i !in matched && !actuals[i].passed {
          outcomes := outcomes + [Outcome(false, UnexpectedCall(i))];
        }
      }
    }
  }

  // ---------------------------------------------------------------------------
  // Properties of what `assert()` reports
  // ---------------------------------------------------------------------------

  /** An expectation with a falsy message and no option list is met by every failing call. */
  lemma DefaultExpectationMatchesAnyFailingCall(test: RegexTest, message: Option<Message>, actual: Actual)
    requires AcceptsMatchAll(test)
    requires !IsTruthyMessage(message)
    ensures Matches(test, ExpectedMessage(message), None, actual) <==> !actual.passed
  {
  }

  /** A pattern without an option list is met by a failing call exactly when the pattern accepts its message. */
  lemma PatternWithoutOptionsIgnoresOptions(test: RegexTest, r: Regex, actual: Actual)
    ensures Matches(test, Pattern(r), None, actual) <==> !actual.passed && test(r, actual.message)
  {
  }

  /** A passing call is matched by no expectation. */
  lemma PassingCallNeverMatched(test: RegexTest, messages: seq<Message>, optionLists: seq<OptionList>,
                                upTo: nat, actual: Actual)
    requires upTo <= |messages| && |messages| == |optionLists|
    requires actual.passed
    ensures !MatchedBy(test, messages, optionLists, upTo, actual)
  {
  }

  /** Each expectation yields exactly one outcome, in order, followed only by "unexpected call" failures. */
  lemma OneOutcomePerExpectation(test: RegexTest, messages: seq<Message>, optionLists: seq<OptionList>,
                                 actuals: seq<Actual>)
    requires |messages| == |optionLists|
    ensures var r := AssertOutcomes(true, test, false, messages, optionLists, actuals);
      && |r| >= |messages|
      && (forall o :: 0 <= o < |messages| ==>
            && !r[o].kind.UnexpectedCall?
            && r[o].kind.expectation == o
            && (r[o].kind.NoCallsReceived? <==> |actuals| == 0)
            && (r[o].ok <==> (|actuals| > 0 &&
                  exists i, p :: 0 <= i < |actuals| && 0 <= p <= o &&
                    Matches(test, messages[p], optionLists[p], actuals[i]))))
      && (forall k :: |messages| <= k < |r| ==> r[k].kind.UnexpectedCall? && !r[k].ok)
  {
    var r := AssertOutcomes(true, test, false, messages, optionLists, actuals);
    if |messages| == 0 && |actuals| == 0 {
      assert r == [];
    } else {
      var e := ExpectationOutcomes(test, messages, optionLists, actuals, |messages|);
      var u := UnexpectedOutcomes(test, messages, optionLists, actuals, |actuals|);
      assert r == e + u;
      forall o | 0 <= o < |messages|
        ensures r[o].ok <==> (|actuals| > 0 &&
                  exists i, p :: 0 <= i < |actuals| && 0 <= p <= o &&
                    Matches(test, messages[p], optionLists[p], actuals[i]))
      {
        assert r[o] == ExpectationOutcome(test, messages, optionLists, actuals, o);
        if SomeCallMatched(test, messages, optionLists, o + 1, actuals) {
          var i :| 0 <= i < |actuals| && MatchedBy(test, messages, optionLists, o + 1, actuals[i]);
          var p :| 0 <= p < o + 1 && Matches(test, messages[p], optionLists[p], actuals[i]);
        }
      }
      forall k | |messages| <= k < |r|
        ensures r[k].kind.UnexpectedCall? && !r[k].ok
      {
        assert r[k] == u[k - |messages|];
      }
    }
  }

  /**
   * Because `match` is never reset, every expectation reports ok exactly when
   * some recorded call matched the FIRST expectation.
   */
  lemma ExpectationsOkIffFirstMatched(test: RegexTest, messages: seq<Message>, optionLists: seq<OptionList>,
                                      actuals: seq<Actual>)
    requires 0 < |messages| && |messages| == |optionLists|
    ensures (forall o :: 0 <= o < |messages| ==> ExpectationOutcome(test, messages, optionLists, actuals, o).ok)
        <==> exists i :: 0 <= i < |actuals| && Matches(test, messages[0], optionLists[0], actuals[i])
  {
    if ExpectationOutcome(test, messages, optionLists, actuals, 0).ok {
      var i :| 0 <= i < |actuals| && MatchedBy(test, messages, optionLists, 1, actuals[i]);
      var p :| 0 <= p < 1 && Matches(test, messages[p], optionLists[p], actuals[i]);
    }
    if exists i :: 0 <= i < |actuals| && Matches(test, messages[0], optionLists[0], actuals[i]) {
      var i :| 0 <= i < |actuals| && Matches(test, messages[0], optionLists[0], actuals[i]);
      forall o | 0 <= o < |messages|
        ensures ExpectationOutcome(test, messages, optionLists, actuals, o).ok
      {
        assert MatchedBy(test, messages, optionLists, o + 1, actuals[i]);
      }
    }
  }

  /** An "unexpected call" failure names call `i` exactly when call `i` failed and no expectation matched it. */
  lemma {:induction false} UnexpectedCallReported(test: RegexTest, messages: seq<Message>,
                                                  optionLists: seq<OptionList>, actuals: seq<Actual>,
                                                  n: nat, i: nat)
    requires n <= |actuals| && |messages| == |optionLists|
    ensures Outcome(false, UnexpectedCall(i)) in UnexpectedOutcomes(test, messages, optionLists, actuals, n)
        <==> (i < n && IsUnexpected(test, messages, optionLists, actuals[i]))
  {
    if n > 0 {
      UnexpectedCallReported(test, messages, optionLists, actuals, n - 1, i);
      var prefix := UnexpectedOutcomes(test, messages, optionLists, actuals, n - 1);
      if Outcome(false, UnexpectedCall(i)) in prefix {
        var k :| 0 <= k < |prefix| && prefix[k] == Outcome(false, UnexpectedCall(i));
        assert i < n - 1;
      }
    }
  }

  /** No "unexpected call" failure is reported exactly when every failing call was matched. */
  lemma {:induction false} NoUnexpectedCallsIff(test: RegexTest, messages: seq<Message>,
                                                optionLists: seq<OptionList>, actuals: seq<Actual>, n: nat)
    requires n <= |actuals| && |messages| == |optionLists|
    ensures UnexpectedOutcomes(test, messages, optionLists, actuals, n) == []
        <==> (forall i :: 0 <= i < n ==> !IsUnexpected(test, messages, optionLists, actuals[i]))
  {
    if n > 0 {
      NoUnexpectedCallsIff(test, messages, optionLists, actuals, n - 1);
    }
  }

  /** Every outcome in `outcomes` is ok: the test passes. */
  predicate AllOk(outcomes: seq<Outcome>)
  {
    forall k :: 0 <= k < |outcomes| ==> outcomes[k].ok
  }

  lemma AllOkAppend(a: seq<Outcome>, b: seq<Outcome>)
    ensures AllOk(a + b) <==> AllOk(a) && AllOk(b)
  {
    if AllOk(a + b) {
      forall k | 0 <= k < |a| ensures a[k].ok {
        assert (a + b)[k] == a[k];
      }
      forall k | 0 <= k < |b| ensures b[k].ok {
        assert (a + b)[|a| + k] == b[k];
      }
    }
    if AllOk(a) && AllOk(b) {
      forall k | 0 <= k < |a + b| ensures (a + b)[k].ok {
        if k >= |a| {
          assert (a + b)[k] == b[k - |a|];
        }
      }
    }
  }

  /**
   * With expectations declared, a DEBUG build passes (every outcome ok) exactly
   * when there is no expectation or the first one was matched, and every
   * failing call was matched by some expectation.
   */
  lemma AssertPassesIff(test: RegexTest, messages: seq<Message>, optionLists: seq<OptionList>,
                        actuals: seq<Actual>)
    requires |messages| == |optionLists|
    ensures AllOk(AssertOutcomes(true, test, false, messages, optionLists, actuals))
      <==> && (|messages| == 0 ||
               exists i :: 0 <= i < |actuals| && Matches(test, messages[0], optionLists[0], actuals[i]))
           && (forall i :: 0 <= i < |actuals| && !actuals[i].passed ==>
                 MatchedBy(test, messages, optionLists, |messages|, actuals[i]))
  {
    if |messages| > 0 || |actuals| > 0 {
      var e := ExpectationOutcomes(test, messages, optionLists, actuals, |messages|);
      var u := UnexpectedOutcomes(test, messages, optionLists, actuals, |actuals|);
      assert AssertOutcomes(true, test, false, messages, optionLists, actuals) == e + u;
      AllOkAppend(e, u);
      assert AllOk(e) <==>
        forall o :: 0 <= o < |messages| ==> ExpectationOutcome(test, messages, optionLists, actuals, o).ok;
      NoUnexpectedCallsIff(test, messages, optionLists, actuals, |actuals|);
      if u != [] {
        assert !u[0].ok;
      }
      assert AllOk(u) <==> u == [];
      assert u == [] <==> forall i :: 0 <= i < |actuals| && !actuals[i].passed ==>
                 MatchedBy(test, messages, optionLists, |messages|, actuals[i]);
      if 0 < |messages| {
        ExpectationsOkIffFirstMatched(test, messages, optionLists, actuals);
      }
      assert AllOk(e) <==> (|messages| == 0 ||
               exists i :: 0 <= i < |actuals| && Matches(test, messages[0], optionLists[0], actuals[i]));
    } else {
      assert AssertOutcomes(true, test, false, messages, optionLists, actuals) == [];
    }
  }

  /**
   * Calls are not consumed: every expectation re-scans every call, so one
   * failing call meets two expectations with the same message.
   */
  lemma OneCallMeetsTwoExpectations(test: RegexTest)
    ensures AllOk(AssertOutcomes(true, test, false, [Text("a"), Text("a")], [None, None],
                                 [Actual("a", false, None)]))
  {
    var messages := [Text("a"), Text("a")];
    var optionLists: seq<OptionList> := [None, None];
    var actuals := [Actual("a", false, None)];
    AssertPassesIff(test, messages, optionLists, actuals);
    assert Matches(test, messages[0], optionLists[0], actuals[0]);
    assert MatchedBy(test, messages, optionLists, |messages|, actuals[0]);
  }
}
