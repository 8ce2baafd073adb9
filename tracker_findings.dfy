/**
 * Two places where `MethodCallTracker.assert()` does not do what it evidently
 * means to do, each shown on a concrete input against the as-written model in
 * `MethodCallTracking`, next to a corrected definition and its property.
 *
 * 1. The expect-no-calls branch loops with `for…in`, which binds the index
 *    keys "0", "1", ..., not the recorded calls, so any call at all (even a
 *    passing one) fails the test, and the reported list holds digits.
 * 2. `match` is declared once outside the loop over expectations and never
 *    reset, so once one expectation is matched every later one reports ok
 *    whether or not a call matched it.
 */
module TrackerFindings {
  import opened Wrappers
  import opened MethodCallTracking

  // ---------------------------------------------------------------------------
  // Finding 1: the no-calls check, as `for…of` over the calls
  // ---------------------------------------------------------------------------

  /** The messages of the failing calls, in call order. */
  function FailingMessages(actuals: seq<Actual>): (r: seq<string>)
    ensures |r| <= |actuals|
    ensures |r| == 0 <==> forall i :: 0 <= i < |actuals| ==> actuals[i].passed
    ensures forall m :: m in r <==> exists i :: 0 <= i < |actuals| && !actuals[i].passed && actuals[i].message == m
  {
    if |actuals| == 0 then []
    else
      var last := actuals[|actuals| - 1];
      var prefix := actuals[..|actuals| - 1];
      assert forall i :: 0 <= i < |prefix| ==> prefix[i] == actuals[i];
      FailingMessages(prefix) + (if last.passed then [] else [last.message])
  }

  /** The no-calls branch as evidently intended: the loop runs over the calls themselves. */
  method CollectFailingMessages(actuals: seq<Actual>) returns (actualMessages: seq<string>)
    ensures actualMessages == FailingMessages(actuals)
  {
    actualMessages := [];
    for i := 0 to |actuals|
      invariant actualMessages == FailingMessages(actuals[..i])
    {
      var actual := actuals[i];
      assert actuals[..i + 1][..i] == actuals[..i];
      if !actual.passed {
        actualMessages := actualMessages + [actual.message];
      }
    }
    assert actuals[..|actuals|] == actuals;
  }

  /** The intended no-calls outcome: ok exactly when no recorded call failed. */
  function IntendedNoCallsOutcome(actuals: seq<Actual>): (r: Outcome)
    ensures r.kind == NoCallsExpected
    ensures r.ok <==> forall i :: 0 <= i < |actuals| ==> actuals[i].passed
  {
    Outcome(|FailingMessages(actuals)| == 0, NoCallsExpected)
  }

  /** As written, one passing call fails the no-calls check; the intended check accepts it. */
  lemma PassingCallFailsNoCallsCheck(test: RegexTest)
    ensures var actuals := [Actual("harmless", true, None)];
      && AssertOutcomes(true, test, true, [], [], actuals) == [Outcome(false, NoCallsExpected)]
      && IntendedNoCallsOutcome(actuals).ok
  {
  }

  /** As written, the reported list holds the index digits, not the messages of the failing calls. */
  lemma {:induction false} NoCallsListHoldsIndexes(actuals: seq<Actual>)
    requires |actuals| > 0 && !actuals[0].passed && actuals[0].message != "0"
    ensures NoCallsCollected(|actuals|)[0] == "0"
    ensures FailingMessages(actuals)[0] == actuals[0].message
  {
    FailingMessagesHead(actuals);
  }

  lemma {:induction false} FailingMessagesHead(actuals: seq<Actual>)
    requires |actuals| > 0 && !actuals[0].passed
    ensures |FailingMessages(actuals)| > 0 && FailingMessages(actuals)[0] == actuals[0].message
  {
    if |actuals| > 1 {
      var prefix := actuals[..|actuals| - 1];
      assert prefix[0] == actuals[0];
      FailingMessagesHead(prefix);
    }
  }

  // ---------------------------------------------------------------------------
  // Finding 2: each expectation judged by its own matches
  // ---------------------------------------------------------------------------

  /** Some recorded call satisfies expectation `o` itself. */
  predicate ExpectationMet(test: RegexTest, messages: seq<Message>, optionLists: seq<OptionList>,
                           actuals: seq<Actual>, o: nat)
    requires o < |messages| && |messages| == |optionLists|
  {
    exists i :: 0 <= i < |actuals| && Matches(test, messages[o], optionLists[o], actuals[i])
  }

  /** The outcome for expectation `o` with `match` reset before its scan. */
  function IntendedExpectationOutcome(test: RegexTest, messages: seq<Message>, optionLists: seq<OptionList>,
                                      actuals: seq<Actual>, o: nat): (r: Outcome)
    requires o < |messages| && |messages| == |optionLists|
    ensures r.ok <==> ExpectationMet(test, messages, optionLists, actuals, o)
    ensures r.kind.NoCallsReceived? <==> |actuals| == 0
    ensures !r.kind.UnexpectedCall?
  {
    if |actuals| == 0 then Outcome(false, NoCallsReceived(o))
    else if ExpectationMet(test, messages, optionLists, actuals, o) then Outcome(true, ReceivedFailing(o))
    else if actuals[|actuals| - 1].passed then Outcome(false, NoMatchLastSuccess(o))
    else Outcome(false, NoMatchLastFailure(o))
  }

  function IntendedExpectationOutcomes(test: RegexTest, messages: seq<Message>, optionLists: seq<OptionList>,
                                       actuals: seq<Actual>, n: nat): (r: seq<Outcome>)
    requires n <= |messages| && |messages| == |optionLists|
    ensures |r| == n
    ensures forall o :: 0 <= o < n ==> r[o] == IntendedExpectationOutcome(test, messages, optionLists, actuals, o)
  {
    if n == 0 then []
    else IntendedExpectationOutcomes(test, messages, optionLists, actuals, n - 1)
         + [IntendedExpectationOutcome(test, messages, optionLists, actuals, n - 1)]
  }

  /** Everything `assert()` would report with both corrections. */
  function IntendedAssertOutcomes(debug: bool, test: RegexTest, isExpectingNoCalls: bool,
                                  messages: seq<Message>, optionLists: seq<OptionList>,
                                  actuals: seq<Actual>): seq<Outcome>
    requires |messages| == |optionLists|
  {
    if !isExpectingNoCalls && |messages| == 0 && |actuals| == 0 then []
    else if !debug then [Outcome(true, DisabledInProduction)]
    else if isExpectingNoCalls then [IntendedNoCallsOutcome(actuals)]
    else IntendedExpectationOutcomes(test, messages, optionLists, actuals, |messages|)
         + UnexpectedOutcomes(test, messages, optionLists, actuals, |actuals|)
  }

  /**
   * With both corrections a DEBUG build passes exactly when: in no-calls mode,
   * every call passed; otherwise every expectation is matched by some call
   * (calls are not consumed: one call may meet several expectations) and every
   * failing call was matched by some expectation.
   */
  lemma IntendedAssertPassesIff(test: RegexTest, isExpectingNoCalls: bool, messages: seq<Message>,
                                optionLists: seq<OptionList>, actuals: seq<Actual>)
    requires |messages| == |optionLists|
    ensures AllOk(IntendedAssertOutcomes(true, test, isExpectingNoCalls, messages, optionLists, actuals))
      <==> if isExpectingNoCalls then forall i :: 0 <= i < |actuals| ==> actuals[i].passed
           else && (forall o :: 0 <= o < |messages| ==> ExpectationMet(test, messages, optionLists, actuals, o))
                && (forall i :: 0 <= i < |actuals| && !actuals[i].passed ==>
                      MatchedBy(test, messages, optionLists, |messages|, actuals[i]))
  {
    if isExpectingNoCalls {
      assert IntendedAssertOutcomes(true, test, isExpectingNoCalls, messages, optionLists, actuals)
          == [IntendedNoCallsOutcome(actuals)];
      assert [IntendedNoCallsOutcome(actuals)][0] == IntendedNoCallsOutcome(actuals);
    } else if |messages| > 0 || |actuals| > 0 {
      var e := IntendedExpectationOutcomes(test, messages, optionLists, actuals, |messages|);
      var u := UnexpectedOutcomes(test, messages, optionLists, actuals, |actuals|);
      assert IntendedAssertOutcomes(true, test, isExpectingNoCalls, messages, optionLists, actuals) == e + u;
      AllOkAppend(e, u);
      forall o | 0 <= o < |messages|
        ensures e[o].ok <==> ExpectationMet(test, messages, optionLists, actuals, o)
      {
        assert e[o] == IntendedExpectationOutcome(test, messages, optionLists, actuals, o);
      }
      NoUnexpectedCallsIff(test, messages, optionLists, actuals, |actuals|);
      if u != [] {
        assert !u[0].ok;
      }
      assert AllOk(u) <==> u == [];
    } else {
      assert IntendedAssertOutcomes(true, test, isExpectingNoCalls, messages, optionLists, actuals) == [];
    }
  }

  /**
   * As written, two expectations "a" and "b" with one failing call "a" pass:
   * the match for "a" is still set while "b" is judged. Corrected, they fail.
   */
  lemma StaleMatchMeetsLaterExpectation(test: RegexTest)
    ensures var messages := [Text("a"), Text("b")];
      var optionLists: seq<OptionList> := [None, None];
      var actuals := [Actual("a", false, None)];
      && AllOk(AssertOutcomes(true, test, false, messages, optionLists, actuals))
      && !AllOk(IntendedAssertOutcomes(true, test, false, messages, optionLists, actuals))
  {
    var messages := [Text("a"), Text("b")];
    var optionLists: seq<OptionList> := [None, None];
    var actuals := [Actual("a", false, None)];
    AssertPassesIff(test, messages, optionLists, actuals);
    assert Matches(test, messages[0], optionLists[0], actuals[0]);
    assert MatchedBy(test, messages, optionLists, |messages|, actuals[0]);
    IntendedAssertPassesIff(test, false, messages, optionLists, actuals);
    assert !ExpectationMet(test, messages, optionLists, actuals, 1);
  }
}
