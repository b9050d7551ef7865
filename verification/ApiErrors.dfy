/** source/renderer/app/domains/ApiError.js: a fluent chain of `set`, `where` and `inc` calls that picks an error
    message. */
module ApiErrors {
  import opened Wrappers

  type Values = map<string, string>

  datatype Test =
    | Where(key: string, declaration: string)
    | Inc(key: string, declaration: string)

  /** One `set`, with the values it may add to the error's own, and the tests chained to it. */
  datatype Rule = Rule(error: string, force: bool, values: Option<Values>, tests: seq<Test>)

  /** The fields the chain works on. `tempError` is empty while no rule is ahead. */
  datatype Matcher = Matcher(
    tempError: string,
    clause: bool,
    forceSet: bool,
    additionalValues: Values,
    values: Values,
    isFinalError: bool)

  /** What `result` answers: the error as localized on construction, a known error, the fallback, or a generic one. */
  datatype Result =
    | Localized
    | Known(error: string)
    | Fallback(error: string)
    | Generic

  function NewMatcher(values: Values, isFinalError: bool): Matcher {
    Matcher("", false, false, map[], values, isFinalError)
  }

  predicate PartAt(text: string, part: string, i: nat)
    requires i + |part| <= |text|
  {
    text[i..i + |part|] == part
  }

  /** lodash `includes` on strings. */
  predicate Includes(text: string, part: string) {
    exists i :: 0 <= i <= |text| - |part| && PartAt(text, part, i)
  }

  function ValueOr(values: Values, key: string): string {
    if key in values then values[key] else ""
  }

  predicate CanSet(m: Matcher, error: string, force: bool) {
    error != "" && !m.clause && (!m.isFinalError || force)
  }

  function AddValues(m: Matcher, values: Option<Values>): Matcher {
    match values
    case None => m
    case Some(added) => m.(additionalValues := added, values := m.values + added)
  }

  function Set(m: Matcher, error: string, force: bool, values: Option<Values>): Matcher {
    if CanSet(m, error, force)
    then AddValues(m.(tempError := error, clause := true, forceSet := force), values)
    else m.(clause := false)
  }

  function DoWhere(m: Matcher, key: string, declaration: string): Matcher {
    if !(m.clause && (!m.isFinalError || m.forceSet)) then m
    else if key in m.values && m.values[key] == declaration then m
    else m.(clause := false, tempError := "", forceSet := false, values := m.values - m.additionalValues.Keys)
  }

  function DoInc(m: Matcher, key: string, declaration: string): Matcher {
    if !(m.clause && !m.isFinalError && ValueOr(m.values, key) != "") then m
    else if Includes(m.values[key], declaration) then m
    else m.(clause := false, tempError := "")
  }

  function DoTest(m: Matcher, t: Test): Matcher {
    match t
    case Where(key, declaration) => DoWhere(m, key, declaration)
    case Inc(key, declaration) => DoInc(m, key, declaration)
  }

  function DoTests(m: Matcher, ts: seq<Test>): Matcher
    decreases |ts|
  {
    if ts == [] then m else DoTests(DoTest(m, ts[0]), ts[1..])
  }

  function DoRule(m: Matcher, r: Rule): Matcher {
    DoTests(Set(m, r.error, r.force, r.values), r.tests)
  }

  function DoRules(m: Matcher, rules: seq<Rule>): Matcher
    decreases |rules|
  {
    if rules == [] then m else DoRules(DoRule(m, rules[0]), rules[1..])
  }

  function ResultOf(m: Matcher, messages: set<string>, fallback: Option<string>): Result {
    if m.isFinalError && !m.forceSet then Localized
    else if m.tempError != "" && m.tempError in messages then Known(m.tempError)
    else match fallback
      case Some(f) => if f != "" then Fallback(f) else Generic
      case None => Generic
  }

  /** The error object itself. */
  class ApiError {
    var tempError: string
    var clause: bool
    var forceSet: bool
    var additionalValues: Values
    var values: Values
    const isFinalError: bool

    function View(): Matcher
      reads this
    {
      Matcher(tempError, clause, forceSet, additionalValues, values, isFinalError)
    }

    constructor (values: Values, isLocalizable: bool)
      ensures View() == NewMatcher(values, isLocalizable)
    {
      tempError, clause, forceSet := "", false, false;
      additionalValues, this.values := map[], values;
      isFinalError := isLocalizable;
    }

    method SetError(predefinedError: string, force: bool, newValues: Option<Values>)
      modifies this
      ensures View() == Set(old(View()), predefinedError, force, newValues)
    {
      if predefinedError != "" && !clause && (!isFinalError || force) {
        tempError := predefinedError;
        clause := true;
        forceSet := force;
      } else {
        clause := false;
      }
      if newValues.Some? && clause {
        additionalValues := newValues.value;
        values := values + newValues.value;
      }
    }

    method Where(key: string, declaration: string)
      modifies this
      ensures View() == DoWhere(old(View()), key, declaration)
    {
      if clause && (!isFinalError || forceSet) {
        clause := key in values && values[key] == declaration;
        if !clause {
          tempError := "";
          values := values - additionalValues.Keys;
          if forceSet {
            clause := false;
            forceSet := false;
          }
        }
      }
    }

    method Inc(key: string, declaration: string)
      modifies this
      ensures View() == DoInc(old(View()), key, declaration)
    {
      var fullMessage := ValueOr(values, key);
      if clause && !isFinalError && fullMessage != "" {
        clause := Includes(fullMessage, declaration);
        if !clause {
          tempError := "";
        }
      }
    }

    method GetResult(messages: set<string>, fallbackError: Option<string>) returns (r: Result)
      ensures r == ResultOf(View(), messages, fallbackError)
    {
      if isFinalError && !forceSet {
        return Localized;
      }
      if tempError != "" && tempError in messages {
        return Known(tempError);
      }
      if fallbackError.Some? && fallbackError.value != "" {
        return Fallback(fallbackError.value);
      }
      return Generic;
    }
  }

  // The specification: the first enabled rule whose tests hold.

  predicate IsEnabled(r: Rule, isFinalError: bool) {
    r.error != "" && (!isFinalError || r.force)
  }

  /** A test against the values the error came with. `inc` holds of an absent or empty value, and of any localized
      error. */
  predicate TestHolds(values: Values, isFinalError: bool, t: Test) {
    match t
    case Where(key, declaration) => key in values && values[key] == declaration
    case Inc(key, declaration) =>
      isFinalError || ValueOr(values, key) == "" || Includes(ValueOr(values, key), declaration)
  }

  predicate Matches(values: Values, isFinalError: bool, r: Rule) {
    && IsEnabled(r, isFinalError)
    && forall i :: 0 <= i < |r.tests| ==> TestHolds(values, isFinalError, r.tests[i])
  }

  /** The position of the first matching rule, or the number of rules. */
  function FirstMatch(values: Values, isFinalError: bool, rules: seq<Rule>): nat {
    if rules == [] then 0
    else if Matches(values, isFinalError, rules[0]) then 0
    else FirstMatch(values, isFinalError, rules[1..]) + 1
  }

  function Specified(values: Values, isFinalError: bool, rules: seq<Rule>, messages: set<string>,
          fallback: Option<string>): Result {
    var i := FirstMatch(values, isFinalError, rules);
    if i < |rules| && rules[i].error in messages then Known(rules[i].error)
    else if isFinalError && i >= |rules| then Localized
    else if fallback.Some? && fallback.value != "" then Fallback(fallback.value)
    else Generic
  }

  function KeysOf(r: Rule): set<string> {
    if r.values.Some? then r.values.value.Keys else {}
  }

  function AddedKeys(rules: seq<Rule>): set<string> {
    set i, k | 0 <= i < |rules| && k in KeysOf(rules[i]) :: k
  }

  predicate TestsAvoid(ts: seq<Test>, keys: set<string>) {
    forall i :: 0 <= i < |ts| ==> ts[i].key !in keys
  }

  /** No test reads a value that some rule adds. */
  predicate Separate(rules: seq<Rule>, keys: set<string>) {
    forall i :: 0 <= i < |rules| ==> TestsAvoid(rules[i].tests, keys) && KeysOf(rules[i]) <= keys
  }

  /** What the code makes of the rules: a match consumes the next rule, and the rules after that compete again. `""`
      is no match. */
  function Scanned(values: Values, isFinalError: bool, rules: seq<Rule>, before: string): string {
    if rules == [] then before
    else if !IsEnabled(rules[0], isFinalError) then Scanned(values, isFinalError, rules[1..], before)
    else if !Matches(values, isFinalError, rules[0]) then Scanned(values, isFinalError, rules[1..], "")
    else if |rules| == 1 then rules[0].error
    else Scanned(values, isFinalError, rules[2..], rules[0].error)
  }

  /** The matcher agrees with the error's own values on every key that no rule adds. */
  ghost predicate Agrees(m: Matcher, values: Values, keys: set<string>) {
    && (forall k :: k !in keys ==> (k in m.values <==> k in values) && (k in values ==> m.values[k] == values[k]))
    && m.additionalValues.Keys <= keys
  }

  /** Between rules: a localized error is overridden exactly while some rule is ahead. */
  ghost predicate Settled(m: Matcher) {
    && (m.clause ==> m.tempError != "")
    && (m.isFinalError ==> (m.forceSet <==> m.tempError != ""))
  }

  lemma {:induction false} SkippedTests(m: Matcher, ts: seq<Test>)
    requires !m.clause
    ensures DoTests(m, ts) == m
    decreases |ts|
  {
    if ts != [] {
      SkippedTests(m, ts[1..]);
    }
  }

  lemma {:induction false} TestsDecide(m: Matcher, ts: seq<Test>, values: Values, keys: set<string>)
    requires m.clause && m.tempError != "" && (m.isFinalError ==> m.forceSet)
    requires Agrees(m, values, keys) && TestsAvoid(ts, keys)
    ensures var m' := DoTests(m, ts);
            && Agrees(m', values, keys) && Settled(m') && m'.isFinalError == m.isFinalError
            && if forall i :: 0 <= i < |ts| ==> TestHolds(values, m.isFinalError, ts[i])
               then m'.clause && m'.tempError == m.tempError
               else !m'.clause && m'.tempError == ""
    decreases |ts|
  {
    if ts != [] {
      var m1 := DoTest(m, ts[0]);
      if TestHolds(values, m.isFinalError, ts[0]) {
        assert m1 == m;
        TestsDecide(m1, ts[1..], values, keys);
        assert forall i :: 1 <= i < |ts| ==> ts[i] == ts[1..][i - 1];
      } else {
        SkippedTests(m1, ts[1..]);
      }
    }
  }

  lemma RuleWhileFree(m: Matcher, r: Rule, values: Values, keys: set<string>)
    requires !m.clause && Settled(m) && Agrees(m, values, keys)
    requires TestsAvoid(r.tests, keys) && KeysOf(r) <= keys
    ensures var m' := DoRule(m, r);
            && Agrees(m', values, keys) && Settled(m') && m'.isFinalError == m.isFinalError
            && m'.clause == Matches(values, m.isFinalError, r)
            && m'.tempError == (if !IsEnabled(r, m.isFinalError) then m.tempError
                                else if Matches(values, m.isFinalError, r) then r.error else "")
  {
    var m1 := Set(m, r.error, r.force, r.values);
    if IsEnabled(r, m.isFinalError) {
      TestsDecide(m1, r.tests, values, keys);
    } else {
      SkippedTests(m1, r.tests);
    }
  }

  lemma RuleAfterMatch(m: Matcher, r: Rule)
    requires m.clause
    ensures DoRule(m, r) == m.(clause := false)
  {
    SkippedTests(m.(clause := false), r.tests);
  }

  lemma {:induction false} ChainIsScanned(m: Matcher, rules: seq<Rule>, values: Values, keys: set<string>)
    requires !m.clause && Settled(m) && Agrees(m, values, keys) && Separate(rules, keys)
    ensures var m' := DoRules(m, rules);
            && m'.tempError == Scanned(values, m.isFinalError, rules, m.tempError)
            && Agrees(m', values, keys) && Settled(m') && m'.isFinalError == m.isFinalError
    decreases |rules|
  {
    if rules != [] {
      RuleWhileFree(m, rules[0], values, keys);
      var m1 := DoRule(m, rules[0]);
      if !m1.clause {
        ChainIsScanned(m1, rules[1..], values, keys);
      } else if |rules| > 1 {
        RuleAfterMatch(m1, rules[1]);
        assert rules[1..][1..] == rules[2..];
        assert DoRules(m, rules) == DoRules(DoRule(m1, rules[1]), rules[2..]);
        ChainIsScanned(DoRule(m1, rules[1]), rules[2..], values, keys);
      } else {
        assert rules[1..] == [];
      }
    }
  }

  /** No enabled rule comes two or more places after the first match. */
  predicate NoLateRival(values: Values, isFinalError: bool, rules: seq<Rule>) {
    forall j :: FirstMatch(values, isFinalError, rules) + 2 <= j < |rules| ==> !IsEnabled(rules[j], isFinalError)
  }

  lemma {:induction false} DisabledRulesChangeNothing(values: Values, isFinalError: bool, rules: seq<Rule>,
          before: string)
    requires forall j :: 0 <= j < |rules| ==> !IsEnabled(rules[j], isFinalError)
    ensures Scanned(values, isFinalError, rules, before) == before
  {
    if rules != [] {
      DisabledRulesChangeNothing(values, isFinalError, rules[1..], before);
    }
  }

  /** The error that a first-match reading of the rules would pick. */
  function FirstError(values: Values, isFinalError: bool, rules: seq<Rule>): string {
    var i := FirstMatch(values, isFinalError, rules);
    if i < |rules| then rules[i].error else ""
  }

  /** After its first match at `i`, what the code ends up with is decided by the rules from `i + 2` on. */
  lemma {:induction false} ScannedFromMatch(values: Values, isFinalError: bool, rules: seq<Rule>, before: string)
    ensures var i := FirstMatch(values, isFinalError, rules);
            && i <= |rules|
            && (i < |rules| ==>
                  && rules[i].error != ""
                  && Scanned(values, isFinalError, rules, before) ==
                     Scanned(values, isFinalError, if i + 2 <= |rules| then rules[i + 2..] else [], rules[i].error))
            && (i == |rules| && before == "" ==> Scanned(values, isFinalError, rules, before) == "")
    decreases |rules|
  {
    if rules != [] && !Matches(values, isFinalError, rules[0]) {
      var i := FirstMatch(values, isFinalError, rules[1..]);
      ScannedFromMatch(values, isFinalError, rules[1..], if IsEnabled(rules[0], isFinalError) then "" else before);
      if i + 1 + 2 <= |rules| {
        assert rules[1..][i + 2..] == rules[i + 1 + 2..];
      }
    }
  }

  lemma FirstErrorUnlessRival(values: Values, isFinalError: bool, rules: seq<Rule>)
    requires NoLateRival(values, isFinalError, rules)
    ensures Scanned(values, isFinalError, rules, "") == FirstError(values, isFinalError, rules)
    ensures FirstError(values, isFinalError, rules) == "" <==> FirstMatch(values, isFinalError, rules) >= |rules|
  {
    var i := FirstMatch(values, isFinalError, rules);
    ScannedFromMatch(values, isFinalError, rules, "");
    if i + 2 <= |rules| {
      DisabledRulesChangeNothing(values, isFinalError, rules[i + 2..], rules[i].error);
    }
  }

  /** Chains of one or two rules, and longer ones with no enabled rule two or more places after the match, answer the
      first enabled rule whose tests hold, then the already-localized error, then the fallback, then a generic error.
      A rule whose error the messages do not know hides a localized error without replacing it. */
  lemma ResultIsFirstMatch(values: Values, isFinalError: bool, rules: seq<Rule>, messages: set<string>,
          fallback: Option<string>)
    requires Separate(rules, AddedKeys(rules))
    requires |rules| <= 2 || NoLateRival(values, isFinalError, rules)
    ensures ResultOf(DoRules(NewMatcher(values, isFinalError), rules), messages, fallback)
         == Specified(values, isFinalError, rules, messages, fallback)
  {
    FirstErrorUnlessRival(values, isFinalError, rules);
    ChainIsScanned(NewMatcher(values, isFinalError), rules, values, AddedKeys(rules));
  }

  predicate Names(rules: seq<Rule>, error: string) {
    exists r <- rules :: r.error == error
  }

  /** An enabled rule takes the matcher away from whatever was ahead before it. */
  lemma {:induction false} EnabledRuleTakesOver(values: Values, isFinalError: bool, rules: seq<Rule>, before: string)
    requires before == "" || exists r <- rules :: IsEnabled(r, isFinalError)
    ensures var error := Scanned(values, isFinalError, rules, before);
            error == "" || Names(rules, error)
    decreases |rules|
  {
    if rules != [] {
      if !IsEnabled(rules[0], isFinalError) {
        EnabledRuleTakesOver(values, isFinalError, rules[1..], before);
      } else if !Matches(values, isFinalError, rules[0]) {
        EnabledRuleTakesOver(values, isFinalError, rules[1..], "");
      } else if |rules| > 1 {
        ScannedNamesARule(values, isFinalError, rules[2..], rules[0].error);
      }
    }
  }

  lemma {:induction false} ScannedNamesARule(values: Values, isFinalError: bool, rules: seq<Rule>, before: string)
    ensures var error := Scanned(values, isFinalError, rules, before);
            error == "" || error == before || Names(rules, error)
    decreases |rules|
  {
    if rules != [] {
      if !Matches(values, isFinalError, rules[0]) {
        ScannedNamesARule(values, isFinalError, rules[1..], if IsEnabled(rules[0], isFinalError) then "" else before);
      } else if |rules| > 1 {
        ScannedNamesARule(values, isFinalError, rules[2..], rules[0].error);
      }
    }
  }

  /** No rule two or more places after the first match names the same error. */
  predicate LateErrorsDiffer(values: Values, isFinalError: bool, rules: seq<Rule>) {
    var i := FirstMatch(values, isFinalError, rules);
    forall j :: i + 2 <= j < |rules| ==> rules[j].error != rules[i].error
  }

  lemma ScanPicksFirstIff(values: Values, isFinalError: bool, rules: seq<Rule>)
    requires LateErrorsDiffer(values, isFinalError, rules)
    ensures Scanned(values, isFinalError, rules, "") == FirstError(values, isFinalError, rules) <==>
            NoLateRival(values, isFinalError, rules)
  {
    if NoLateRival(values, isFinalError, rules) {
      FirstErrorUnlessRival(values, isFinalError, rules);
    } else {
      ScannedFromMatch(values, isFinalError, rules, "");
      RivalTakesOver(values, isFinalError, rules, FirstMatch(values, isFinalError, rules));
    }
  }

  /** For chains of any length whose rules name different errors, the code picks the first match if and only if no
      enabled rule comes two or more places after it. */
  lemma PicksFirstMatchIff(values: Values, isFinalError: bool, rules: seq<Rule>)
    requires Separate(rules, AddedKeys(rules))
    requires LateErrorsDiffer(values, isFinalError, rules)
    ensures DoRules(NewMatcher(values, isFinalError), rules).tempError == FirstError(values, isFinalError, rules)
            <==> NoLateRival(values, isFinalError, rules)
  {
    ScanPicksFirstIff(values, isFinalError, rules);
    ChainIsScanned(NewMatcher(values, isFinalError), rules, values, AddedKeys(rules));
  }

  lemma RivalTakesOver(values: Values, isFinalError: bool, rules: seq<Rule>, i: nat)
    requires i < |rules| && rules[i].error != ""
    requires exists j :: i + 2 <= j < |rules| && IsEnabled(rules[j], isFinalError)
    requires forall j :: i + 2 <= j < |rules| ==> rules[j].error != rules[i].error
    ensures var late := if i + 2 <= |rules| then rules[i + 2..] else [];
            Scanned(values, isFinalError, late, rules[i].error) != rules[i].error
  {
    var j :| i + 2 <= j < |rules| && IsEnabled(rules[j], isFinalError);
    var late := rules[i + 2..];
    assert late[j - i - 2] == rules[j];
    EnabledRuleTakesOver(values, isFinalError, late, rules[i].error);
  }

  /** The chain of `calculateTransactionFee` and `selectCoins` in source/renderer/app/api/api.js. */
  function FeeChain(notEnoughMoneyError: string, minimumBcc: string): seq<Rule> {
    [Rule(notEnoughMoneyError, true, None, [Where("code", "not_enough_money")]),
     Rule("utxoTooSmall", true, Some(map["minimumBcc" := minimumBcc]), [Where("code", "utxo_too_small")]),
     Rule("invalidAddress", false, None, [Where("code", "bad_request"), Inc("message", "Unable to decode Address")])]
  }

  lemma FeeChainIsSeparate(notEnoughMoneyError: string, minimumBcc: string)
    ensures Separate(FeeChain(notEnoughMoneyError, minimumBcc), AddedKeys(FeeChain(notEnoughMoneyError, minimumBcc)))
  {
    var rules := FeeChain(notEnoughMoneyError, minimumBcc);
    assert KeysOf(rules[1]) == {"minimumBcc"};
    assert AddedKeys(rules) == {"minimumBcc"};
    assert TestsAvoid(rules[0].tests, {"minimumBcc"}) && TestsAvoid(rules[1].tests, {"minimumBcc"}) &&
           TestsAvoid(rules[2].tests, {"minimumBcc"});
  }

  /** That chain is first-match because its first rule's code, not_enough_money, names a localizable error, for which
      the third rule, unforced, is not enabled. */
  lemma FeeChainIsFirstMatch(values: Values, isFinalError: bool, notEnoughMoneyError: string, minimumBcc: string,
                             messages: set<string>, fallback: Option<string>)
    requires "code" in values && values["code"] == "not_enough_money" ==> isFinalError
    ensures ResultOf(DoRules(NewMatcher(values, isFinalError), FeeChain(notEnoughMoneyError, minimumBcc)), messages,
        fallback)
         == Specified(values, isFinalError, FeeChain(notEnoughMoneyError, minimumBcc), messages, fallback)
  {
    var rules := FeeChain(notEnoughMoneyError, minimumBcc);
    FeeChainIsSeparate(notEnoughMoneyError, minimumBcc);
    if Matches(values, isFinalError, rules[0]) {
      assert TestHolds(values, isFinalError, rules[0].tests[0]);
    }
    assert NoLateRival(values, isFinalError, rules);
    ResultIsFirstMatch(values, isFinalError, rules, messages, fallback);
  }

  /** The minimum amount goes with the error it belongs to, and with no other. */
  lemma FeeChainValues(values: Values, isFinalError: bool, notEnoughMoneyError: string, minimumBcc: string)
    ensures var rules := FeeChain(notEnoughMoneyError, minimumBcc);
            DoRules(NewMatcher(values, isFinalError), rules).values ==
            if Matches(values, isFinalError, rules[0]) then values
            else if "code" in values && values["code"] == "utxo_too_small" then values["minimumBcc" := minimumBcc]
            else values - {"minimumBcc"}
  {
    var rules := FeeChain(notEnoughMoneyError, minimumBcc);
    var m := NewMatcher(values, isFinalError);
    FeeChainMoney(values, isFinalError, rules[0]);
    FeeChainMinimum(DoRule(m, rules[0]), rules[1], minimumBcc);
    FeeChainAddress(DoRule(DoRule(m, rules[0]), rules[1]), rules[2]);
    ThreeRules(m, rules);
  }

  lemma ThreeRules(m: Matcher, rules: seq<Rule>)
    requires |rules| == 3
    ensures DoRules(m, rules) == DoRule(DoRule(DoRule(m, rules[0]), rules[1]), rules[2])
  {
    var m1, m2 := DoRule(m, rules[0]), DoRule(DoRule(m, rules[0]), rules[1]);
    var late := rules[1..][1..];
    assert late == [rules[2]] && late[1..] == [];
    assert DoRules(m2, late) == DoRules(DoRule(m2, late[0]), late[1..]) == DoRule(m2, rules[2]);
    assert DoRules(m1, rules[1..]) == DoRules(m2, late);
  }

  lemma FeeChainMoney(values: Values, isFinalError: bool, r: Rule)
    requires r == Rule(r.error, true, None, [Where("code", "not_enough_money")])
    ensures var m := DoRule(NewMatcher(values, isFinalError), r);
            && (m.clause <==> Matches(values, isFinalError, r))
            && m.values == values && m.additionalValues == map[] && m.isFinalError == isFinalError
  {
    assert r.tests[1..] == [];
    assert Matches(values, isFinalError, r) ==> TestHolds(values, isFinalError, r.tests[0]);
    var none: Values := map[];
    assert values - none.Keys == values;
  }

  lemma FeeChainMinimum(m: Matcher, r: Rule, minimumBcc: string)
    requires r == Rule("utxoTooSmall", true, Some(map["minimumBcc" := minimumBcc]), [Where("code", "utxo_too_small")])
    requires m.additionalValues == map[]
    ensures var m' := DoRule(m, r);
            && m'.values == (if m.clause then m.values
                             else if "code" in m.values && m.values["code"] == "utxo_too_small"
                             then m.values["minimumBcc" := minimumBcc]
                             else m.values - {"minimumBcc"})
            && (m'.clause || m'.values - m'.additionalValues.Keys == m'.values)
  {
    assert r.tests[1..] == [];
    assert m.values + map["minimumBcc" := minimumBcc] == m.values["minimumBcc" := minimumBcc];
    var none: Values := map[];
    assert m.values - none.Keys == m.values;
    assert map["minimumBcc" := minimumBcc].Keys == {"minimumBcc"};
  }

  lemma FeeChainAddress(m: Matcher, r: Rule)
    requires r == Rule("invalidAddress", false, None,
        [Where("code", "bad_request"), Inc("message", "Unable to decode Address")])
    requires m.clause || m.values - m.additionalValues.Keys == m.values
    ensures DoRule(m, r).values == m.values
  {
    assert r.tests[1..] == [r.tests[1]] && [r.tests[1]][1..] == [];
  }

  lemma IncludesWithin(a: string, part: string, b: string)
    ensures Includes(a + part + b, part)
  {
    assert PartAt(a + part + b, part, |a|);
  }

  /** The rules' outcomes depend on the code alone, but for the last one's. */
  lemma FeeChainMatches(values: Values, isFinalError: bool, notEnoughMoneyError: string, minimumBcc: string)
    requires notEnoughMoneyError != "" && "code" in values
    ensures var rules := FeeChain(notEnoughMoneyError, minimumBcc);
            && (Matches(values, isFinalError, rules[0]) <==> values["code"] == "not_enough_money")
            && (Matches(values, isFinalError, rules[1]) <==> values["code"] == "utxo_too_small")
            && (Matches(values, isFinalError, rules[2]) ==> values["code"] == "bad_request" && !isFinalError)
            && (values["code"] == "bad_request" && !isFinalError && TestHolds(values, false, rules[2].tests[1]) ==>
                  Matches(values, isFinalError, rules[2]))
            && (!TestHolds(values, isFinalError, rules[2].tests[1]) ==> !Matches(values, isFinalError, rules[2]))
  {
    var rules := FeeChain(notEnoughMoneyError, minimumBcc);
    assert Matches(values, isFinalError, rules[0]) ==> TestHolds(values, isFinalError, rules[0].tests[0]);
    assert Matches(values, isFinalError, rules[1]) ==> TestHolds(values, isFinalError, rules[1].tests[0]);
    assert Matches(values, isFinalError, rules[2]) ==> TestHolds(values, isFinalError, rules[2].tests[0]);
    assert Matches(values, isFinalError, rules[2]) ==> TestHolds(values, isFinalError, rules[2].tests[1]);
  }

  lemma FirstOfThree(values: Values, isFinalError: bool, rules: seq<Rule>)
    requires |rules| == 3
    ensures FirstMatch(values, isFinalError, rules) ==
            if Matches(values, isFinalError, rules[0]) then 0
            else if Matches(values, isFinalError, rules[1]) then 1
            else if Matches(values, isFinalError, rules[2]) then 2
            else 3
  {
    assert rules[1..][1..] == [rules[2]] && [rules[2]][1..] == [];
    assert FirstMatch(values, isFinalError, [rules[2]]) == if Matches(values, isFinalError, rules[2]) then 0 else 1;
    assert FirstMatch(values, isFinalError, rules[1..]) ==
           if Matches(values, isFinalError, rules[1]) then 0
           else if Matches(values, isFinalError, rules[2]) then 1 else 2;
  }

  function FeeResult(values: Values, isFinalError: bool, notEnoughMoneyError: string, minimumBcc: string,
          messages: set<string>, fallback: Option<string>): Result {
    var rules := FeeChain(notEnoughMoneyError, minimumBcc);
    ResultOf(DoRules(NewMatcher(values, isFinalError), rules), messages, fallback)
  }

  /** Which error each code leads to, all three errors having messages: too little money and too small an output their
      own, a bad request the one about addresses if its message says so or says nothing, and every other the localized
      error, the fallback or the generic one. */
  lemma FeeChainOutcomes(values: Values, isFinalError: bool, notEnoughMoneyError: string, minimumBcc: string,
                         messages: set<string>, fallback: Option<string>)
    requires "code" in values && (values["code"] == "not_enough_money" ==> isFinalError)
    requires notEnoughMoneyError != "" && {notEnoughMoneyError, "utxoTooSmall", "invalidAddress"} <= messages
    ensures var r := FeeResult(values, isFinalError, notEnoughMoneyError, minimumBcc, messages, fallback);
            var message := if "message" in values then values["message"] else "";
            var other := if isFinalError then Localized
                         else if fallback.Some? && fallback.value != "" then Fallback(fallback.value) else Generic;
            && (values["code"] == "not_enough_money" ==> r == Known(notEnoughMoneyError))
            && (values["code"] == "utxo_too_small" ==> r == Known("utxoTooSmall"))
            && (values["code"] == "bad_request" && !isFinalError ==>
                  && (message == "" || Includes(message, "Unable to decode Address") ==> r == Known("invalidAddress"))
                  && (message != "" && !Includes(message, "Unable to decode Address") ==> r == other))
            && (values["code"] !in {"not_enough_money", "utxo_too_small", "bad_request"} ==> r == other)
            && (values["code"] == "bad_request" && isFinalError ==> r == Localized)
  {
    FeeChainIsFirstMatch(values, isFinalError, notEnoughMoneyError, minimumBcc, messages, fallback);
    FeeChainMatches(values, isFinalError, notEnoughMoneyError, minimumBcc);
    FirstOfThree(values, isFinalError, FeeChain(notEnoughMoneyError, minimumBcc));
  }

  /** With a too small output goes the minimum amount, and an address counts as bad wherever the message says so. */
  lemma FeeChainDetails(values: Values, isFinalError: bool, notEnoughMoneyError: string, minimumBcc: string,
          a: string, b: string)
    requires "code" in values
    ensures values["code"] == "utxo_too_small" ==>
              var m := DoRules(NewMatcher(values, isFinalError), FeeChain(notEnoughMoneyError, minimumBcc));
              "minimumBcc" in m.values && m.values["minimumBcc"] == minimumBcc
    ensures Includes(a + "Unable to decode Address" + b, "Unable to decode Address")
  {
    var rules := FeeChain(notEnoughMoneyError, minimumBcc);
    FeeChainValues(values, isFinalError, notEnoughMoneyError, minimumBcc);
    assert Matches(values, isFinalError, rules[0]) ==> TestHolds(values, isFinalError, rules[0].tests[0]);
    IncludesWithin(a, "Unable to decode Address", b);
  }

  /** The same rules the other way round. */
  function ReversedFeeChain(notEnoughMoneyError: string, minimumBcc: string): seq<Rule> {
    var rules := FeeChain(notEnoughMoneyError, minimumBcc);
    [rules[2], rules[1], rules[0]]
  }

  lemma ThirdRuleClears(values: Values, isFinalError: bool, rules: seq<Rule>)
    requires |rules| == 3 && Matches(values, isFinalError, rules[0])
    requires IsEnabled(rules[2], isFinalError) && !Matches(values, isFinalError, rules[2])
    ensures FirstMatch(values, isFinalError, rules) == 0 && Scanned(values, isFinalError, rules, "") == ""
  {
    var late := rules[2..];
    assert late == [rules[2]] && late[1..] == [];
    assert Scanned(values, isFinalError, late, rules[0].error) == Scanned(values, isFinalError, late[1..], "");
  }

  lemma NothingScannedIsGeneric(values: Values, rules: seq<Rule>, keys: set<string>, messages: set<string>)
    requires Separate(rules, keys) && Scanned(values, false, rules, "") == ""
    ensures ResultOf(DoRules(NewMatcher(values, false), rules), messages, None) == Generic
  {
    ChainIsScanned(NewMatcher(values, false), rules, values, keys);
  }

  lemma IncludesItself(text: string)
    ensures Includes(text, text)
  {
    assert PartAt(text, text, 0);
  }

  lemma BadAddressMatches(values: Values, r: Rule)
    requires "code" in values && values["code"] == "bad_request"
    requires "message" in values && values["message"] == "Unable to decode Address"
    requires r == Rule("invalidAddress", false, None,
        [Where("code", "bad_request"), Inc("message", "Unable to decode Address")])
    ensures Matches(values, false, r)
  {
    IncludesItself("Unable to decode Address");
  }

  /** In that order an error without a message of its own is lost: the first rule matches a bad address, and the
      third, which is forced and does not match, clears it. */
  lemma ThirdRuleLosesTheMatch(values: Values, minimumBcc: string, messages: set<string>)
    requires "code" in values && values["code"] == "bad_request"
    requires "message" in values && values["message"] == "Unable to decode Address"
    ensures var rules := ReversedFeeChain("notEnoughFunds", minimumBcc);
            && FirstMatch(values, false, rules) == 0 && rules[0].error == "invalidAddress"
            && ResultOf(DoRules(NewMatcher(values, false), rules), messages, None) == Generic
  {
    var rules, fee := ReversedFeeChain("notEnoughFunds", minimumBcc), FeeChain("notEnoughFunds", minimumBcc);
    BadAddressMatches(values, rules[0]);
    assert !TestHolds(values, false, rules[2].tests[0]);
    ThirdRuleClears(values, false, rules);
    FeeChainIsSeparate("notEnoughFunds", minimumBcc);
    AddedKeysAs(rules, fee, AddedKeys(fee));
    NothingScannedIsGeneric(values, rules, AddedKeys(fee), messages);
  }

  lemma AddedKeysAs(rules: seq<Rule>, fee: seq<Rule>, keys: set<string>)
    requires |rules| == |fee| == 3 && rules[0] == fee[2] && rules[1] == fee[1] && rules[2] == fee[0]
    requires Separate(fee, keys)
    ensures Separate(rules, keys)
  {
  }

  /** What Separate keeps out: a rule whose own test reads the value that it adds matches, whatever the error said. */
  lemma AddedValueFeedsATest()
    ensures var rules := [Rule("transactionIsTooBig", true, Some(map["limit" := "7"]), [Where("limit", "7")])];
            && ResultOf(DoRules(NewMatcher(map[], false), rules), {"transactionIsTooBig"}, None) ==
                Known("transactionIsTooBig")
            && Specified(map[], false, rules, {"transactionIsTooBig"}, None) == Generic
  {
    var r := Rule("transactionIsTooBig", true, Some(map["limit" := "7"]), [Where("limit", "7")]);
    assert r.tests[1..] == [] && [r][1..] == [];
    assert !TestHolds(map[], false, r.tests[0]);
    assert DoRules(NewMatcher(map[], false), [r]) == DoRules(DoRule(NewMatcher(map[], false), r), [r][1..]);
    assert DoTests(Set(NewMatcher(map[], false), r.error, r.force, r.values), r.tests).tempError ==
           "transactionIsTooBig";
  }
}
