/** `selectCoins` (source/renderer/app/api/api.js): what is made of the wallet server's coin selection. Amounts are
    whole numbers of the smallest unit. Absent inputs, certificates, withdrawals or deposits are an empty list here;
    without outputs or change the answer cannot be worked on. */
module CoinSelection {
  import opened Wrappers
  import ApiErrors

  const ENTROPICS_PER_BCC := 1000000
  const DELEGATION_DEPOSIT := 2

  datatype Asset = Asset(policyId: string, assetName: string, quantity: int)

  /** An input, output, item of change or withdrawal. */
  datatype Item = Item(address: string, quantity: int, id: string, index: nat, derivationPath: Option<seq<string>>,
      assets: seq<Asset>)

  datatype Certificate = Certificate(certificateType: string, rewardAccountPath: seq<string>, pool: Option<string>)

  datatype ServerResponse = ServerResponse(
    inputs: seq<Item>,
    outputs: Option<seq<Item>>,
    change: Option<seq<Item>>,
    certificates: seq<Certificate>,
    withdrawals: seq<Item>,
    deposits: seq<int>)

  datatype DelegationAction = Join | Quit

  datatype Request = Request(
    delegation: Option<DelegationAction>,
    hasPayments: bool,
    walletBalance: int,
    availableBalance: int,
    rewardsBalance: int)

  /** The server's answer, or the error it sends, as `ApiError` reads it. */
  datatype Answer =
    | Selected(response: ServerResponse)
    | Refused(values: ApiErrors.Values, isFinalError: bool, minimumBcc: string)

  datatype Extended = Extended(
    inputs: seq<Item>,
    outputs: seq<Item>,
    certificates: seq<Certificate>,
    withdrawals: seq<Item>,
    fee: real,
    deposits: real,
    depositsReclaimed: real)

  datatype Outcome = Success(value: Extended) | Failure(error: ApiErrors.Result)

  function Sum(quantities: seq<int>): int {
    if quantities == [] then 0 else Sum(quantities[..|quantities| - 1]) + quantities[|quantities| - 1]
  }

  function Quantities(items: seq<Item>): (qs: seq<int>)
    ensures |qs| == |items| && forall i :: 0 <= i < |items| ==> qs[i] == items[i].quantity
  {
    seq(|items|, i requires 0 <= i < |items| => items[i].quantity)
  }

  function Total(items: seq<Item>): int {
    Sum(Quantities(items))
  }

  lemma TotalStep(items: seq<Item>, i: nat)
    requires i < |items|
    ensures Total(items[..i + 1]) == Total(items[..i]) + items[i].quantity
  {
    assert Quantities(items[..i + 1])[..i] == Quantities(items[..i]);
  }

  lemma {:induction false} TotalConcat(a: seq<Item>, b: seq<Item>)
    ensures Total(a + b) == Total(a) + Total(b)
  {
    if b == [] {
      assert a + b == a;
    } else {
      var b' := b[..|b| - 1];
      assert (a + b)[..|a + b|] == a + b && (a + b)[..|a| + |b'|] == a + b' && b[..|b|] == b;
      TotalConcat(a, b');
      TotalStep(a + b, |a| + |b'|);
      TotalStep(b, |b'|);
    }
  }

  function Amount(bcc: real): real {
    bcc * 1000000.0
  }

  predicate Complete(answer: Answer) {
    answer.Selected? && answer.response.outputs.Some? && answer.response.change.Some?
  }

  /** Nothing is lost and nothing appears: what comes in goes out, in change, deposits and fee. When the wallet quits,
      the deposit comes back, and deposits in the answer are not charged. */
  predicate Conserves(quits: bool, s: ServerResponse, x: Extended)
    requires s.outputs.Some? && s.change.Some?
  {
    var incoming := (Total(s.inputs) + Total(s.withdrawals)) as real;
    var outgoing := (Total(s.outputs.value) + Total(s.change.value)) as real;
    && (quits ==> incoming + Amount(x.depositsReclaimed) == outgoing + Amount(x.fee))
    && (!quits ==> incoming == outgoing + Amount(x.deposits) + Amount(x.fee))
  }

  predicate CertificateKept(c: Certificate, d: Certificate) {
    && d.certificateType == c.certificateType && d.rewardAccountPath == c.rewardAccountPath
    && (d.pool == if c.pool == Some("") then None else c.pool)
  }

  predicate ItemsKept(s: ServerResponse, x: Extended)
    requires s.outputs.Some? && s.change.Some?
  {
    && x.inputs == s.inputs
    && x.outputs == s.outputs.value + s.change.value
    && x.withdrawals == (if Total(s.withdrawals) > 0 then s.withdrawals else [])
    && |x.certificates| == |s.certificates|
    && forall i :: 0 <= i < |s.certificates| ==> CertificateKept(s.certificates[i], x.certificates[i])
  }

  /** The error to show when the server finds too little money. */
  function NotEnoughMoneyError(r: Request): string {
    if r.walletBalance > r.availableBalance then "canNotCalculateTransactionFees"
    else if r.walletBalance != 0 && r.walletBalance == r.rewardsBalance then "inputsDepleted"
    else "notEnoughFundsForTransaction"
  }

  method AddUp(items: seq<Item>) returns (total: int, data: seq<Item>)
    ensures total == Total(items) && data == items
  {
    total, data := 0, [];
    for i := 0 to |items|
      invariant total == Total(items[..i]) && data == items[..i]
    {
      TotalStep(items, i);
      total := total + items[i].quantity;
      data := data + [items[i]];
    }
    assert items[..|items|] == items;
  }

  method SelectCoins(r: Request, answer: Answer, messages: set<string>) returns (o: Outcome)
    ensures (r.delegation.Some? || r.hasPayments) && Complete(answer) <==> o.Success?
    ensures o.Success? ==> Conserves(r.delegation == Some(Quit), answer.response, o.value)
    ensures o.Success? ==> ItemsKept(answer.response, o.value)
    ensures o.Success? ==> Amount(o.value.deposits) == Sum(answer.response.deposits) as real
    ensures o.Success? ==> o.value.depositsReclaimed == if r.delegation == Some(Quit) then 2.0 else 0.0
    ensures (r.delegation.None? && !r.hasPayments) || (answer.Selected? && !Complete(answer)) ==>
            o == Failure(ApiErrors.Generic)
    ensures o.Failure? && answer.Refused? && (r.delegation.Some? || r.hasPayments) ==>
              o.error == Explained(r, answer, messages)
  {
    if r.delegation.None? && !r.hasPayments {
      var values := map["message" := "Missing parameters!"];
      NoCodeIsGeneric(r, values, messages);
      return Failure(Explained(r, Refused(values, false, "0"), messages));
    }
    if answer.Refused? {
      return Failure(Explained(r, answer, messages));
    }
    if !Complete(answer) {
      // an undefined entry among the outputs has no amount to read
      var values := map["message" := "Cannot read property 'amount' of undefined"];
      NoCodeIsGeneric(r, values, messages);
      return Failure(Explained(r, Refused(values, false, "0"), messages));
    }
    var response := answer.response;
    var totalInputs, inputsData := AddUp(response.inputs);
    var totalOutputs, outputsData := AddUp(response.outputs.value + response.change.value);
    TotalConcat(response.outputs.value, response.change.value);

    var certificatesData := [];
    for i := 0 to |response.certificates|
      invariant |certificatesData| == i
      invariant forall k :: 0 <= k < i ==> CertificateKept(response.certificates[k], certificatesData[k])
    {
      var c := response.certificates[i];
      certificatesData := certificatesData + [c.(pool := if c.pool == Some("") then None else c.pool)];
    }

    var deposits := Sum(response.deposits);
    var quits := r.delegation == Some(Quit);
    var depositsReclaimed := if quits then DELEGATION_DEPOSIT * ENTROPICS_PER_BCC else 0;
    var withdrawals := Total(response.withdrawals);
    totalOutputs := totalOutputs - withdrawals;
    var fee := totalInputs - totalOutputs + if quits then depositsReclaimed else -deposits;
    o := Success(Extended(
      inputsData,
      outputsData,
      certificatesData,
      if withdrawals > 0 then response.withdrawals else [],
      fee as real / ENTROPICS_PER_BCC as real,
      deposits as real / ENTROPICS_PER_BCC as real,
      depositsReclaimed as real / ENTROPICS_PER_BCC as real));
  }

  /** The chain of rules that explains a refusal. */
  function Explained(r: Request, refusal: Answer, messages: set<string>): ApiErrors.Result
    requires refusal.Refused?
  {
    ApiErrors.ResultOf(
      ApiErrors.DoRules(ApiErrors.NewMatcher(refusal.values, refusal.isFinalError),
          ApiErrors.FeeChain(NotEnoughMoneyError(r), refusal.minimumBcc)),
      messages, None)
  }

  /** An error that does not come from the server has no code, and so no message of its own. */
  lemma NoCodeIsGeneric(r: Request, values: ApiErrors.Values, messages: set<string>)
    requires "code" !in values
    ensures Explained(r, Refused(values, false, "0"), messages) == ApiErrors.Generic
  {
    var rules := ApiErrors.FeeChain(NotEnoughMoneyError(r), "0");
    ApiErrors.FeeChainIsFirstMatch(values, false, NotEnoughMoneyError(r), "0", messages, None);
    NoCodeNoMatch(values, rules);
  }

  lemma NoCodeNoMatch(values: ApiErrors.Values, rules: seq<ApiErrors.Rule>)
    requires "code" !in values
    requires forall i :: 0 <= i < |rules| ==>
             |rules[i].tests| > 0 && rules[i].tests[0].Where? && rules[i].tests[0].key == "code"
    ensures ApiErrors.FirstMatch(values, false, rules) == |rules|
  {
    if rules != [] {
      assert !ApiErrors.TestHolds(values, false, rules[0].tests[0]);
      NoCodeNoMatch(values, rules[1..]);
    }
  }

  /** A wallet with too little money gets the message that fits its balances: pending transactions if they hold money
      back, only rewards if that is all there is, and otherwise that the amount is too high. */
  lemma ShortageIsExplained(r: Request, values: ApiErrors.Values, minimumBcc: string, messages: set<string>)
    requires "code" in values && values["code"] == "not_enough_money"
    requires {"canNotCalculateTransactionFees", "inputsDepleted", "notEnoughFundsForTransaction"} <= messages
    ensures var e := Explained(r, Refused(values, true, minimumBcc), messages);
            && e.Known?
            && (e.error == "canNotCalculateTransactionFees" <==> r.walletBalance > r.availableBalance)
            && (e.error == "inputsDepleted" <==>
                  && r.walletBalance <= r.availableBalance
                  && r.walletBalance != 0 && r.walletBalance == r.rewardsBalance)
            && (e.error == "notEnoughFundsForTransaction" <==>
                  && r.walletBalance <= r.availableBalance
                  && (r.walletBalance == 0 || r.walletBalance != r.rewardsBalance))
  {
    var rules := ApiErrors.FeeChain(NotEnoughMoneyError(r), minimumBcc);
    ApiErrors.FeeChainIsFirstMatch(values, true, NotEnoughMoneyError(r), minimumBcc, messages, None);
    assert ApiErrors.TestHolds(values, true, rules[0].tests[0]);
    assert ApiErrors.Matches(values, true, rules[0]);
  }
}
