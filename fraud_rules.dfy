/** The fraud-rule engine: four threshold rules over one payment transaction
    and the orchestrator that runs them in a fixed order and collects the
    alerts they raise. */
module FraudRules {
  import opened Wrappers

  // ---------------------------------------------------------------------
  // Data model
  // ---------------------------------------------------------------------

  datatype TransactionStatus = Succeeded | Failed | Pending

  /** A payment attempt. The timestamp is already converted to epoch
      milliseconds; the amount is in currency units. */
  datatype Transaction = Transaction(
    id: string,
    amount: real,
    currency: string,
    status: TransactionStatus,
    customer: string,
    timestamp: int,
    paymentMethod: string,
    location: Option<string>)

  datatype AlertType = HighAmount | UnusualLocation | RapidTransactions | SuspiciousPattern

  datatype Severity = High | Medium | Low

  datatype AlertStatus = Investigating | Resolved | FalsePositive

  /** The facts that an alert's `description` and `rule` texts report,
      without their decimal formatting. */
  datatype Detail =
    | AmountDetail(amount: real, amountThreshold: real)
    | LocationDetail
    | RapidDetail(total: nat, countThreshold: nat, windowMs: int)
    | PatternDetail(factors: nat, highAmount: bool, unusualLocation: bool, rapid: bool)

  datatype FraudAlert = FraudAlert(
    id: string,
    kind: AlertType,
    severity: Severity,
    detail: Detail,
    amount: real,
    customer: string,
    timestamp: int,
    status: AlertStatus)

  const HighAmountThreshold: real := 1000.0
  const RapidTransactionThreshold: nat := 5
  /** One minute, in milliseconds. */
  const TimeWindow: int := 60000

  /** The fixed severity of each kind of alert. */
  function SeverityOf(kind: AlertType): Severity
  {
    match kind
    case HighAmount => High
    case UnusualLocation => Medium
    case RapidTransactions => Medium
    case SuspiciousPattern => High
  }

  /** Position of each kind in the orchestrator's output. */
  function Rank(kind: AlertType): nat
  {
    match kind
    case HighAmount => 0
    case UnusualLocation => 1
    case RapidTransactions => 2
    case SuspiciousPattern => 3
  }

  // ---------------------------------------------------------------------
  // Alert identifiers: `alert_<transaction id>_<rule suffix>`
  // ---------------------------------------------------------------------

  const AlertPrefix: string := "alert_"

  function Suffix(kind: AlertType): string
  {
    match kind
    case HighAmount => "_high_amount"
    case UnusualLocation => "_location"
    case RapidTransactions => "_rapid"
    case SuspiciousPattern => "_pattern"
  }

  /** The identifier `alert_<transaction id><suffix>` of the rules' alerts:
      it starts with the prefix, ends with the rule's suffix, and holds the
      transaction id in between. */
  function AlertId(txId: string, kind: AlertType): (r: string)
    ensures HasIdShape(r, kind)
    ensures r[|AlertPrefix|..|r| - |Suffix(kind)|] == txId
  {
    AlertPrefix + txId + Suffix(kind)
  }

  /** Whether `id` has the shape of an identifier of a `kind` alert. */
  predicate HasIdShape(id: string, kind: AlertType)
  {
    |AlertPrefix| + |Suffix(kind)| <= |id| &&
    id[..|AlertPrefix|] == AlertPrefix &&
    id[|id| - |Suffix(kind)|..] == Suffix(kind)
  }

  datatype AlertIdParts = AlertIdParts(txId: string, kind: AlertType)

  /** Recovers the transaction id and the rule from an alert identifier. */
  function ParseAlertId(id: string): Option<AlertIdParts>
  {
    if HasIdShape(id, HighAmount) then
      Some(AlertIdParts(id[|AlertPrefix|..|id| - |Suffix(HighAmount)|], HighAmount))
    else if HasIdShape(id, UnusualLocation) then
      Some(AlertIdParts(id[|AlertPrefix|..|id| - |Suffix(UnusualLocation)|], UnusualLocation))
    else if HasIdShape(id, RapidTransactions) then
      Some(AlertIdParts(id[|AlertPrefix|..|id| - |Suffix(RapidTransactions)|], RapidTransactions))
    else if HasIdShape(id, SuspiciousPattern) then
      Some(AlertIdParts(id[|AlertPrefix|..|id| - |Suffix(SuspiciousPattern)|], SuspiciousPattern))
    else
      None
  }

  /** The last two characters of the four suffixes are pairwise distinct, so
      an identifier has the shape of at most one kind. */
  lemma IdShapeDeterminesKind(txId: string, kind: AlertType, other: AlertType)
    requires HasIdShape(AlertId(txId, kind), other)
    ensures other == kind
  {
    var id := AlertId(txId, kind);
    var s, o := Suffix(kind), Suffix(other);
    assert id[|id| - 2..] == s[|s| - 2..];
    assert id[|id| - 2..] == o[|o| - 2..] by {
      assert id[|id| - |o|..][|o| - 2..] == id[|id| - 2..];
    }
  }

  /** Parsing an identifier built by `AlertId` gives back its parts. */
  lemma ParseAlertIdRoundTrip(txId: string, kind: AlertType)
    ensures ParseAlertId(AlertId(txId, kind)) == Some(AlertIdParts(txId, kind))
  {
    var id := AlertId(txId, kind);
    if HasIdShape(id, HighAmount) { IdShapeDeterminesKind(txId, kind, HighAmount); }
    if HasIdShape(id, UnusualLocation) { IdShapeDeterminesKind(txId, kind, UnusualLocation); }
    if HasIdShape(id, RapidTransactions) { IdShapeDeterminesKind(txId, kind, RapidTransactions); }
  }

  /** An alert identifier names one transaction and one rule: equal
      identifiers come from the same transaction id and the same rule. */
  lemma AlertIdInjective(txId1: string, kind1: AlertType, txId2: string, kind2: AlertType)
    requires AlertId(txId1, kind1) == AlertId(txId2, kind2)
    ensures txId1 == txId2 && kind1 == kind2
  {
    ParseAlertIdRoundTrip(txId1, kind1);
    ParseAlertIdRoundTrip(txId2, kind2);
  }

  // ---------------------------------------------------------------------
  // The rules
  // ---------------------------------------------------------------------

  /** What every rule promises of an alert it raises for `tx`. */
  predicate IsAlertFor(a: FraudAlert, tx: Transaction, kind: AlertType)
  {
    a.id == AlertId(tx.id, kind) &&
    a.kind == kind &&
    a.severity == SeverityOf(kind) &&
    a.amount == tx.amount &&
    a.customer == tx.customer &&
    a.timestamp == tx.timestamp &&
    a.status == Investigating
  }

  function NewAlert(tx: Transaction, kind: AlertType, detail: Detail): FraudAlert
  {
    FraudAlert(AlertId(tx.id, kind), kind, SeverityOf(kind), detail,
               tx.amount, tx.customer, tx.timestamp, Investigating)
  }

  /** Rule 1: an amount strictly above the threshold. */
  function CheckHighAmount(tx: Transaction): (r: Option<FraudAlert>)
    ensures r.Some? <==> tx.amount > 1000.0
    ensures r.Some? ==> IsAlertFor(r.value, tx, HighAmount) &&
                        r.value.detail == AmountDetail(tx.amount, 1000.0)
  {
    if tx.amount > HighAmountThreshold then
      Some(NewAlert(tx, HighAmount, AmountDetail(tx.amount, HighAmountThreshold)))
    else
      None
  }

  /** Rule 2. The customer's location history is accepted and not consulted:
      the outcome is the caller-supplied `locationRoll`, standing for the
      source's random draw. */
  function CheckUnusualLocation(tx: Transaction, customerHistory: seq<string>, locationRoll: bool)
    : (r: Option<FraudAlert>)
    ensures r.Some? <==> locationRoll
    ensures r.Some? ==> IsAlertFor(r.value, tx, UnusualLocation) && r.value.detail == LocationDetail
  {
    if locationRoll then Some(NewAlert(tx, UnusualLocation, LocationDetail)) else None
  }

  /** The history-based outcome the location rule is documented to compute:
      the transaction's location is one the customer has not used before. */
  predicate NovelLocation(tx: Transaction, customerHistory: seq<string>)
  {
    tx.location.Some? && tx.location.value !in customerHistory
  }

  /** The filter of rule 3: same customer, and the current timestamp minus
      the other's is under the window. Neither the current transaction nor
      later ones are excluded. */
  predicate InWindow(tx: Transaction, t: Transaction)
  {
    t.customer == tx.customer && tx.timestamp - t.timestamp < TimeWindow
  }

  function RecentSameCustomer(tx: Transaction, recent: seq<Transaction>): (r: seq<Transaction>)
    ensures forall t :: t in r <==> t in recent && InWindow(tx, t)
    ensures |r| <= |recent|
  {
    if recent == [] then []
    else
      assert recent == [recent[0]] + recent[1..];
      var rest := RecentSameCustomer(tx, recent[1..]);
      if InWindow(tx, recent[0]) then [recent[0]] + rest else rest
  }

  /** Rule 3: five or more matching entries in the window list; the alert
      reports the matches plus the current transaction. */
  function CheckRapidTransactions(tx: Transaction, recent: seq<Transaction>): (r: Option<FraudAlert>)
    ensures r.Some? <==> |RecentSameCustomer(tx, recent)| >= 5
    ensures r.Some? ==> IsAlertFor(r.value, tx, RapidTransactions) &&
                        r.value.detail == RapidDetail(|RecentSameCustomer(tx, recent)| + 1, 5, 60000)
  {
    var matches := RecentSameCustomer(tx, recent);
    if |matches| >= RapidTransactionThreshold then
      Some(NewAlert(tx, RapidTransactions,
                    RapidDetail(|matches| + 1, RapidTransactionThreshold, TimeWindow)))
    else
      None
  }

  function FactorCount(highAmount: bool, unusualLocation: bool, rapid: bool): nat
  {
    (if highAmount then 1 else 0) + (if unusualLocation then 1 else 0) + (if rapid then 1 else 0)
  }

  /** Rule 4: at least two of the other three rules fired. */
  function CheckSuspiciousPattern(tx: Transaction, highAmount: bool, unusualLocation: bool, rapid: bool)
    : (r: Option<FraudAlert>)
    ensures r.Some? <==> (highAmount && unusualLocation) || (highAmount && rapid) || (unusualLocation && rapid)
    ensures r.Some? ==> IsAlertFor(r.value, tx, SuspiciousPattern) &&
                        r.value.detail.PatternDetail? &&
                        r.value.detail.factors in {2, 3} &&
                        (r.value.detail.factors == 3 <==> highAmount && unusualLocation && rapid) &&
                        r.value.detail.highAmount == highAmount &&
                        r.value.detail.unusualLocation == unusualLocation &&
                        r.value.detail.rapid == rapid
  {
    var factors := FactorCount(highAmount, unusualLocation, rapid);
    if factors >= 2 then
      Some(NewAlert(tx, SuspiciousPattern, PatternDetail(factors, highAmount, unusualLocation, rapid)))
    else
      None
  }

  // ---------------------------------------------------------------------
  // The orchestrator
  // ---------------------------------------------------------------------

  function AsSeq(o: Option<FraudAlert>): seq<FraudAlert>
  {
    if o.Some? then [o.value] else []
  }

  /** The optional alert of each of the four rules for one transaction. */
  datatype Outcomes = Outcomes(high: Option<FraudAlert>, location: Option<FraudAlert>,
                               rapid: Option<FraudAlert>, pattern: Option<FraudAlert>)

  /** Runs the three base rules, then the composite rule on their outcomes. */
  function RunRules(tx: Transaction, customerHistory: seq<string>, recent: seq<Transaction>,
                    locationRoll: bool): Outcomes
  {
    var high := CheckHighAmount(tx);
    var location := CheckUnusualLocation(tx, customerHistory, locationRoll);
    var rapid := CheckRapidTransactions(tx, recent);
    Outcomes(high, location, rapid, CheckSuspiciousPattern(tx, high.Some?, location.Some?, rapid.Some?))
  }

  /** The alerts raised, in rule order. */
  function Collect(o: Outcomes): seq<FraudAlert>
  {
    AsSeq(o.high) + AsSeq(o.location) + AsSeq(o.rapid) + AsSeq(o.pattern)
  }

  /** The alerts raised for `tx`: high_amount, unusual_location,
      rapid_transactions and suspicious_pattern in that order, each at most
      once, every one raised for `tx` by the rule of its kind. */
  function Evaluate(tx: Transaction, customerHistory: seq<string>, recent: seq<Transaction>,
                    locationRoll: bool): (r: seq<FraudAlert>)
    ensures Ordered(r) && |r| <= 4
    ensures forall i, j :: 0 <= i < j < |r| ==> r[i].kind != r[j].kind
    ensures AllFor(r, tx)
  {
    var o := RunRules(tx, customerHistory, recent, locationRoll);
    AssembleOrdered(o);
    AssembleAllFor(tx, o);
    OrderedAtMostFour(Collect(o));
    Collect(o)
  }

  /** Runs the four rules and appends each alert raised, in order. */
  method DetectFraud(tx: Transaction, customerHistory: seq<string>, recentTransactions: seq<Transaction>,
                     locationRoll: bool)
    returns (alerts: seq<FraudAlert>)
    ensures alerts == Evaluate(tx, customerHistory, recentTransactions, locationRoll)
    ensures Ordered(alerts) && |alerts| <= 4
  {
    alerts := [];
    var highAmountAlert := CheckHighAmount(tx);
    var unusualLocationAlert := CheckUnusualLocation(tx, customerHistory, locationRoll);
    var rapidTransactionsAlert := CheckRapidTransactions(tx, recentTransactions);

    if highAmountAlert.Some? { alerts := alerts + [highAmountAlert.value]; }
    assert alerts == AsSeq(highAmountAlert);
    if unusualLocationAlert.Some? { alerts := alerts + [unusualLocationAlert.value]; }
    assert alerts == AsSeq(highAmountAlert) + AsSeq(unusualLocationAlert);
    if rapidTransactionsAlert.Some? { alerts := alerts + [rapidTransactionsAlert.value]; }
    assert alerts == AsSeq(highAmountAlert) + AsSeq(unusualLocationAlert) + AsSeq(rapidTransactionsAlert);

    var suspiciousPatternAlert := CheckSuspiciousPattern(
      tx, highAmountAlert.Some?, unusualLocationAlert.Some?, rapidTransactionsAlert.Some?);
    if suspiciousPatternAlert.Some? { alerts := alerts + [suspiciousPatternAlert.value]; }
  }

  // ---------------------------------------------------------------------
  // Properties of the orchestrator
  // ---------------------------------------------------------------------

  predicate Ordered(alerts: seq<FraudAlert>)
  {
    forall i, j :: 0 <= i < j < |alerts| ==> Rank(alerts[i].kind) < Rank(alerts[j].kind)
  }

  /** Whether an alert of `kind` occurs in the list. */
  predicate HasKind(alerts: seq<FraudAlert>, kind: AlertType)
  {
    alerts != [] && (alerts[0].kind == kind || HasKind(alerts[1..], kind))
  }

  /** Every alert of the list was raised for `tx` by the rule of its kind. */
  predicate AllFor(alerts: seq<FraudAlert>, tx: Transaction)
  {
    forall i :: 0 <= i < |alerts| ==> IsAlertFor(alerts[i], tx, alerts[i].kind)
  }

  lemma {:induction false} RankAtLeastIndex(alerts: seq<FraudAlert>, i: nat)
    requires Ordered(alerts) && i < |alerts|
    ensures i <= Rank(alerts[i].kind)
  {
    if i > 0 {
      RankAtLeastIndex(alerts, i - 1);
    }
  }

  /** Strictly increasing ranks leave room for at most one alert per kind,
      so at most four alerts. */
  lemma OrderedAtMostFour(alerts: seq<FraudAlert>)
    requires Ordered(alerts)
    ensures |alerts| <= 4
    ensures forall i, j :: 0 <= i < j < |alerts| ==> alerts[i].kind != alerts[j].kind
  {
    if |alerts| > 4 {
      RankAtLeastIndex(alerts, 4);
    }
  }

  /** Appending the optional alert of a rule ranked after everything already
      collected keeps the list ordered. */
  lemma PushOrdered(alerts: seq<FraudAlert>, o: Option<FraudAlert>, kind: AlertType)
    requires Ordered(alerts)
    requires forall i :: 0 <= i < |alerts| ==> Rank(alerts[i].kind) < Rank(kind)
    requires o.Some? ==> o.value.kind == kind
    ensures Ordered(alerts + AsSeq(o))
    ensures forall i :: 0 <= i < |alerts + AsSeq(o)| ==> Rank((alerts + AsSeq(o))[i].kind) <= Rank(kind)
  {
  }

  /** Appending an alert raised for `tx` keeps every alert describing `tx`. */
  lemma PushAllFor(tx: Transaction, alerts: seq<FraudAlert>, o: Option<FraudAlert>)
    requires AllFor(alerts, tx)
    requires o.Some? ==> IsAlertFor(o.value, tx, o.value.kind)
    ensures AllFor(alerts + AsSeq(o), tx)
  {
  }

  /** A kind occurs in a concatenation iff it occurs in one of the parts. */
  lemma {:induction false} HasKindAppend(alerts: seq<FraudAlert>, more: seq<FraudAlert>, kind: AlertType)
    ensures HasKind(alerts + more, kind) <==> HasKind(alerts, kind) || HasKind(more, kind)
  {
    if alerts != [] {
      assert (alerts + more)[1..] == alerts[1..] + more;
      HasKindAppend(alerts[1..], more, kind);
    } else {
      assert alerts + more == more;
    }
  }

  /** Four optional alerts, one per rule and concatenated in rule order,
      form an ordered list. */
  lemma AssembleOrdered(o: Outcomes)
    requires o.high.Some? ==> o.high.value.kind == HighAmount
    requires o.location.Some? ==> o.location.value.kind == UnusualLocation
    requires o.rapid.Some? ==> o.rapid.value.kind == RapidTransactions
    requires o.pattern.Some? ==> o.pattern.value.kind == SuspiciousPattern
    ensures Ordered(Collect(o))
  {
    var s1 := AsSeq(o.high);
    PushOrdered(s1, o.location, UnusualLocation);
    var s2 := s1 + AsSeq(o.location);
    PushOrdered(s2, o.rapid, RapidTransactions);
    var s3 := s2 + AsSeq(o.rapid);
    PushOrdered(s3, o.pattern, SuspiciousPattern);
  }

  /** The kinds present in four concatenated optional alerts. */
  lemma AssembleKinds(o: Outcomes, kind: AlertType)
    ensures HasKind(Collect(o), kind) <==>
            (o.high.Some? && o.high.value.kind == kind) || (o.location.Some? && o.location.value.kind == kind) ||
            (o.rapid.Some? && o.rapid.value.kind == kind) || (o.pattern.Some? && o.pattern.value.kind == kind)
  {
    var s1 := AsSeq(o.high);
    var s2 := s1 + AsSeq(o.location);
    var s3 := s2 + AsSeq(o.rapid);
    HasKindAppend(s1, AsSeq(o.location), kind);
    HasKindAppend(s2, AsSeq(o.rapid), kind);
    HasKindAppend(s3, AsSeq(o.pattern), kind);
  }

  /** Four optional alerts raised for `tx` describe `tx` once concatenated. */
  lemma AssembleAllFor(tx: Transaction, o: Outcomes)
    requires o.high.Some? ==> IsAlertFor(o.high.value, tx, HighAmount)
    requires o.location.Some? ==> IsAlertFor(o.location.value, tx, UnusualLocation)
    requires o.rapid.Some? ==> IsAlertFor(o.rapid.value, tx, RapidTransactions)
    requires o.pattern.Some? ==> IsAlertFor(o.pattern.value, tx, SuspiciousPattern)
    ensures AllFor(Collect(o), tx)
  {
    var s1 := AsSeq(o.high);
    PushAllFor(tx, s1, o.location);
    var s2 := s1 + AsSeq(o.location);
    PushAllFor(tx, s2, o.rapid);
    var s3 := s2 + AsSeq(o.rapid);
    PushAllFor(tx, s3, o.pattern);
  }

  /** Each kind is present exactly when its rule fired: each of the three
      base rules on its own condition, whatever the others do, and the
      composite rule when at least two base conditions hold. */
  lemma EvaluateKinds(tx: Transaction, customerHistory: seq<string>, recent: seq<Transaction>,
                      locationRoll: bool)
    ensures var alerts := Evaluate(tx, customerHistory, recent, locationRoll);
            (HasKind(alerts, HighAmount) <==> tx.amount > 1000.0) &&
            (HasKind(alerts, UnusualLocation) <==> locationRoll) &&
            (HasKind(alerts, RapidTransactions) <==> |RecentSameCustomer(tx, recent)| >= 5) &&
            (HasKind(alerts, SuspiciousPattern) <==>
               FactorCount(tx.amount > 1000.0, locationRoll, |RecentSameCustomer(tx, recent)| >= 5) >= 2)
  {
    var o := RunRules(tx, customerHistory, recent, locationRoll);
    AssembleKinds(o, HighAmount);
    AssembleKinds(o, UnusualLocation);
    AssembleKinds(o, RapidTransactions);
    AssembleKinds(o, SuspiciousPattern);
  }

  /** The composite alert is present exactly when at least two of the three
      base alerts are present. */
  lemma EvaluatePattern(tx: Transaction, customerHistory: seq<string>, recent: seq<Transaction>,
                        locationRoll: bool)
    ensures var alerts := Evaluate(tx, customerHistory, recent, locationRoll);
            HasKind(alerts, SuspiciousPattern) <==>
              FactorCount(HasKind(alerts, HighAmount), HasKind(alerts, UnusualLocation),
                          HasKind(alerts, RapidTransactions)) >= 2
  {
    EvaluateKinds(tx, customerHistory, recent, locationRoll);
  }

  /** No alert at all exactly when no base rule fires: amount at most the
      threshold, a false location outcome and fewer than five matches. */
  lemma EvaluateEmpty(tx: Transaction, customerHistory: seq<string>, recent: seq<Transaction>,
                      locationRoll: bool)
    ensures Evaluate(tx, customerHistory, recent, locationRoll) == [] <==>
            tx.amount <= 1000.0 && !locationRoll && |RecentSameCustomer(tx, recent)| < 5
  {
    EvaluateKinds(tx, customerHistory, recent, locationRoll);
  }

  /** Every alert copies the amount, customer and timestamp of the
      transaction, is `investigating`, carries its rule's fixed severity
      (never `low`) and the id `alert_<transaction id><suffix>`. */
  lemma EvaluateAlertsDescribeTransaction(tx: Transaction, customerHistory: seq<string>,
                                          recent: seq<Transaction>, locationRoll: bool)
    ensures var alerts := Evaluate(tx, customerHistory, recent, locationRoll);
            forall i :: 0 <= i < |alerts| ==>
              IsAlertFor(alerts[i], tx, alerts[i].kind) && alerts[i].severity != Low &&
              (alerts[i].severity == High <==>
                 alerts[i].kind == HighAmount || alerts[i].kind == SuspiciousPattern)
  {
  }

  /** The ids in one result are pairwise distinct. */
  lemma EvaluateIdsDistinct(tx: Transaction, customerHistory: seq<string>, recent: seq<Transaction>,
                            locationRoll: bool)
    ensures var alerts := Evaluate(tx, customerHistory, recent, locationRoll);
            forall i, j :: 0 <= i < j < |alerts| ==> alerts[i].id != alerts[j].id
  {
    var alerts := Evaluate(tx, customerHistory, recent, locationRoll);
    forall i, j | 0 <= i < j < |alerts| ensures alerts[i].id != alerts[j].id {
      if alerts[i].id == alerts[j].id {
        AlertIdInjective(tx.id, alerts[i].kind, tx.id, alerts[j].kind);
      }
    }
  }

  /** Re-evaluating a transaction with the same id under the same rule
      yields the same alert id, and alerts of two transactions with
      different ids never share an id. */
  lemma AlertIdsStable(tx1: Transaction, tx2: Transaction, a1: FraudAlert, a2: FraudAlert)
    requires IsAlertFor(a1, tx1, a1.kind) && IsAlertFor(a2, tx2, a2.kind)
    ensures a1.id == a2.id <==> tx1.id == tx2.id && a1.kind == a2.kind
  {
    if a1.id == a2.id {
      AlertIdInjective(tx1.id, a1.kind, tx2.id, a2.kind);
    }
  }

  /** With an empty window the rapid rule cannot fire, and with a false
      location outcome only the high-amount alert can be raised. */
  lemma EvaluateEmptyWindow(tx: Transaction, customerHistory: seq<string>, locationRoll: bool)
    ensures !HasKind(Evaluate(tx, customerHistory, [], locationRoll), RapidTransactions)
    ensures !locationRoll ==>
              Evaluate(tx, customerHistory, [], locationRoll) == AsSeq(CheckHighAmount(tx))
  {
    EvaluateKinds(tx, customerHistory, [], locationRoll);
  }

  /** With the history-based location outcome, the location alert is raised
      exactly when the transaction has a location absent from the history. */
  lemma EvaluateWithLocationHistory(tx: Transaction, customerHistory: seq<string>,
                                    recent: seq<Transaction>)
    ensures HasKind(Evaluate(tx, customerHistory, recent, NovelLocation(tx, customerHistory)),
                    UnusualLocation)
            <==> tx.location.Some? && tx.location.value !in customerHistory
  {
    EvaluateKinds(tx, customerHistory, recent, NovelLocation(tx, customerHistory));
  }

  // ---------------------------------------------------------------------
  // Properties of the rapid-transaction window
  // ---------------------------------------------------------------------

  /** The matches are exactly the window entries that pass the filter, each
      as many times as it occurs in the window: the count the rule compares
      with its threshold. */
  lemma {:induction false} RecentSameCustomerCounts(tx: Transaction, recent: seq<Transaction>)
    ensures forall t :: multiset(RecentSameCustomer(tx, recent))[t] ==
                        if InWindow(tx, t) then multiset(recent)[t] else 0
  {
    if recent != [] {
      RecentSameCustomerCounts(tx, recent[1..]);
      assert recent == [recent[0]] + recent[1..];
      assert multiset(recent) == multiset{recent[0]} + multiset(recent[1..]);
    }
  }

  /** Filtering a concatenated window list filters each part. */
  lemma {:induction false} RecentSameCustomerAppend(tx: Transaction, recent: seq<Transaction>,
                                                    more: seq<Transaction>)
    ensures RecentSameCustomer(tx, recent + more) ==
            RecentSameCustomer(tx, recent) + RecentSameCustomer(tx, more)
  {
    if recent == [] {
      assert recent + more == more;
    } else {
      var all := recent + more;
      assert all[0] == recent[0] && all[1..] == recent[1..] + more;
      RecentSameCustomerAppend(tx, recent[1..], more);
      var rest := RecentSameCustomer(tx, recent[1..]);
      if InWindow(tx, recent[0]) {
        assert RecentSameCustomer(tx, all) == [recent[0]] + RecentSameCustomer(tx, all[1..]);
        assert RecentSameCustomer(tx, recent) == [recent[0]] + rest;
      } else {
        assert RecentSameCustomer(tx, all) == RecentSameCustomer(tx, all[1..]);
        assert RecentSameCustomer(tx, recent) == rest;
      }
    }
  }

  /** Adding entries to the window never withdraws a rapid alert. */
  lemma RapidMonotone(tx: Transaction, recent: seq<Transaction>, more: seq<Transaction>)
    requires CheckRapidTransactions(tx, recent).Some?
    ensures CheckRapidTransactions(tx, recent + more).Some?
  {
    RecentSameCustomerAppend(tx, recent, more);
  }

  /** When every window entry is a match (for instance five entries of the
      same customer within the last 59 seconds), the rule fires exactly
      when there are at least five of them, and reports one more than there
      are: five prior entries report six, four report nothing. */
  lemma {:induction false} RapidAllInWindow(tx: Transaction, recent: seq<Transaction>)
    requires forall t :: t in recent ==> InWindow(tx, t)
    ensures RecentSameCustomer(tx, recent) == recent
    ensures CheckRapidTransactions(tx, recent).Some? <==> |recent| >= 5
    ensures CheckRapidTransactions(tx, recent).Some? ==>
              CheckRapidTransactions(tx, recent).value.detail.total == |recent| + 1
  {
    if recent != [] {
      assert recent[0] in recent;
      assert forall t :: t in recent[1..] ==> t in recent;
      RapidAllInWindow(tx, recent[1..]);
      assert recent == [recent[0]] + recent[1..];
    }
  }

  /** As written, the window filter keeps an entry exactly at the
      threshold out (a difference of 60000 ms is not under the window),
      and counts the current transaction itself and any later entry of the
      same customer. */
  lemma WindowBoundaries(tx: Transaction, t: Transaction)
    requires t.customer == tx.customer
    ensures tx.timestamp - t.timestamp == 60000 ==> !InWindow(tx, t)
    ensures tx.timestamp - t.timestamp == 59999 ==> InWindow(tx, t)
    ensures t.timestamp >= tx.timestamp ==> InWindow(tx, t)
    ensures InWindow(tx, tx)
  {
  }
}
