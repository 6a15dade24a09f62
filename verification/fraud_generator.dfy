/**
 * The fraud generator's bookkeeping: the bounded history of generated transactions and the
 * weighted list the fraud scenario is drawn from.
 */
module FraudGenerator {
  import opened GenTransaction

  /** FraudScenario, in declaration order. */
  datatype FraudScenario = HighAmountThreshold | OffHoursTransaction | SuspiciousRemittance | CrossBorderHighRisk

  /** FraudScenario.values(). */
  const Scenarios: seq<FraudScenario> := [HighAmountThreshold, OffHoursTransaction, SuspiciousRemittance, CrossBorderHighRisk]

  /** The weight each scenario is declared with. */
  function Weight(s: FraudScenario): nat {
    match s
    case HighAmountThreshold => 10
    case OffHoursTransaction => 15
    case SuspiciousRemittance => 20
    case CrossBorderHighRisk => 8
  }

  function Description(s: FraudScenario): string {
    match s
    case HighAmountThreshold => "High Amount Transaction"
    case OffHoursTransaction => "Off Hours Transaction"
    case SuspiciousRemittance => "Suspicious Remittance Information"
    case CrossBorderHighRisk => "Cross Border High Risk"
  }

  function Ordinal(s: FraudScenario): nat {
    match s
    case HighAmountThreshold => 0
    case OffHoursTransaction => 1
    case SuspiciousRemittance => 2
    case CrossBorderHighRisk => 3
  }

  const MaxHistorySize: nat := 100

  // ---------------------------------------------------------------------------
  // The weighted scenario list
  // ---------------------------------------------------------------------------

  /** `n` copies of a scenario. */
  function Copies(s: FraudScenario, n: nat): (r: seq<FraudScenario>)
    ensures |r| == n && forall i :: 0 <= i < n ==> r[i] == s
  {
    if n == 0 then [] else Copies(s, n - 1) + [s]
  }

  /** Each scenario of `ss` repeated by its weight, in the order of `ss`. */
  function Weighted(ss: seq<FraudScenario>): seq<FraudScenario> {
    if ss == [] then [] else Weighted(ss[..|ss| - 1]) + Copies(ss[|ss| - 1], Weight(ss[|ss| - 1]))
  }

  /** How often a scenario occurs in a list. */
  function Occurrences(list: seq<FraudScenario>, s: FraudScenario): nat {
    if list == [] then 0 else Occurrences(list[..|list| - 1], s) + (if list[|list| - 1] == s then 1 else 0)
  }

  lemma OccurrencesConcat(a: seq<FraudScenario>, b: seq<FraudScenario>, s: FraudScenario)
    ensures Occurrences(a + b, s) == Occurrences(a, s) + Occurrences(b, s)
  {
    if b != [] {
      assert (a + b)[..|a + b| - 1] == a + b[..|b| - 1];
      OccurrencesConcat(a, b[..|b| - 1], s);
    } else {
      assert a + b == a;
    }
  }

  lemma {:induction false} OccurrencesCopies(c: FraudScenario, n: nat, s: FraudScenario)
    ensures Occurrences(Copies(c, n), s) == if c == s then n else 0
  {
    if n > 0 {
      OccurrencesCopies(c, n - 1, s);
      assert Copies(c, n)[..n - 1] == Copies(c, n - 1);
    }
  }

  /** In a weighted list of distinct scenarios, each listed scenario occurs exactly its weight
      times and every other scenario never. */
  lemma {:induction false} WeightedOccurrences(ss: seq<FraudScenario>, s: FraudScenario)
    requires forall i, j :: 0 <= i < j < |ss| ==> ss[i] != ss[j]
    ensures Occurrences(Weighted(ss), s) == if s in ss then Weight(s) else 0
  {
    if ss != [] {
      var init, last := ss[..|ss| - 1], ss[|ss| - 1];
      WeightedOccurrences(init, s);
      OccurrencesConcat(Weighted(init), Copies(last, Weight(last)), s);
      OccurrencesCopies(last, Weight(last), s);
      assert ss == init + [last];
      if s == last {
        assert s !in init by {
          forall i | 0 <= i < |init| ensures init[i] != s {
            assert init[i] == ss[i];
          }
        }
      }
    }
  }

  /** A weighted list keeps the order of `ss`: an earlier entry never comes from a later
      scenario. */
  lemma {:induction false} WeightedOrder(ss: seq<FraudScenario>)
    requires forall i, j :: 0 <= i < j < |ss| ==> Ordinal(ss[i]) < Ordinal(ss[j])
    ensures forall i, j :: 0 <= i < j < |Weighted(ss)| ==> Ordinal(Weighted(ss)[i]) <= Ordinal(Weighted(ss)[j])
    ensures forall i :: 0 <= i < |Weighted(ss)| ==> Weighted(ss)[i] in ss
  {
    if ss != [] {
      var init, last := ss[..|ss| - 1], ss[|ss| - 1];
      WeightedOrder(init);
      var w, c := Weighted(init), Copies(last, Weight(last));
      assert Weighted(ss) == w + c;
      forall i | 0 <= i < |w| ensures Ordinal(w[i]) < Ordinal(last) && w[i] in ss {
        var k :| 0 <= k < |init| && init[k] == w[i];
        assert ss[k] == init[k];
      }
    }
  }

  /** The length of a weighted list, one scenario at a time. */
  lemma WeightedPrefixLengths()
    ensures |Weighted(Scenarios[..1])| == 10 && |Weighted(Scenarios[..2])| == 25
    ensures |Weighted(Scenarios[..3])| == 45 && |Weighted(Scenarios)| == 53
  {
    assert Scenarios[..1][..0] == [];
    assert Scenarios[..2][..1] == Scenarios[..1];
    assert Scenarios[..3][..2] == Scenarios[..2];
    assert Scenarios[..3] == Scenarios[..|Scenarios| - 1];
  }

  /** The list buildWeightedScenarioList produces: 53 entries, each scenario as often as its
      weight, in declaration order. */
  lemma WeightedScenarioList()
    ensures |Weighted(Scenarios)| == 53
    ensures forall s :: Occurrences(Weighted(Scenarios), s) == Weight(s)
    ensures forall i, j :: 0 <= i < j < 53 ==> Ordinal(Weighted(Scenarios)[i]) <= Ordinal(Weighted(Scenarios)[j])
  {
    WeightedPrefixLengths();
    forall s ensures Occurrences(Weighted(Scenarios), s) == Weight(s) {
      WeightedOccurrences(Scenarios, s);
    }
    WeightedOrder(Scenarios);
  }

  /** buildWeightedScenarioList: for each scenario in order, `weight` copies of it. */
  method BuildWeightedScenarioList() returns (weightedList: seq<FraudScenario>)
    ensures weightedList == Weighted(Scenarios)
  {
    weightedList := [];
    for k := 0 to |Scenarios|
      invariant weightedList == Weighted(Scenarios[..k])
    {
      var scenario := Scenarios[k];
      ghost var start := weightedList;
      for i := 0 to Weight(scenario)
        invariant weightedList == start + Copies(scenario, i)
      {
        weightedList := weightedList + [scenario];
      }
      assert Scenarios[..k + 1][..k] == Scenarios[..k];
    }
    assert Scenarios[..|Scenarios|] == Scenarios;
  }

  /** selectWeightedFraudScenario with the random index as a parameter: a scenario is picked
      with probability weight / 53. */
  method SelectWeightedFraudScenario(draw: nat) returns (scenario: FraudScenario)
    ensures |Weighted(Scenarios)| == 53 && scenario == Weighted(Scenarios)[draw % 53]
    ensures scenario in Scenarios
  {
    var weightedScenarios := BuildWeightedScenarioList();
    WeightedScenarioList();
    WeightedOrder(Scenarios);
    scenario := weightedScenarios[draw % |weightedScenarios|];
  }

  // ---------------------------------------------------------------------------
  // The transaction history
  // ---------------------------------------------------------------------------

  /** What a queue keeps after polling from the front until at most `cap` remain. */
  function Newest<T>(s: seq<T>, cap: nat): (r: seq<T>)
    ensures |r| == if |s| > cap then cap else |s|
  {
    if |s| > cap then s[|s| - cap..] else s
  }

  /** The kept entries are the latest ones: a suffix of the queue, at most `cap` long,
      ending with the entry offered last. */
  lemma NewestIsSuffix<T>(s: seq<T>, cap: nat)
    ensures |Newest(s, cap)| <= cap
    ensures s == s[..|s| - |Newest(s, cap)|] + Newest(s, cap)
    ensures |s| > 0 && cap > 0 ==> Newest(s, cap)[|Newest(s, cap)| - 1] == s[|s| - 1]
  {
  }

  /** Below capacity nothing is dropped. */
  lemma NewestBelowCapacity<T>(s: seq<T>, cap: nat)
    requires |s| <= cap
    ensures Newest(s, cap) == s
  {
  }

  /** Offering to a full queue drops exactly its oldest entry. */
  lemma NewestEvictsOldest<T>(h: seq<T>, x: T, cap: nat)
    requires |h| == cap > 0
    ensures Newest(h + [x], cap) == h[1..] + [x]
  {
    assert (h + [x])[|h + [x]| - cap..] == h[1..] + [x];
  }

  /** The generator with its transaction history (oldest first). */
  class FraudTransactionGenerator {
    var transactionHistory: seq<Transaction>

    constructor ()
      ensures transactionHistory == []
    {
      transactionHistory := [];
    }

    /** addToHistory: offer at the tail, then poll the head while more than 100 remain. */
    method AddToHistory(transaction: Transaction)
      modifies this
      ensures transactionHistory == Newest(old(transactionHistory) + [transaction], MaxHistorySize)
      ensures |transactionHistory| <= MaxHistorySize
      ensures transactionHistory[|transactionHistory| - 1] == transaction
    {
      ghost var offered := transactionHistory + [transaction];
      transactionHistory := transactionHistory + [transaction];
      while |transactionHistory| > MaxHistorySize
        invariant |transactionHistory| >= MaxHistorySize || transactionHistory == offered
        invariant transactionHistory == offered[|offered| - |transactionHistory|..]
      {
        transactionHistory := transactionHistory[1..];
      }
    }

    /** getRecentTransactions: a copy of the history, oldest first. */
    method GetRecentTransactions() returns (recent: seq<Transaction>)
      ensures recent == transactionHistory
    {
      recent := transactionHistory;
    }
  }
}
