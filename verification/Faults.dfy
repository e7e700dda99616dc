/**
  Fault injection: which rule fires for a request, and how a limited rule is used up
  (internal/context/simulation/fault).  Shell-style matching of a pattern is a function the
  engine is given, and a probability is a real compared with rolls drawn from a sequence.
 */
module Faults {
  import opened Common

  datatype Action = Delay | RPCError | HTTPStatus | Malformed | Drop | Duplicate | Passthrough

  datatype Rule = Rule(
    id: int, enabled: bool, priority: int, profiled: bool, sandboxID: Option<int>,
    service: string, rpc: string, matchAccount: map<string, string>, matchPaymeID: string,
    amountMin: Option<int>, amountMax: Option<int>,
    action: Action, delayMillis: int, probability: real, timesLeft: Option<int>, hitCount: int)
  {
    /** Whether the rule applies to a request, apart from its roll and its remaining uses. */
    predicate Matches(glob: (string, string) -> bool, q: Request) {
      && enabled
      && (sandboxID.Some? ==> sandboxID.value == q.sandboxID)
      && (service == SERVICE_ANY || service == q.service)
      && Glob(glob, rpc, q.rpc)
      && (matchPaymeID == "" || Glob(glob, matchPaymeID, q.paymeID))
      && (amountMin.Some? ==> amountMin.value <= q.amount)
      && (amountMax.Some? ==> q.amount <= amountMax.value)
      && (forall f :: f in matchAccount ==> f in q.account && Glob(glob, matchAccount[f], q.account[f]))
    }

    predicate Exhausted() { timesLeft.Some? && timesLeft.value <= 0 }
  }

  const SERVICE_ANY := "*"

  datatype Request = Request(
    service: string, rpc: string, sandboxID: int, account: map<string, string>, paymeID: string, amount: int)

  /** An empty pattern and a lone star match everything. */
  predicate Glob(glob: (string, string) -> bool, pattern: string, value: string) {
    pattern == "" || pattern == "*" || glob(pattern, value)
  }

  datatype Decision = Decision(rule: Option<Rule>, delayMillis: int)

  // ---------- the order of rules ----------

  predicate Before(r: Rule, s: Rule) { r.priority < s.priority || (r.priority == s.priority && r.id <= s.id) }

  predicate Ordered(rules: seq<Rule>) { forall i, j :: 0 <= i < j < |rules| ==> Before(rules[i], rules[j]) }

  predicate DistinctIDs(rules: seq<Rule>) { forall i, j :: 0 <= i < j < |rules| ==> rules[i].id != rules[j].id }

  function Inserted(rules: seq<Rule>, r: Rule): seq<Rule> {
    if rules == [] || Before(rules[|rules| - 1], r) then rules + [r]
    else Inserted(rules[..|rules| - 1], r) + [rules[|rules| - 1]]
  }

  /** A stable sort by priority, then identifier. */
  function ByPriority(rules: seq<Rule>): seq<Rule> {
    if rules == [] then [] else Inserted(ByPriority(rules[..|rules| - 1]), rules[|rules| - 1])
  }

  lemma {:induction false} InsertedOrdered(rules: seq<Rule>, r: Rule)
    requires Ordered(rules)
    ensures Ordered(Inserted(rules, r)) && multiset(Inserted(rules, r)) == multiset(rules) + multiset{r}
  {
    if rules == [] || Before(rules[|rules| - 1], r) {
    } else {
      var init, last := rules[..|rules| - 1], rules[|rules| - 1];
      InsertedOrdered(init, r);
      assert rules == init + [last];
      var inserted := Inserted(init, r);
      forall i | 0 <= i < |inserted| ensures Before(inserted[i], last) {
        assert inserted[i] in multiset(inserted);
        assert inserted[i] == r || inserted[i] in init;
      }
    }
  }

  /** Sorting is a permutation in order. */
  lemma {:induction false} SortedOrdered(rules: seq<Rule>)
    ensures Ordered(ByPriority(rules)) && multiset(ByPriority(rules)) == multiset(rules)
  {
    if rules != [] {
      var init := rules[..|rules| - 1];
      SortedOrdered(init);
      InsertedOrdered(ByPriority(init), rules[|rules| - 1]);
      assert rules == init + [rules[|rules| - 1]];
    }
  }

  lemma FirstBefore(rules: seq<Rule>, r: Rule)
    requires Ordered(rules) && r in rules
    ensures Before(rules[0], r)
  {
    var i :| 0 <= i < |rules| && rules[i] == r;
  }

  /** Rules with the same identifier are the same rule. */
  predicate Identified(rules: multiset<Rule>) {
    forall r, s :: r in rules && s in rules && r.id == s.id ==> r == s
  }

  lemma SameRest(s: seq<Rule>, t: seq<Rule>)
    requires s != [] && t != [] && s[0] == t[0] && multiset(s) == multiset(t)
    ensures multiset(s[1..]) == multiset(t[1..])
    ensures s[1..] == t[1..] ==> s == t
    ensures multiset(s[1..]) <= multiset(s)
  {
    assert s == [s[0]] + s[1..] && t == [t[0]] + t[1..];
    assert multiset(s) == multiset{s[0]} + multiset(s[1..]);
    assert multiset(t) == multiset{t[0]} + multiset(t[1..]);
    assert multiset(s[1..]) == multiset(s) - multiset{s[0]};
    assert multiset(t[1..]) == multiset(t) - multiset{t[0]};
  }

  /** There is one order of a bag of rules with identifiers of their own. */
  lemma {:induction false} OneOrder(s: seq<Rule>, t: seq<Rule>)
    requires Ordered(s) && Ordered(t) && multiset(s) == multiset(t) && Identified(multiset(s))
    ensures s == t
  {
    assert |multiset(s)| == |s| && |multiset(t)| == |t|;
    if s != [] {
      assert t[0] in multiset(s) && s[0] in multiset(t);
      FirstBefore(s, t[0]);
      FirstBefore(t, s[0]);
      SameRest(s, t);
      OneOrder(s[1..], t[1..]);
    }
  }

  /** Whatever order the store returned the rules in, they are tried in the same one. */
  lemma AnyOrder(returned: seq<Rule>, other: seq<Rule>)
    requires multiset(returned) == multiset(other) && Identified(multiset(returned))
    ensures ByPriority(returned) == ByPriority(other)
  {
    SortedOrdered(returned);
    SortedOrdered(other);
    OneOrder(ByPriority(returned), ByPriority(other));
  }

  // ---------- evaluation ----------

  predicate Eligible(glob: (string, string) -> bool, q: Request, r: Rule) { r.Matches(glob, q) && !r.Exhausted() }

  /** A certain rule takes no roll. */
  predicate Wins(r: Rule, roll: real) { r.probability >= 1.0 || roll < r.probability }

  /** The first rule from index from on that fires, and how many rolls had been drawn by then. */
  function FirstFrom(glob: (string, string) -> bool, q: Request, rules: seq<Rule>, rolls: nat -> real,
                     from: nat, drawn: nat): (Option<Rule>, nat)
    requires from <= |rules|
    decreases |rules| - from
  {
    if from == |rules| then (None, drawn)
    else if !Eligible(glob, q, rules[from]) then FirstFrom(glob, q, rules, rolls, from + 1, drawn)
    else
      var drawn' := if rules[from].probability < 1.0 then drawn + 1 else drawn;
      if Wins(rules[from], rolls(drawn)) then (Some(rules[from]), drawn')
      else FirstFrom(glob, q, rules, rolls, from + 1, drawn')
  }

  /** How many rules before index k are rolled for. */
  function Rolled(glob: (string, string) -> bool, q: Request, rules: seq<Rule>, k: nat): nat
    requires k <= |rules|
  {
    if k == 0 then 0
    else
      Rolled(glob, q, rules, k - 1) +
      if Eligible(glob, q, rules[k - 1]) && rules[k - 1].probability < 1.0 then 1 else 0
  }

  /** The rule at k matches, is not spent, and wins its own roll. */
  predicate Fires(glob: (string, string) -> bool, q: Request, rules: seq<Rule>, rolls: nat -> real, drawn: nat, k: nat)
    requires k < |rules|
  {
    Eligible(glob, q, rules[k]) && Wins(rules[k], rolls(drawn + Rolled(glob, q, rules, k)))
  }

  /** The rule at k fires, and none before it does. */
  predicate FirstAt(glob: (string, string) -> bool, q: Request, rules: seq<Rule>, rolls: nat -> real, drawn: nat, k: nat) {
    k < |rules| && Fires(glob, q, rules, rolls, drawn, k) &&
    forall j :: 0 <= j < k ==> !Fires(glob, q, rules, rolls, drawn, j)
  }

  /** The least rule that fires, or none when there is none. */
  predicate Least(glob: (string, string) -> bool, q: Request, rules: seq<Rule>, rolls: nat -> real, drawn: nat,
                  fired: Option<Rule>)
  {
    match fired
    case None => forall k :: 0 <= k < |rules| ==> !Fires(glob, q, rules, rolls, drawn, k)
    case Some(r) => exists k: nat :: k < |rules| && FirstAt(glob, q, rules, rolls, drawn, k) && rules[k] == r
  }

  lemma {:induction false} FirstFires(glob: (string, string) -> bool, q: Request, rules: seq<Rule>, rolls: nat -> real,
                                      from: nat, drawn: nat)
    requires from <= |rules|
    requires forall k :: 0 <= k < from ==> !Fires(glob, q, rules, rolls, drawn, k)
    ensures Least(glob, q, rules, rolls, drawn,
                  FirstFrom(glob, q, rules, rolls, from, drawn + Rolled(glob, q, rules, from)).0)
    decreases |rules| - from
  {
    hide FirstFrom, Fires, Rolled, Eligible, Wins, Least, FirstAt;
    if from == |rules| {
      NoneFires(glob, q, rules, rolls, drawn);
    } else {
      OneFires(glob, q, rules, rolls, from, drawn);
      if Fires(glob, q, rules, rolls, drawn, from) {
        ThisFires(glob, q, rules, rolls, from, drawn);
      } else {
        FirstFires(glob, q, rules, rolls, from + 1, drawn);
      }
    }
  }

  lemma NoneFires(glob: (string, string) -> bool, q: Request, rules: seq<Rule>, rolls: nat -> real, drawn: nat)
    requires forall k :: 0 <= k < |rules| ==> !Fires(glob, q, rules, rolls, drawn, k)
    ensures Least(glob, q, rules, rolls, drawn, FirstFrom(glob, q, rules, rolls, |rules|, drawn + Rolled(glob, q, rules, |rules|)).0)
  {
    hide Fires, Rolled;
  }

  lemma ThisFires(glob: (string, string) -> bool, q: Request, rules: seq<Rule>, rolls: nat -> real, k: nat, drawn: nat)
    requires k < |rules| && Fires(glob, q, rules, rolls, drawn, k)
    requires forall j :: 0 <= j < k ==> !Fires(glob, q, rules, rolls, drawn, j)
    ensures Least(glob, q, rules, rolls, drawn, Some(rules[k]))
  {
    hide Fires;
    assert FirstAt(glob, q, rules, rolls, drawn, k);
  }

  /** The scan stops at a rule that fires and passes one that does not. */
  lemma OneFires(glob: (string, string) -> bool, q: Request, rules: seq<Rule>, rolls: nat -> real, from: nat, drawn: nat)
    requires from < |rules|
    ensures var (fired, drawn') := FirstFrom(glob, q, rules, rolls, from, drawn + Rolled(glob, q, rules, from));
      if Fires(glob, q, rules, rolls, drawn, from) then fired == Some(rules[from])
      else (fired, drawn') == FirstFrom(glob, q, rules, rolls, from + 1, drawn + Rolled(glob, q, rules, from + 1))
  {
    hide Eligible, Wins;
  }

  /** The decision for a request over the rules in force. */
  function Decide(glob: (string, string) -> bool, q: Request, rules: seq<Rule>, rolls: nat -> real, drawn: nat): (Decision, nat) {
    var (fired, drawn') := FirstFrom(glob, q, ByPriority(rules), rolls, 0, drawn);
    (Decision(fired, if fired.Some? then fired.value.delayMillis else 0), drawn')
  }

  /**
    The rule that fires is the least, by priority and identifier, of those that match, are
    not spent and win their roll; none fires exactly when there is no such rule; and the order
    the store returned them in makes no difference.
   */
  lemma LeastWinnerFires(glob: (string, string) -> bool, q: Request, rules: seq<Rule>, other: seq<Rule>,
                         rolls: nat -> real, drawn: nat)
    requires multiset(rules) == multiset(other) && Identified(multiset(rules))
    ensures Decide(glob, q, rules, rolls, drawn) == Decide(glob, q, other, rolls, drawn)
    ensures var sorted := ByPriority(rules);
      && Ordered(sorted) && multiset(sorted) == multiset(rules)
      && Least(glob, q, sorted, rolls, drawn, Decide(glob, q, rules, rolls, drawn).0.rule)
  {
    hide FirstFrom, ByPriority, Least, Ordered;
    SortedOrdered(rules);
    AnyOrder(rules, other);
    FirstFires(glob, q, ByPriority(rules), rolls, 0, drawn);
  }

  // ---------- the table of rules ----------

  /** The enabled rules of no profile that apply to a stand. */
  function Active(rows: seq<Rule>, sandboxID: int): seq<Rule> {
    if rows == [] then []
    else
      var n := |rows| - 1;
      Active(rows[..n], sandboxID) +
      if rows[n].enabled && !rows[n].profiled && (rows[n].sandboxID.None? || rows[n].sandboxID.value == sandboxID)
      then [rows[n]] else []
  }

  /** One use less, none below zero, and disabled with the last. */
  function Spent(r: Rule): Rule {
    r.(hitCount := r.hitCount + 1,
       timesLeft := if r.timesLeft.None? then None else Some(if r.timesLeft.value > 1 then r.timesLeft.value - 1 else 0),
       enabled := if r.timesLeft.Some? && r.timesLeft.value <= 1 then false else r.enabled)
  }

  function Consumed(rows: seq<Rule>, id: int): seq<Rule> {
    seq(|rows|, k requires 0 <= k < |rows| => if rows[k].id == id then Spent(rows[k]) else rows[k])
  }

  class RuleStore {
    var rows: seq<Rule>

    /** The rules in force; nothing is promised about their order. */
    method InForce(sandboxID: int) returns (rules: seq<Rule>)
      ensures multiset(rules) == multiset(Active(rows, sandboxID))
    {
      rules := Active(rows, sandboxID);
    }

    method Consume(id: int) returns (found: bool)
      modifies this
      ensures rows == Consumed(old(rows), id)
      ensures found <==> exists k :: 0 <= k < |old(rows)| && old(rows)[k].id == id
    {
      found := false;
      var was := rows;
      for i := 0 to |was|
        invariant |rows| == |was| == |old(rows)| && was == old(rows)
        invariant forall k :: 0 <= k < i ==> rows[k] == if was[k].id == id then Spent(was[k]) else was[k]
        invariant forall k :: i <= k < |was| ==> rows[k] == was[k]
        invariant found <==> exists k :: 0 <= k < i && was[k].id == id
      {
        if was[i].id == id {
          rows := rows[i := Spent(was[i])];
          found := true;
        }
      }
    }
  }

  class Engine {
    const store: RuleStore
    const glob: (string, string) -> bool
    const rolls: nat -> real
    var drawn: nat

    constructor (store: RuleStore, glob: (string, string) -> bool, rolls: nat -> real)
      ensures this.store == store && this.glob == glob && this.rolls == rolls && drawn == 0
    {
      this.store, this.glob, this.rolls, drawn := store, glob, rolls, 0;
    }

    /** Sorts the rules in force and lets the first that fires decide; a limited one is one use down. */
    method Evaluate(q: Request) returns (decision: Decision)
      requires DistinctIDs(store.rows)
      modifies store, this`drawn
      ensures (decision, drawn) == Decide(glob, q, Active(old(store.rows), q.sandboxID), rolls, old(drawn))
      ensures store.rows == AfterDecision(old(store.rows), decision)
    {
      var rules := store.InForce(q.sandboxID);
      ActiveKnown(store.rows, q.sandboxID);
      AnyOrder(rules, Active(store.rows, q.sandboxID));
      var rule := FirstToFire(q, ByPriority(rules));
      if rule.None? {
        return Decision(None, 0);
      }
      if rule.value.timesLeft.Some? {
        var _ := store.Consume(rule.value.id);
      }
      return Decision(rule, rule.value.delayMillis);
    }

    /** Tries the rules in order; one that is spent or loses its roll lets a later one take over. */
    method FirstToFire(q: Request, rules: seq<Rule>) returns (fired: Option<Rule>)
      modifies this`drawn
      ensures (fired, drawn) == FirstFrom(glob, q, rules, rolls, 0, old(drawn))
    {
      for i := 0 to |rules|
        invariant FirstFrom(glob, q, rules, rolls, i, drawn) == FirstFrom(glob, q, rules, rolls, 0, old(drawn))
      {
        var rule := rules[i];
        if !rule.Matches(glob, q) || rule.Exhausted() {
          continue;
        }
        if rule.probability < 1.0 {
          var roll := rolls(drawn);
          drawn := drawn + 1;
          if roll >= rule.probability {
            continue;
          }
        }
        return Some(rule);
      }
      return None;
    }
  }

  /** What a decision leaves of the table: a limited rule that fired is one use down. */
  function AfterDecision(rows: seq<Rule>, decision: Decision): seq<Rule> {
    if decision.rule.Some? && decision.rule.value.timesLeft.Some? then Consumed(rows, decision.rule.value.id) else rows
  }

  /** A rule in force is a row of the table, enabled. */
  lemma {:induction false} ActiveKnown(rows: seq<Rule>, sandboxID: int)
    requires DistinctIDs(rows)
    ensures Identified(multiset(Active(rows, sandboxID)))
    ensures forall r :: r in Active(rows, sandboxID) ==> r in rows && r.enabled
  {
    ActiveRows(rows, sandboxID);
    forall r, s | r in multiset(Active(rows, sandboxID)) && s in multiset(Active(rows, sandboxID)) && r.id == s.id
      ensures r == s
    {
      assert r in Active(rows, sandboxID) && s in Active(rows, sandboxID);
      var i, j :| 0 <= i < |rows| && rows[i] == r && 0 <= j < |rows| && rows[j] == s;
    }
  }

  lemma {:induction false} ActiveRows(rows: seq<Rule>, sandboxID: int)
    ensures forall r :: r in Active(rows, sandboxID) ==> r in rows && r.enabled
  {
    if rows != [] {
      ActiveRows(rows[..|rows| - 1], sandboxID);
    }
  }

  // ---------- limited rules over whole runs ----------

  datatype World = World(rows: seq<Rule>, drawn: nat, fired: seq<int>)

  /** One request evaluated; fired is an auxiliary list of the rules that did. */
  function Step(glob: (string, string) -> bool, rolls: nat -> real, w: World, q: Request): World {
    var (decision, drawn) := Decide(glob, q, Active(w.rows, q.sandboxID), rolls, w.drawn);
    World(AfterDecision(w.rows, decision), drawn,
          if decision.rule.Some? then w.fired + [decision.rule.value.id] else w.fired)
  }

  function Run(glob: (string, string) -> bool, rolls: nat -> real, w: World, qs: seq<Request>): World {
    if qs == [] then w else Step(glob, rolls, Run(glob, rolls, w, qs[..|qs| - 1]), qs[|qs| - 1])
  }

  /** What fires was in force: a row of the table, enabled, and not spent. */
  lemma FiredWasInForce(glob: (string, string) -> bool, rolls: nat -> real, w: World, q: Request)
    requires DistinctIDs(w.rows)
    ensures var fired := Decide(glob, q, Active(w.rows, q.sandboxID), rolls, w.drawn).0.rule;
      fired.Some? ==> fired.value in w.rows && fired.value.enabled && !fired.value.Exhausted()
  {
    var rules := Active(w.rows, q.sandboxID);
    ActiveKnown(w.rows, q.sandboxID);
    LeastWinnerFires(glob, q, rules, rules, rolls, w.drawn);
    var sorted := ByPriority(rules);
    var fired := Decide(glob, q, rules, rolls, w.drawn).0.rule;
    if fired.Some? {
      var k: nat :| FirstAt(glob, q, sorted, rolls, w.drawn, k) && sorted[k] == fired.value;
      assert fired.value in multiset(sorted);
    }
  }

  /** The bookkeeping of the limited rule at k that started with n uses. */
  predicate Counted(w: World, k: nat, id: int, n: int) {
    && DistinctIDs(w.rows) && k < |w.rows| && w.rows[k].id == id && w.rows[k].timesLeft.Some?
    && 0 <= w.rows[k].timesLeft.value
    && multiset(w.fired)[id] + w.rows[k].timesLeft.value == n
    && (w.rows[k].timesLeft.value == 0 && 0 < multiset(w.fired)[id] ==> !w.rows[k].enabled)
  }

  lemma StepCounted(glob: (string, string) -> bool, rolls: nat -> real, w: World, q: Request, k: nat, id: int, n: int)
    requires Counted(w, k, id, n)
    ensures Counted(Step(glob, rolls, w, q), k, id, n)
  {
    FiredWasInForce(glob, rolls, w, q);
    var fired := Decide(glob, q, Active(w.rows, q.sandboxID), rolls, w.drawn).0.rule;
    if fired.Some? {
      var i :| 0 <= i < |w.rows| && w.rows[i] == fired.value;
      assert fired.value.id == id ==> i == k;
    }
  }

  /**
    Over every run of requests, whatever is rolled, a limited rule fires at most as often as
    it had uses: its fires and its remaining uses always add up to them, and once the last is
    gone it is disabled.
   */
  lemma {:induction false} LimitedUses(glob: (string, string) -> bool, rolls: nat -> real, rows: seq<Rule>, drawn: nat,
                                       qs: seq<Request>, k: nat)
    requires DistinctIDs(rows) && k < |rows| && rows[k].timesLeft.Some? && 0 <= rows[k].timesLeft.value
    ensures var w := Run(glob, rolls, World(rows, drawn, []), qs); var id, n := rows[k].id, rows[k].timesLeft.value;
      && Counted(w, k, id, n)
      && multiset(w.fired)[id] <= n
      && (multiset(w.fired)[id] == n && 0 < n ==> !w.rows[k].enabled)
  {
    if qs != [] {
      LimitedUses(glob, rolls, rows, drawn, qs[..|qs| - 1], k);
      StepCounted(glob, rolls, Run(glob, rolls, World(rows, drawn, []), qs[..|qs| - 1]), qs[|qs| - 1], k,
                  rows[k].id, rows[k].timesLeft.value);
    }
  }

  // ---------- which row of the table fires ----------

  lemma CountLast(rules: seq<Rule>, last: Rule, r: Rule)
    ensures multiset(rules + [last])[r] == multiset(rules)[r] + if last == r then 1 else 0
  {
  }

  /** Enabled, of no profile, and the stand's or everyone's. */
  predicate InForceFor(r: Rule, sandboxID: int) {
    r.enabled && !r.profiled && (r.sandboxID == None || r.sandboxID == Some(sandboxID))
  }

  lemma LastInForce(rows: seq<Rule>, sandboxID: int)
    requires rows != []
    ensures var init, last := rows[..|rows| - 1], rows[|rows| - 1];
      Active(rows, sandboxID) ==
        if InForceFor(last, sandboxID) then Active(init, sandboxID) + [last] else Active(init, sandboxID)
  {
  }

  /** The rows in force for a stand, each as often as stored. */
  lemma {:induction false} InForceExactly(rows: seq<Rule>, sandboxID: int, r: Rule)
    ensures multiset(Active(rows, sandboxID))[r] == if InForceFor(r, sandboxID) then multiset(rows)[r] else 0
  {
    if rows == [] {
    } else {
      var init, last := rows[..|rows| - 1], rows[|rows| - 1];
      InForceExactly(init, sandboxID, r);
      LastInForce(rows, sandboxID);
      hide Active, InForceFor;
      CountLast(init, last, r);
      CountLast(Active(init, sandboxID), last, r);
      assert rows == init + [last];
    }
  }

  /** The pattern is empty, the star, or matches. */
  predicate Fits(glob: (string, string) -> bool, pattern: string, value: string) {
    pattern == "" || pattern == "*" || glob(pattern, value)
  }

  /** Every condition the row sets is met: the service, the method, the transaction, the amount and the account. */
  predicate Met(glob: (string, string) -> bool, q: Request, r: Rule) {
    && (r.service == "*" || r.service == q.service)
    && Fits(glob, r.rpc, q.rpc) && Fits(glob, r.matchPaymeID, q.paymeID)
    && (r.amountMin == None || r.amountMin.value <= q.amount)
    && (r.amountMax == None || q.amount <= r.amountMax.value)
    && (forall f :: f in r.matchAccount ==> f in q.account && Fits(glob, r.matchAccount[f], q.account[f]))
  }

  /** The row is in force for the request's stand, has a use left, and every condition it sets is met. */
  predicate MayFire(glob: (string, string) -> bool, q: Request, r: Rule) {
    && InForceFor(r, q.sandboxID)
    && (r.timesLeft == None || 0 < r.timesLeft.value)
    && Met(glob, q, r)
  }

  lemma MatchesMet(glob: (string, string) -> bool, q: Request, r: Rule)
    ensures r.Matches(glob, q) <==> r.enabled && (r.sandboxID == None || r.sandboxID == Some(q.sandboxID)) && Met(glob, q, r)
  {
  }

  lemma EligibleMayFire(glob: (string, string) -> bool, q: Request, rows: seq<Rule>, r: Rule)
    ensures r in Active(rows, q.sandboxID) && Eligible(glob, q, r) <==> r in rows && MayFire(glob, q, r)
  {
    hide Active, Met, Rule.Matches;
    MatchesMet(glob, q, r);
    InForceExactly(rows, q.sandboxID, r);
    assert r in Active(rows, q.sandboxID) <==> 0 < multiset(Active(rows, q.sandboxID))[r];
    assert r in rows <==> 0 < multiset(rows)[r];
  }

  /** Of two rules the earlier one: the lower priority figure, and of equal ones the lower identifier. */
  predicate Earlier(r: Rule, s: Rule) { r.priority < s.priority || (r.priority == s.priority && r.id < s.id) }

  /**
    What a decision is, on the rows of the table: the rule that fires may fire, won a roll if
    it is not certain, and brings its own delay, and no certain rule that may fire is earlier;
    and nothing fires, with no delay, only if no certain rule may.
   */
  lemma DecidesOnRows(glob: (string, string) -> bool, rolls: nat -> real, rows: seq<Rule>, drawn: nat, q: Request,
                      other: Rule)
    requires DistinctIDs(rows)
    ensures var decision := Decide(glob, q, Active(rows, q.sandboxID), rolls, drawn).0;
      var certain := other in rows && MayFire(glob, q, other) && other.probability >= 1.0;
      match decision.rule
      case None => decision.delayMillis == 0 && !certain
      case Some(r) =>
        && r in rows && MayFire(glob, q, r) && decision.delayMillis == r.delayMillis
        && (r.probability >= 1.0 || exists k: nat :: drawn <= k && rolls(k) < r.probability)
        && (certain ==> !Earlier(other, r))
  {
    hide Active, ByPriority, MayFire, Eligible, FirstFrom, Fires, Ordered, DistinctIDs, Identified, Before;
    var rules := Active(rows, q.sandboxID);
    ActiveKnown(rows, q.sandboxID);
    LeastWinnerFires(glob, q, rules, rules, rolls, drawn);
    LeastOnRows(glob, rolls, rows, ByPriority(rules), drawn, q, Decide(glob, q, rules, rolls, drawn).0.rule, other);
  }

  lemma LeastOnRows(glob: (string, string) -> bool, rolls: nat -> real, rows: seq<Rule>, sorted: seq<Rule>, drawn: nat,
                    q: Request, fired: Option<Rule>, other: Rule)
    requires Ordered(sorted) && multiset(sorted) == multiset(Active(rows, q.sandboxID))
    requires Least(glob, q, sorted, rolls, drawn, fired)
    ensures fired.Some? ==>
      && fired.value in rows && MayFire(glob, q, fired.value)
      && (fired.value.probability >= 1.0 || exists k: nat :: drawn <= k && rolls(k) < fired.value.probability)
    ensures other in rows && MayFire(glob, q, other) && other.probability >= 1.0 ==>
      fired.Some? && !Earlier(other, fired.value)
  {
    hide Active, MayFire, Eligible, Fires, Ordered;
    if fired.Some? {
      var k: nat :| k < |sorted| && FirstAt(glob, q, sorted, rolls, drawn, k) && sorted[k] == fired.value;
      FiredRow(glob, q, rows, sorted, rolls, drawn, k);
    }
    if other in rows && MayFire(glob, q, other) && other.probability >= 1.0 {
      EligibleMayFire(glob, q, rows, other);
      SameMembers(rows, sorted, q.sandboxID, other);
      var j :| 0 <= j < |sorted| && sorted[j] == other;
      CertainFires(glob, q, sorted, rolls, drawn, j);
      if fired.Some? {
        var k: nat :| k < |sorted| && FirstAt(glob, q, sorted, rolls, drawn, k) && sorted[k] == fired.value;
        NotEarlier(sorted, k, j);
      }
    }
  }

  lemma NotEarlier(sorted: seq<Rule>, k: nat, j: nat)
    requires Ordered(sorted) && k <= j < |sorted|
    ensures !Earlier(sorted[j], sorted[k])
  {
    assert k < j ==> Before(sorted[k], sorted[j]);
  }

  lemma SameMembers(rows: seq<Rule>, sorted: seq<Rule>, sandboxID: int, r: Rule)
    requires multiset(sorted) == multiset(Active(rows, sandboxID))
    ensures r in sorted <==> r in Active(rows, sandboxID)
  {
    assert r in sorted <==> r in multiset(sorted);
    assert r in Active(rows, sandboxID) <==> r in multiset(Active(rows, sandboxID));
    hide Active;
  }

  lemma FiredRow(glob: (string, string) -> bool, q: Request, rows: seq<Rule>, sorted: seq<Rule>, rolls: nat -> real,
                 drawn: nat, k: nat)
    requires k < |sorted| && Fires(glob, q, sorted, rolls, drawn, k)
    requires multiset(sorted) == multiset(Active(rows, q.sandboxID))
    ensures sorted[k] in rows && MayFire(glob, q, sorted[k])
    ensures sorted[k].probability >= 1.0 || exists m: nat :: drawn <= m && rolls(m) < sorted[k].probability
  {
    hide Active, MayFire, Eligible, Rolled;
    SameMembers(rows, sorted, q.sandboxID, sorted[k]);
    EligibleMayFire(glob, q, rows, sorted[k]);
    var m := drawn + Rolled(glob, q, sorted, k);
    assert drawn <= m && (sorted[k].probability >= 1.0 || rolls(m) < sorted[k].probability);
  }

  lemma CertainFires(glob: (string, string) -> bool, q: Request, sorted: seq<Rule>, rolls: nat -> real, drawn: nat, j: nat)
    requires j < |sorted| && Eligible(glob, q, sorted[j]) && sorted[j].probability >= 1.0
    ensures Fires(glob, q, sorted, rolls, drawn, j)
  {
  }

  /** What spending a use does to a row: one hit more, one use less but never below none, and off with the last. */
  lemma ConsumesExactly(rows: seq<Rule>, id: int, k: nat)
    requires k < |rows|
    ensures var was, r := rows[k], Consumed(rows, id)[k];
      && |Consumed(rows, id)| == |rows|
      && (was.id != id ==> r == was)
      && (was.id == id && was.timesLeft == None ==> r == was.(hitCount := was.hitCount + 1))
      && (was.id == id && was.timesLeft.Some? && 1 < was.timesLeft.value ==>
           r == was.(hitCount := was.hitCount + 1, timesLeft := Some(was.timesLeft.value - 1)))
      && (was.id == id && was.timesLeft.Some? && was.timesLeft.value <= 1 ==>
           r == was.(hitCount := was.hitCount + 1, timesLeft := Some(0), enabled := false))
  {
  }
}
