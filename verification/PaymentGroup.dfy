/** Groups of payments prepared against account snapshots, and the balances executing them leaves. */
module PaymentGroup {
  import opened Basics

  datatype Payment = Payment(sender: string, receiver: string, amount: nat, fee: nat)

  /** What a check carries: nothing, or a record that may lack the `available` entry. */
  datatype Data = NoData | Data(available: Option<int>)

  datatype Check = Check(name: string, data: Data)

  datatype Item = Item(txn: Option<Payment>, checks: seq<Check>)

  datatype Error =
    | Empty
    | MissingTransaction
    | Insufficient(who: string)
    | Unprepared(index: nat)

  // ---- What the validator decides ----

  predicate AllPresent(items: seq<Item>) {
    forall i :: 0 <= i < |items| ==> items[i].txn.Some?
  }

  function Payments(items: seq<Item>): (r: seq<Payment>)
    requires AllPresent(items)
    ensures |r| == |items| && forall i :: 0 <= i < |items| ==> r[i] == items[i].txn.value
  {
    seq(|items|, i requires 0 <= i < |items| => items[i].txn.value)
  }

  function Cost(p: Payment, who: string): (r: nat) {
    if p.sender == who then p.amount + p.fee else 0
  }

  function Sum(payments: seq<Payment>, f: Payment -> nat): (r: nat) {
    if payments == [] then 0 else Sum(payments[..|payments| - 1], f) + f(payments[|payments| - 1])
  }

  function CostTo(who: string): (f: Payment -> nat) {
    (p: Payment) => Cost(p, who)
  }

  /** Everything the sender's payments name, fees included. */
  function Required(payments: seq<Payment>, who: string): (r: nat) {
    Sum(payments, CostTo(who))
  }

  /** The figure of the last balance check among `checks`, or `before` if there is none. */
  function LastFigure(checks: seq<Check>, before: int): (r: int) {
    if checks == [] then before
    else
      var c := checks[|checks| - 1];
      if c.name == "payment_balance" && c.data.Data? then
        if c.data.available.Some? then c.data.available.value else 0
      else LastFigure(checks[..|checks| - 1], before)
  }

  /** The last balance figure any of the sender's items carries; zero without one. */
  function Available(items: seq<Item>, who: string): (r: int)
    requires AllPresent(items)
  {
    if items == [] then 0
    else
      var before := Available(items[..|items| - 1], who);
      var item := items[|items| - 1];
      if item.txn.value.sender == who then LastFigure(item.checks, before) else before
  }

  ghost function Senders(payments: seq<Payment>): (r: set<string>) {
    set p | p in payments :: p.sender
  }

  ghost predicate IsSender(payments: seq<Payment>, who: string) {
    who in Senders(payments)
  }

  ghost predicate Affordable(items: seq<Item>)
    requires AllPresent(items)
  {
    forall who :: IsSender(Payments(items), who) ==>
      Required(Payments(items), who) <= Available(items, who)
  }

  /** A balance check that carries a record. */
  predicate Figures(c: Check) {
    c.name == "payment_balance" && c.data.Data?
  }

  ghost predicate CarriesFigure(items: seq<Item>, who: string, i: int, j: int)
    requires AllPresent(items)
  {
    0 <= i < |items| && items[i].txn.value.sender == who && 0 <= j < |items[i].checks| && Figures(items[i].checks[j])
  }

  /** No later check of the sender carries a figure. */
  ghost predicate LastCarried(items: seq<Item>, who: string, i: int, j: int)
    requires AllPresent(items)
  {
    && CarriesFigure(items, who, i, j)
    && forall m, n :: CarriesFigure(items, who, m, n) ==> m < i || (m == i && n <= j)
  }

  ghost predicate LastInChecks(checks: seq<Check>, j: int) {
    0 <= j < |checks| && Figures(checks[j]) && forall n :: j < n < |checks| ==> !Figures(checks[n])
  }

  lemma {:induction false} LastFigureIs(checks: seq<Check>, before: int)
    ensures (forall j :: 0 <= j < |checks| ==> !Figures(checks[j])) ==> LastFigure(checks, before) == before
    ensures forall j :: LastInChecks(checks, j) ==>
              LastFigure(checks, before) ==
              (if checks[j].data.available.Some? then checks[j].data.available.value else 0)
    ensures (exists j :: LastInChecks(checks, j)) || forall j :: 0 <= j < |checks| ==> !Figures(checks[j])
  {
    if checks != [] {
      var front, n := checks[..|checks| - 1], |checks| - 1;
      LastFigureIs(front, before);
      if Figures(checks[n]) {
        assert LastInChecks(checks, n);
      } else {
        forall j ensures LastInChecks(checks, j) <==> LastInChecks(front, j) {
          assert forall m :: 0 <= m < n ==> front[m] == checks[m];
        }
      }
    }
  }

  /** The figure that counts is the one of the sender's last check that carries any; without one it is zero. */
  lemma {:induction false} AvailableIs(items: seq<Item>, who: string)
    requires AllPresent(items)
    ensures (forall i, j :: !CarriesFigure(items, who, i, j)) ==> Available(items, who) == 0
    ensures forall i, j :: LastCarried(items, who, i, j) ==>
              var data := items[i].checks[j].data;
              Available(items, who) == if data.available.Some? then data.available.value else 0
  {
    if items != [] {
      var front, n := items[..|items| - 1], |items| - 1;
      AvailableIs(front, who);
      LastFigureIs(items[n].checks, Available(front, who));
      forall i, j ensures i < n ==> (CarriesFigure(items, who, i, j) <==> CarriesFigure(front, who, i, j)) {
      }
      forall i, j | LastCarried(items, who, i, j)
        ensures if i == n then LastInChecks(items[n].checks, j)
                else LastCarried(front, who, i, j) && (items[n].txn.value.sender == who ==>
                  forall m :: 0 <= m < |items[n].checks| ==> !Figures(items[n].checks[m]))
      {
        if i == n {
          forall m | j < m < |items[n].checks| ensures !Figures(items[n].checks[m]) {
            assert CarriesFigure(items, who, n, m) ==> m <= j;
          }
        } else {
          forall m | 0 <= m < |items[n].checks| ensures items[n].txn.value.sender == who ==> !Figures(items[n].checks[m]) {
            assert !CarriesFigure(items, who, n, m);
          }
          forall m, k | CarriesFigure(front, who, m, k) ensures m < i || (m == i && k <= j) {
            assert CarriesFigure(items, who, m, k);
          }
        }
      }
      if forall i, j :: !CarriesFigure(items, who, i, j) {
        forall m | 0 <= m < |items[n].checks| ensures items[n].txn.value.sender == who ==> !Figures(items[n].checks[m]) {
          assert !CarriesFigure(items, who, n, m);
        }
        forall i, j ensures !CarriesFigure(front, who, i, j) {
          assert !CarriesFigure(items, who, i, j);
        }
      }
    }
  }

  // ---- The validator ----

  datatype Total = Total(available: int, required: nat)

  ghost predicate Tallied(items: seq<Item>, order: seq<string>, totals: map<string, Total>)
    requires AllPresent(items)
  {
    && Distinct(order)
    && (forall who :: who in order <==> IsSender(Payments(items), who))
    && (forall who :: who in order <==> who in totals)
    && (forall who :: who in totals ==>
          totals[who] == Total(Available(items, who), Required(Payments(items), who)))
  }

  method ReadFigure(checks: seq<Check>, before: int) returns (available: int)
    ensures available == LastFigure(checks, before)
  {
    available := before;
    for i := 0 to |checks|
      invariant available == LastFigure(checks[..i], before)
    {
      assert checks[..i + 1][..i] == checks[..i];
      var c := checks[i];
      if c.name == "payment_balance" && c.data.Data? {
        available := if c.data.available.Some? then c.data.available.value else 0;
      }
    }
    assert checks[..|checks|] == checks;
  }

  lemma {:induction false} NotSender(items: seq<Item>, who: string)
    requires AllPresent(items) && !IsSender(Payments(items), who)
    ensures Available(items, who) == 0 && Required(Payments(items), who) == 0
  {
    if items != [] {
      var front := items[..|items| - 1];
      var ps := Payments(items);
      assert ps[..|ps| - 1] == Payments(front);
      assert ps[|ps| - 1] in ps;
      forall p | p in Payments(front) ensures p in ps {
      }
      NotSender(front, who);
    }
  }

  lemma AppendItem(items: seq<Item>, item: Item, who: string)
    requires AllPresent(items) && item.txn.Some?
    ensures var all := items + [item];
            var p := item.txn.value;
            && AllPresent(all)
            && Payments(all) == Payments(items) + [p]
            && Available(all, who) == (if p.sender == who
                                       then LastFigure(item.checks, Available(items, who))
                                       else Available(items, who))
            && Required(Payments(all), who) == Required(Payments(items), who) + Cost(p, who)
            && (IsSender(Payments(all), who) <==> IsSender(Payments(items), who) || who == p.sender)
  {
    var all := items + [item];
    assert all[..|all| - 1] == items;
    var ps := Payments(all);
    assert ps == Payments(items) + [item.txn.value];
    assert ps[..|ps| - 1] == Payments(items);
    assert Senders(ps) == Senders(Payments(items)) + {item.txn.value.sender};
  }

  method AddItem(ghost items: seq<Item>, item: Item, order: seq<string>, totals: map<string, Total>)
    returns (order': seq<string>, totals': map<string, Total>)
    requires AllPresent(items) && item.txn.Some? && Tallied(items, order, totals)
    ensures AllPresent(items + [item]) && Tallied(items + [item], order', totals')
  {
    var p := item.txn.value;
    var known := p.sender in totals;
    var total := if known then totals[p.sender] else Total(0, 0);
    var available := ReadFigure(item.checks, total.available);
    order' := if known then order else order + [p.sender];
    totals' := totals[p.sender := Total(available, total.required + p.amount + p.fee)];
    if !known {
      NotSender(items, p.sender);
    }
    TallyOne(items, item, order, totals, order', totals');
  }

  ghost predicate Adds(items: seq<Item>, item: Item, order: seq<string>, totals: map<string, Total>,
                       order': seq<string>, totals': map<string, Total>)
    requires AllPresent(items) && item.txn.Some?
  {
    var p := item.txn.value;
    && order' == (if p.sender in totals then order else order + [p.sender])
    && totals' == totals[p.sender :=
          Total(LastFigure(item.checks, Available(items, p.sender)),
                Required(Payments(items), p.sender) + p.amount + p.fee)]
  }

  lemma SenderFor(items: seq<Item>, item: Item, order: seq<string>, totals: map<string, Total>,
                  order': seq<string>, totals': map<string, Total>, who: string)
    requires AllPresent(items) && item.txn.Some? && Tallied(items, order, totals)
    requires Adds(items, item, order, totals, order', totals')
    ensures AllPresent(items + [item])
    ensures who in order' <==> IsSender(Payments(items + [item]), who)
    ensures who in order' <==> who in totals'
  {
    AppendItem(items, item, who);
  }

  lemma TotalFor(items: seq<Item>, item: Item, totals: map<string, Total>, totals': map<string, Total>, who: string)
    requires AllPresent(items) && AllPresent(items + [item]) && item.txn.Some?
    requires who in totals ==> totals[who] == Total(Available(items, who), Required(Payments(items), who))
    requires var p := item.txn.value;
             totals' == totals[p.sender :=
                 Total(LastFigure(item.checks, Available(items, p.sender)),
                       Required(Payments(items), p.sender) + p.amount + p.fee)]
    ensures who in totals' ==>
              totals'[who] == Total(Available(items + [item], who), Required(Payments(items + [item]), who))
  {
    AppendItem(items, item, who);
  }

  lemma TallyOne(items: seq<Item>, item: Item, order: seq<string>, totals: map<string, Total>,
                 order': seq<string>, totals': map<string, Total>)
    requires AllPresent(items) && item.txn.Some? && Tallied(items, order, totals)
    requires Adds(items, item, order, totals, order', totals')
    ensures AllPresent(items + [item]) && Tallied(items + [item], order', totals')
  {
    var all := items + [item];
    forall who
      ensures who in order' <==> IsSender(Payments(all), who)
      ensures who in order' <==> who in totals'
      ensures who in totals' ==> totals'[who] == Total(Available(all, who), Required(Payments(all), who))
    {
      SenderFor(items, item, order, totals, order', totals', who);
      TotalFor(items, item, totals, totals', who);
    }
  }

  method FirstShort(order: seq<string>, totals: map<string, Total>) returns (r: Option<string>)
    requires forall who :: who in order ==> who in totals
    ensures r.None? <==> forall who :: who in order ==> totals[who].required <= totals[who].available
    ensures r.Some? ==> r.value in order && totals[r.value].available < totals[r.value].required
  {
    for i := 0 to |order|
      invariant forall j :: 0 <= j < i ==> totals[order[j]].required <= totals[order[j]].available
    {
      if totals[order[i]].available < totals[order[i]].required {
        return Some(order[i]);
      }
    }
    return None;
  }

  /** Accepts exactly the groups whose senders can each pay for all their payments together. */
  method ValidatePaymentGroup(items: seq<Item>) returns (r: Result<nat, Error>)
    ensures r.Success? <==> AllPresent(items) && Affordable(items)
    ensures r == Failure(MissingTransaction) <==> !AllPresent(items)
    ensures r.Failure? && AllPresent(items) ==>
              && r.error.Insufficient?
              && IsSender(Payments(items), r.error.who)
              && Available(items, r.error.who) < Required(Payments(items), r.error.who)
    ensures r.Success? ==> r.value == |Senders(Payments(items))|
  {
    var totals: map<string, Total> := map[];
    var order: seq<string> := [];
    for i := 0 to |items|
      invariant AllPresent(items[..i]) && Tallied(items[..i], order, totals)
    {
      if items[i].txn.None? {
        return Failure(MissingTransaction);
      }
      order, totals := AddItem(items[..i], items[i], order, totals);
      assert items[..i] + [items[i]] == items[..i + 1];
    }
    assert items[..|items|] == items;
    var short := FirstShort(order, totals);
    if short.Some? {
      return Failure(Insufficient(short.value));
    }
    DistinctCardinality(order);
    assert Elements(order) == Senders(Payments(items));
    return Success(|order|);
  }

  // ---- Executing a group ----

  type Ledger = string -> int

  function Execute(ledger: Ledger, payments: seq<Payment>, who: string): (balance: int) {
    if payments == [] then ledger(who)
    else
      var p := payments[|payments| - 1];
      Execute(ledger, payments[..|payments| - 1], who)
      - (if p.sender == who then p.amount + p.fee else 0)
      + (if p.receiver == who then p.amount else 0)
  }

  /** No sender ever falls below its minimum, after any number of the payments. */
  ghost predicate Solvent(ledger: Ledger, minimum: Ledger, payments: seq<Payment>) {
    forall k, who :: 0 <= k <= |payments| && IsSender(payments, who) ==>
      minimum(who) <= Execute(ledger, payments[..k], who)
  }

  /** What a payment takes from `who` for good: the fee, and the amount unless `who` pays itself. */
  function OutlayOf(who: string): (f: Payment -> nat) {
    (p: Payment) => if p.sender != who then 0 else p.fee + (if p.receiver == who then 0 else p.amount)
  }

  function Outlay(payments: seq<Payment>, who: string): (r: nat) {
    Sum(payments, OutlayOf(who))
  }

  /** What others pay to `who`. */
  function GainOf(who: string): (f: Payment -> nat) {
    (p: Payment) => if p.receiver == who && p.sender != who then p.amount else 0
  }

  /** What `who` pays to itself. */
  function SelfPaidOf(who: string): (f: Payment -> nat) {
    (p: Payment) => if p.receiver == who && p.sender == who then p.amount else 0
  }

  function SelfPaid(payments: seq<Payment>, who: string): (r: nat) {
    Sum(payments, SelfPaidOf(who))
  }

  /** Executing moves exactly the outlays out of and the gains into every account. */
  lemma {:induction false} ExecuteBalances(ledger: Ledger, payments: seq<Payment>, who: string)
    ensures Execute(ledger, payments, who) == ledger(who) - Outlay(payments, who) + Sum(payments, GainOf(who))
  {
    if payments != [] {
      ExecuteBalances(ledger, payments[..|payments| - 1], who);
    }
  }

  lemma {:induction false} RequiredSplits(payments: seq<Payment>, who: string)
    ensures Required(payments, who) == Outlay(payments, who) + SelfPaid(payments, who)
  {
    if payments != [] {
      RequiredSplits(payments[..|payments| - 1], who);
    }
  }

  lemma {:induction false} SumGrows(payments: seq<Payment>, k: nat, f: Payment -> nat)
    requires k <= |payments|
    ensures Sum(payments[..k], f) <= Sum(payments, f)
  {
    if k < |payments| {
      var front := payments[..|payments| - 1];
      assert front[..k] == payments[..k];
      SumGrows(front, k, f);
    } else {
      assert payments[..k] == payments;
    }
  }

  lemma {:induction false} SumConcat(a: seq<Payment>, b: seq<Payment>, f: Payment -> nat)
    ensures Sum(a + b, f) == Sum(a, f) + Sum(b, f)
  {
    if b == [] {
      assert a + b == a;
    } else {
      var all := a + b;
      assert all[..|all| - 1] == a + b[..|b| - 1];
      SumConcat(a, b[..|b| - 1], f);
    }
  }

  lemma SumAppend(a: seq<Payment>, p: Payment, f: Payment -> nat)
    ensures Sum(a + [p], f) == Sum(a, f) + f(p)
  {
    assert (a + [p])[..|a|] == a;
  }

  lemma SumPair(p: Payment, f: Payment -> nat)
    ensures Sum([p, p], f) == f(p) + f(p)
  {
    SumAppend([], p, f);
    SumAppend([p], p, f);
    assert [p] + [p] == [p, p] && [] + [p] == [p];
  }

  lemma {:induction false} SumZero(payments: seq<Payment>, f: Payment -> nat)
    requires forall p :: p in payments ==> f(p) == 0
    ensures Sum(payments, f) == 0
  {
    if payments != [] {
      SumZero(payments[..|payments| - 1], f);
    }
  }

  function Without(b: seq<Payment>, i: nat): (r: seq<Payment>)
    requires i < |b|
  {
    b[..i] + b[i + 1..]
  }

  lemma {:induction false} SumWithout(b: seq<Payment>, i: nat, f: Payment -> nat)
    requires i < |b|
    ensures Sum(b, f) == Sum(Without(b, i), f) + f(b[i])
  {
    var front, last := b[..|b| - 1], b[|b| - 1];
    if i == |front| {
      assert Without(b, i) == front;
    } else {
      SumWithout(front, i, f);
      assert Without(b, i) == Without(front, i) + [last];
      SumAppend(Without(front, i), last, f);
    }
  }

  lemma MultisetWithout(b: seq<Payment>, i: nat)
    requires i < |b|
    ensures multiset(Without(b, i)) == multiset(b) - multiset{b[i]}
  {
    assert b == b[..i] + [b[i]] + b[i + 1..];
  }

  /** Sums over a group do not depend on the order of its payments. */
  lemma {:induction false} SumPermutes(a: seq<Payment>, b: seq<Payment>, f: Payment -> nat)
    requires multiset(a) == multiset(b)
    ensures Sum(a, f) == Sum(b, f)
    decreases |a|
  {
    if a == [] {
      assert |b| == |multiset(b)| == 0;
    } else {
      var n := |a| - 1;
      assert a[n] in multiset(b);
      var i :| 0 <= i < |b| && b[i] == a[n];
      MultisetWithout(a, n);
      MultisetWithout(b, i);
      SumPermutes(Without(a, n), Without(b, i), f);
      SumWithout(a, n, f);
      SumWithout(b, i, f);
    }
  }

  lemma SendersPermute(a: seq<Payment>, b: seq<Payment>)
    requires multiset(a) == multiset(b)
    ensures Senders(a) == Senders(b)
  {
    forall p ensures p in a <==> p in b {
      assert p in a <==> p in multiset(a);
      assert p in b <==> p in multiset(b);
    }
  }

  // ---- Solvency in every order ----

  ghost predicate EveryOrderSolvent(ledger: Ledger, minimum: Ledger, payments: seq<Payment>) {
    forall order :: multiset(order) == multiset(payments) ==> Solvent(ledger, minimum, order)
  }

  /** Each sender's outlay fits what it has to spare. */
  ghost predicate OutlaysFit(ledger: Ledger, minimum: Ledger, payments: seq<Payment>) {
    forall who :: IsSender(payments, who) ==> Outlay(payments, who) <= ledger(who) - minimum(who)
  }

  function Mine(payments: seq<Payment>, who: string): (r: seq<Payment>) {
    if payments == [] then []
    else
      var p := payments[|payments| - 1];
      Mine(payments[..|payments| - 1], who) + (if p.sender == who then [p] else [])
  }

  function Theirs(payments: seq<Payment>, who: string): (r: seq<Payment>) {
    if payments == [] then []
    else
      var p := payments[|payments| - 1];
      Theirs(payments[..|payments| - 1], who) + (if p.sender == who then [] else [p])
  }

  lemma {:induction false} MineAndTheirs(payments: seq<Payment>, who: string)
    ensures forall p :: p in Mine(payments, who) ==> p.sender == who
    ensures forall p :: p in Theirs(payments, who) ==> p.sender != who
  {
    if payments != [] {
      MineAndTheirs(payments[..|payments| - 1], who);
    }
  }

  lemma {:induction false} MineFirst(payments: seq<Payment>, who: string)
    ensures multiset(Mine(payments, who) + Theirs(payments, who)) == multiset(payments)
  {
    if payments != [] {
      var front, last := payments[..|payments| - 1], payments[|payments| - 1];
      MineFirst(front, who);
      assert payments == front + [last];
      assert multiset(payments) == multiset(front) + multiset{last};
    }
  }

  /** The worst order for `who` pays all of its own payments first. */
  lemma WorstOrder(ledger: Ledger, payments: seq<Payment>, who: string)
    ensures Execute(ledger, Mine(payments, who), who) == ledger(who) - Outlay(payments, who)
  {
    var mine, theirs := Mine(payments, who), Theirs(payments, who);
    MineFirst(payments, who);
    MineAndTheirs(payments, who);
    ExecuteBalances(ledger, mine, who);
    SumZero(mine, GainOf(who));
    SumPermutes(mine + theirs, payments, OutlayOf(who));
    SumConcat(mine, theirs, OutlayOf(who));
    SumZero(theirs, OutlayOf(who));
  }

  lemma OrderSolvent(ledger: Ledger, minimum: Ledger, payments: seq<Payment>, order: seq<Payment>)
    requires OutlaysFit(ledger, minimum, payments) && multiset(order) == multiset(payments)
    ensures Solvent(ledger, minimum, order)
  {
    SendersPermute(payments, order);
    forall k, who | 0 <= k <= |order| && IsSender(order, who)
      ensures minimum(who) <= Execute(ledger, order[..k], who)
    {
      ExecuteBalances(ledger, order[..k], who);
      SumGrows(order, k, OutlayOf(who));
      SumPermutes(order, payments, OutlayOf(who));
    }
  }

  lemma OutlayFits(ledger: Ledger, minimum: Ledger, payments: seq<Payment>, who: string)
    requires EveryOrderSolvent(ledger, minimum, payments) && IsSender(payments, who)
    ensures Outlay(payments, who) <= ledger(who) - minimum(who)
  {
    var mine := Mine(payments, who);
    var order := mine + Theirs(payments, who);
    MineFirst(payments, who);
    SendersPermute(payments, order);
    assert order[..|mine|] == mine;
    assert Solvent(ledger, minimum, order);
    assert minimum(who) <= Execute(ledger, order[..|mine|], who);
    WorstOrder(ledger, payments, who);
  }

  /**
   * For any balances: every order of the payments keeps every sender at or above its minimum
   * after every prefix exactly when each sender's outlay fits its spare balance.
   */
  lemma SolventExactly(ledger: Ledger, minimum: Ledger, payments: seq<Payment>)
    ensures EveryOrderSolvent(ledger, minimum, payments) <==> OutlaysFit(ledger, minimum, payments)
  {
    if OutlaysFit(ledger, minimum, payments) {
      forall order | multiset(order) == multiset(payments) ensures Solvent(ledger, minimum, order) {
        OrderSolvent(ledger, minimum, payments, order);
      }
    }
    if EveryOrderSolvent(ledger, minimum, payments) {
      forall who | IsSender(payments, who) ensures Outlay(payments, who) <= ledger(who) - minimum(who) {
        OutlayFits(ledger, minimum, payments, who);
      }
    }
  }

  /** When no sender is paid by another account, one order tells as much as all of them. */
  lemma OneOrderExactly(ledger: Ledger, minimum: Ledger, payments: seq<Payment>)
    requires forall p :: p in payments && IsSender(payments, p.receiver) ==> p.receiver == p.sender
    ensures Solvent(ledger, minimum, payments) <==> OutlaysFit(ledger, minimum, payments)
  {
    if OutlaysFit(ledger, minimum, payments) {
      OrderSolvent(ledger, minimum, payments, payments);
    }
    if Solvent(ledger, minimum, payments) {
      forall who | IsSender(payments, who) ensures Outlay(payments, who) <= ledger(who) - minimum(who) {
        assert payments[..|payments|] == payments;
        assert minimum(who) <= Execute(ledger, payments[..|payments|], who);
        ExecuteBalances(ledger, payments, who);
        SumZero(payments, GainOf(who));
      }
    }
  }

  /**
   * Solvency: an accepted group, executed in any order from balances that cover the last figure
   * checked for each sender, keeps every sender at or above its minimum after every prefix.
   */
  lemma AcceptedIsSolvent(items: seq<Item>, ledger: Ledger, minimum: Ledger)
    requires AllPresent(items) && Affordable(items)
    requires forall who :: IsSender(Payments(items), who) ==>
               Available(items, who) <= ledger(who) - minimum(who)
    ensures EveryOrderSolvent(ledger, minimum, Payments(items))
  {
    var payments := Payments(items);
    forall who | IsSender(payments, who) ensures Outlay(payments, who) <= ledger(who) - minimum(who) {
      RequiredSplits(payments, who);
    }
    SolventExactly(ledger, minimum, payments);
  }

  // ---- Preparing a group ----

  datatype Snapshot = Snapshot(balance: int, minimum: int, signable: bool)

  /** What the node answers when the account of payment `i` is looked up, if it answers. */
  type Node = nat -> Option<Snapshot>

  function Spare(s: Snapshot): (r: int) {
    s.balance - s.minimum
  }

  predicate Preparable(p: Payment, seen: Option<Snapshot>) {
    && p.sender != "" && p.receiver != ""
    && seen.Some? && p.amount + p.fee <= Spare(seen.value) && seen.value.signable
  }

  function Prepare(p: Payment, seen: Snapshot): (r: Item) {
    Item(Some(p), [Check("payment_balance", Data(Some(Spare(seen))))])
  }

  /** A payment is prepared exactly for two named parties, from an account that can spare it and sign for it. */
  lemma PreparableIs(p: Payment, balance: int, minimum: int, signable: bool)
    ensures Preparable(p, Some(Snapshot(balance, minimum, signable))) <==>
              p.sender != "" && p.receiver != "" && signable && balance - p.amount - p.fee >= minimum
    ensures !Preparable(p, None)
  {
  }

  predicate AllPreparable(payments: seq<Payment>, node: Node) {
    forall i: nat :: i < |payments| ==> Preparable(payments[i], node(i))
  }

  function Prepared(payments: seq<Payment>, node: Node): (r: seq<Item>)
    requires AllPreparable(payments, node)
    ensures |r| == |payments|
    ensures AllPresent(r) && Payments(r) == payments
    ensures forall i: nat :: i < |r| ==> r[i] == Prepare(payments[i], node(i).value)
  {
    seq(|payments|, i requires 0 <= i < |payments| => Prepare(payments[i], node(i).value))
  }

  /** Every lookup of one sender saw the same account. */
  ghost predicate OneSnapshot(payments: seq<Payment>, node: Node, ledger: Ledger, minimum: Ledger) {
    forall i: nat :: i < |payments| && node(i).Some? ==>
      && node(i).value.balance == ledger(payments[i].sender)
      && node(i).value.minimum == minimum(payments[i].sender)
  }

  method PreparePaymentGroup(payments: seq<Payment>, node: Node) returns (r: Result<seq<Item>, Error>)
    ensures r.Success? <==>
              payments != [] && AllPreparable(payments, node) && Affordable(Prepared(payments, node))
    ensures r.Success? ==> r.value == Prepared(payments, node)
    ensures r == Failure(Empty) <==> payments == []
    ensures r.Failure? && r.error.Unprepared? ==>
              && r.error.index < |payments|
              && AllPreparable(payments[..r.error.index], node)
              && !Preparable(payments[r.error.index], node(r.error.index))
  {
    if payments == [] {
      return Failure(Empty);
    }
    var items: seq<Item> := [];
    for i := 0 to |payments|
      invariant |items| == i && AllPreparable(payments[..i], node)
      invariant forall j: nat :: j < i ==> items[j] == Prepare(payments[j], node(j).value)
    {
      var seen := node(i);
      if !Preparable(payments[i], seen) {
        return Failure(Unprepared(i));
      }
      assert forall j: nat :: j < i ==> payments[..i + 1][j] == payments[..i][j];
      items := items + [Prepare(payments[i], seen.value)];
    }
    assert payments[..|payments|] == payments;
    assert items == Prepared(payments, node);
    var checked := ValidatePaymentGroup(items);
    if checked.Failure? {
      return Failure(checked.error);
    }
    return Success(items);
  }

  lemma {:induction false} PreparedFigure(payments: seq<Payment>, node: Node, ledger: Ledger, minimum: Ledger, who: string)
    requires AllPreparable(payments, node) && OneSnapshot(payments, node, ledger, minimum)
    requires IsSender(payments, who)
    ensures Available(Prepared(payments, node), who) == ledger(who) - minimum(who)
  {
    var n := |payments| - 1;
    var items := Prepared(payments, node);
    var front := payments[..n];
    assert items[..n] == Prepared(front, node);
    if payments[n].sender == who {
      assert items[n] == Prepare(payments[n], node(n).value);
      assert LastFigure(items[n].checks, Available(items[..n], who)) == Spare(node(n).value);
    } else {
      var p :| p in payments && p.sender == who;
      assert p in front;
      PreparedFigure(front, node, ledger, minimum, who);
    }
  }

  /** With one snapshot per sender, a prepared group is solvent in every order. */
  lemma PreparedIsSolvent(payments: seq<Payment>, node: Node, ledger: Ledger, minimum: Ledger)
    requires AllPreparable(payments, node) && Affordable(Prepared(payments, node))
    requires OneSnapshot(payments, node, ledger, minimum)
    ensures EveryOrderSolvent(ledger, minimum, payments)
  {
    var items := Prepared(payments, node);
    forall who | IsSender(Payments(items), who)
      ensures Available(items, who) <= ledger(who) - minimum(who)
    {
      PreparedFigure(payments, node, ledger, minimum, who);
    }
    AcceptedIsSolvent(items, ledger, minimum);
  }

  // ---- How tight the check is ----

  /** With one snapshot per sender, the check asks for the outlay and, besides, what a sender pays itself. */
  lemma AcceptedExactly(payments: seq<Payment>, node: Node, ledger: Ledger, minimum: Ledger)
    requires AllPreparable(payments, node) && OneSnapshot(payments, node, ledger, minimum)
    ensures Affordable(Prepared(payments, node)) <==>
            forall who :: IsSender(payments, who) ==>
              Outlay(payments, who) + SelfPaid(payments, who) <= ledger(who) - minimum(who)
  {
    var items := Prepared(payments, node);
    forall who | IsSender(payments, who)
      ensures Required(payments, who) == Outlay(payments, who) + SelfPaid(payments, who)
      ensures Available(items, who) == ledger(who) - minimum(who)
    {
      RequiredSplits(payments, who);
      PreparedFigure(payments, node, ledger, minimum, who);
    }
  }

  /** So, unless a sender pays itself, the check rejects nothing that would be solvent in every order. */
  lemma ExactWithoutSelfPayment(payments: seq<Payment>, node: Node, ledger: Ledger, minimum: Ledger)
    requires AllPreparable(payments, node) && OneSnapshot(payments, node, ledger, minimum)
    requires forall p :: p in payments && p.sender == p.receiver ==> p.amount == 0
    ensures Affordable(Prepared(payments, node)) <==> EveryOrderSolvent(ledger, minimum, payments)
  {
    AcceptedExactly(payments, node, ledger, minimum);
    SolventExactly(ledger, minimum, payments);
    forall who ensures SelfPaid(payments, who) == 0 {
      SumZero(payments, SelfPaidOf(who));
    }
  }

  /** A sender that pays itself can be turned away although every order is solvent. */
  lemma SelfPaymentTurnedAway()
    ensures var p := Payment("A", "A", 6, 0);
            var node: Node := _ => Some(Snapshot(10, 0, true));
            && AllPreparable([p, p], node)
            && !Affordable(Prepared([p, p], node))
            && EveryOrderSolvent(_ => 10, _ => 0, [p, p])
  {
    var p := Payment("A", "A", 6, 0);
    var node: Node := _ => Some(Snapshot(10, 0, true));
    var ps := [p, p];
    SumPair(p, OutlayOf("A"));
    SumPair(p, SelfPaidOf("A"));
    assert Outlay(ps, "A") == 0 && SelfPaid(ps, "A") == 12;
    assert p in ps;
    assert IsSender(ps, "A");
    AcceptedExactly(ps, node, _ => 10, _ => 0);
    SolventExactly(_ => 10, _ => 0, ps);
  }

  /**
   * Only the last figure counts: if two lookups of one sender differ, a group can be accepted
   * that the account of the first lookup cannot pay.
   */
  lemma LastSnapshotWins()
    ensures var p := Payment("A", "B", 6, 0);
            var node: Node := i => Some(Snapshot(if i == 0 then 10 else 20, 0, true));
            && AllPreparable([p, p], node)
            && Affordable(Prepared([p, p], node))
            && !Solvent(_ => 10, _ => 0, [p, p])
  {
    var p := Payment("A", "B", 6, 0);
    var node: Node := i => Some(Snapshot(if i == 0 then 10 else 20, 0, true));
    var ps := [p, p];
    var items := Prepared(ps, node);
    SumPair(p, CostTo("A"));
    SumPair(p, OutlayOf("A"));
    assert Required(ps, "A") == 12 == Outlay(ps, "A");
    var checks := items[1].checks;
    assert items[1] == Prepare(p, node(1).value);
    assert LastFigure(checks, Available(items[..1], "A")) == 20;
    assert Available(items, "A") == 20;
    assert p in ps;
    assert IsSender(ps, "A");
    OneOrderExactly(_ => 10, _ => 0, ps);
  }
}
