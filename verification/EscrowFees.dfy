/** The published escrow fee: accrued by the day, capped, with a dollar minimum, and
    apportioned over the subscriptions of one currency. */
module EscrowFees {
  import opened Prelude
  import opened Money

  const RATE_PER_MONTH_BPS: nat := 25
  const DAYS_PER_MONTH: nat := 30
  const CAP_BPS: nat := 300
  const MINIMUM_USD: nat := 5000
  const DAY_SECONDS: nat := 86400

  /** A currency code, trimmed and in upper case. */
  datatype Ccy = Usdx | Usd | Other(code: nat)

  datatype Deposit = Deposit(id: nat, ccy: Ccy, atoms: nat, since: int)

  /** One subscription's funds while they are held. */
  datatype Held = Held(id: nat, atoms: nat, days: nat, accrued: nat)

  datatype Share = Share(fee: nat, owed: nat, days: nat)

  /** Smallest units to the dollar, where a dollar minimum applies at all. */
  function UnitsPerUsd(ccy: Ccy): Option<nat> {
    match ccy
    case Usdx => Some(100_000_000)
    case Usd => Some(100)
    case Other(_) => None
  }

  function Days(since: int, at: int): nat {
    if since > 0 && at > since then (at - since) / DAY_SECONDS else 0
  }

  function Accrual(atoms: nat, days: nat): nat {
    MulDiv(atoms, RATE_PER_MONTH_BPS * days, 10000 * DAYS_PER_MONTH)
  }

  function HeldOf(d: Deposit, at: int): (h: Held)
    ensures h.id == d.id && h.atoms == d.atoms
  {
    Held(d.id, d.atoms, Days(d.since, at), Accrual(d.atoms, Days(d.since, at)))
  }

  /** The funds held in one currency among the first k subscriptions. */
  function Group(ds: seq<Deposit>, at: int, ccy: Ccy, k: nat): (g: seq<Held>)
    requires k <= |ds|
  {
    if k == 0 then []
    else Group(ds, at, ccy, k - 1)
         + (if ds[k - 1].ccy == ccy && ds[k - 1].atoms > 0 then [HeldOf(ds[k - 1], at)] else [])
  }

  function Funds(g: seq<Held>): (r: seq<nat>)
    ensures |r| == |g| && forall i :: 0 <= i < |r| ==> r[i] == g[i].atoms
  {
    seq(|g|, i requires 0 <= i < |g| => g[i].atoms)
  }

  function Accrued(g: seq<Held>): (r: seq<nat>)
    ensures |r| == |g| && forall i :: 0 <= i < |r| ==> r[i] == g[i].accrued
  {
    seq(|g|, i requires 0 <= i < |g| => g[i].accrued)
  }

  /** The cap on a group's fee, and the minimum where there is one. */
  function Cap(funds: nat): nat {
    MulDiv(funds, CAP_BPS, 10000)
  }

  function Minimum(ccy: Ccy): nat {
    if UnitsPerUsd(ccy).Some? then MINIMUM_USD * UnitsPerUsd(ccy).value else 0
  }

  function Max(a: nat, b: nat): nat {
    if a < b then b else a
  }

  function Min(a: nat, b: nat): nat {
    if a > b then b else a
  }

  function Total(accrued: nat, funds: nat, ccy: Ccy): nat {
    Max(Min(accrued, Cap(funds)), Minimum(ccy))
  }

  /** What one subscription owes of its group's fee. */
  function Owed(h: Held, g: seq<Held>, ccy: Ccy): nat {
    var funds, accrued := Wrap64(Sum(Funds(g))), Wrap64(Sum(Accrued(g)));
    var total := Total(accrued, funds, ccy);
    if accrued > 0 then MulDiv(total, h.accrued, accrued) else MulDiv(total, h.atoms, funds)
  }

  function ShareOf(h: Held, g: seq<Held>, ccy: Ccy): Share {
    Share(Min(Owed(h, g, ccy), h.atoms), Owed(h, g, ccy), h.days)
  }

  // ---- the program ----

  predicate Distinct(ds: seq<Deposit>) {
    forall i, j :: 0 <= i < j < |ds| ==> ds[i].id != ds[j].id
  }

  predicate DistinctHeld(g: seq<Held>) {
    forall i, j :: 0 <= i < j < |g| ==> g[i].id != g[j].id
  }

  function GroupIn(groups: map<Ccy, seq<Held>>, ccy: Ccy): seq<Held> {
    if ccy in groups then groups[ccy] else []
  }

  lemma GroupStep(ds: seq<Deposit>, at: int, ccy: Ccy, k: nat)
    requires k < |ds|
    ensures Group(ds, at, ccy, 0) == []
    ensures Group(ds, at, ccy, k + 1)
            == Group(ds, at, ccy, k) + (if ds[k].ccy == ccy && ds[k].atoms > 0 then [HeldOf(ds[k], at)] else [])
  {
  }

  /** Sorts the deposits by currency. */
  method GroupAll(ds: seq<Deposit>, at: int) returns (groups: map<Ccy, seq<Held>>)
    ensures forall ccy :: GroupIn(groups, ccy) == Group(ds, at, ccy, |ds|)
    ensures forall i :: 0 <= i < |ds| && ds[i].atoms > 0 ==> ds[i].ccy in groups
  {
    groups := map[];
    for i := 0 to |ds|
      invariant forall ccy :: GroupIn(groups, ccy) == Group(ds, at, ccy, i)
      invariant forall j :: 0 <= j < i && ds[j].atoms > 0 ==> ds[j].ccy in groups
    {
      hide HeldOf, Group;
      forall ccy {
        GroupStep(ds, at, ccy, i);
      }
      if ds[i].atoms == 0 {
        continue;
      }
      var ccy := ds[i].ccy;
      groups := groups[ccy := GroupIn(groups, ccy) + [HeldOf(ds[i], at)]];
    }
  }

  /** Adds up one group. */
  method Totals(g: seq<Held>) returns (funds: nat, accrued: nat)
    ensures funds == Wrap64(Sum(Funds(g))) && accrued == Wrap64(Sum(Accrued(g)))
  {
    funds, accrued := 0, 0;
    for i := 0 to |g|
      invariant funds == Wrap64(SumTo(Funds(g), i)) && accrued == Wrap64(SumTo(Accrued(g), i))
    {
      WrapAdd(SumTo(Funds(g), i), g[i].atoms);
      WrapAdd(SumTo(Accrued(g), i), g[i].accrued);
      funds, accrued := Wrap64(funds + g[i].atoms), Wrap64(accrued + g[i].accrued);
    }
  }

  /** Prices one group into the plan; a group whose funds add up to zero is passed over. */
  method PriceGroup(g: seq<Held>, ccy: Ccy, plan: map<nat, Share>) returns (more: map<nat, Share>)
    ensures forall id :: id in more ==> id in plan || exists j :: 0 <= j < |g| && g[j].id == id
    ensures Wrap64(Sum(Funds(g))) == 0 ==> more == plan
    ensures forall id :: id in plan && (forall j :: 0 <= j < |g| ==> g[j].id != id) ==> id in more && more[id] == plan[id]
    ensures DistinctHeld(g) && Wrap64(Sum(Funds(g))) != 0 ==>
              forall j :: 0 <= j < |g| ==> g[j].id in more && more[g[j].id] == ShareOf(g[j], g, ccy)
  {
    more := plan;
    var funds, accrued := Totals(g);
    if funds == 0 {
      return;
    }
    var total := accrued;
    if total > Cap(funds) {
      total := Cap(funds);
    }
    if UnitsPerUsd(ccy).Some? {
      var min := MINIMUM_USD * UnitsPerUsd(ccy).value;
      if total < min {
        total := min;
      }
    }
    for i := 0 to |g|
      invariant forall id :: id in more ==> id in plan || exists j :: 0 <= j < i && g[j].id == id
      invariant forall id :: id in plan && (forall j :: 0 <= j < i ==> g[j].id != id) ==> id in more && more[id] == plan[id]
      invariant DistinctHeld(g) ==>
                  forall j :: 0 <= j < i ==> g[j].id in more && more[g[j].id] == ShareOf(g[j], g, ccy)
    {
      var owed := if accrued > 0 then MulDiv(total, g[i].accrued, accrued) else MulDiv(total, g[i].atoms, funds);
      var fee := owed;
      if fee > g[i].atoms {
        fee := g[i].atoms;
      }
      more := more[g[i].id := Share(fee, owed, g[i].days)];
    }
  }

  lemma {:induction false} GroupIs(ds: seq<Deposit>, at: int, ccy: Ccy, k: nat)
    requires k <= |ds|
    ensures forall h :: h in Group(ds, at, ccy, k) <==>
              exists i :: 0 <= i < k && ds[i].ccy == ccy && ds[i].atoms > 0 && h == HeldOf(ds[i], at)
  {
    if k > 0 { GroupIs(ds, at, ccy, k - 1); }
  }

  lemma {:induction false} GroupDistinct(ds: seq<Deposit>, at: int, ccy: Ccy, k: nat)
    requires k <= |ds| && Distinct(ds)
    ensures DistinctHeld(Group(ds, at, ccy, k))
  {
    hide HeldOf;
    if k > 0 {
      GroupDistinct(ds, at, ccy, k - 1);
      GroupIs(ds, at, ccy, k - 1);
      var g := Group(ds, at, ccy, k - 1);
      forall i | 0 <= i < |g| ensures g[i].id != ds[k - 1].id {
        assert g[i] in g;
        var j :| 0 <= j < k - 1 && ds[j].ccy == ccy && ds[j].atoms > 0 && g[i] == HeldOf(ds[j], at);
      }
    }
  }

  /** What each subscription owes now, whatever order the currencies are taken in. */
  method PublishedFees(ds: seq<Deposit>, at: int) returns (plan: map<nat, Share>)
    requires Distinct(ds)
    ensures forall i :: 0 <= i < |ds| && ds[i].atoms > 0 ==>
              var g := Group(ds, at, ds[i].ccy, |ds|);
              Wrap64(Sum(Funds(g))) != 0 ==>
                ds[i].id in plan && plan[ds[i].id] == ShareOf(HeldOf(ds[i], at), g, ds[i].ccy)
    ensures forall id :: id in plan ==> exists i :: 0 <= i < |ds| && ds[i].id == id && ds[i].atoms > 0
  {
    var groups := GroupAll(ds, at);
    plan := map[];
    var todo := groups.Keys;
    while todo != {}
      invariant todo <= groups.Keys
      invariant forall id :: id in plan ==> exists i :: 0 <= i < |ds| && ds[i].id == id && ds[i].atoms > 0
      invariant forall i :: 0 <= i < |ds| && ds[i].atoms > 0 && ds[i].ccy !in todo ==> Priced(ds, at, plan, i)
      decreases |todo|
    {
      var ccy :| ccy in todo;
      GroupIs(ds, at, ccy, |ds|);
      GroupDistinct(ds, at, ccy, |ds|);
      ghost var before := plan;
      plan := PriceGroup(groups[ccy], ccy, plan);
      forall id | id in plan ensures exists i :: 0 <= i < |ds| && ds[i].id == id && ds[i].atoms > 0 {
        if id !in before {
          var j :| 0 <= j < |groups[ccy]| && groups[ccy][j].id == id;
          assert groups[ccy][j] in Group(ds, at, ccy, |ds|);
        }
      }
      forall i | 0 <= i < |ds| && ds[i].atoms > 0 && ds[i].ccy !in todo - {ccy} ensures Priced(ds, at, plan, i) {
        OnePriced(ds, at, ccy, before, plan, i);
      }
      todo := todo - {ccy};
    }
    forall i | 0 <= i < |ds| && ds[i].atoms > 0 ensures Priced(ds, at, plan, i) {
    }
  }

  predicate Priced(ds: seq<Deposit>, at: int, plan: map<nat, Share>, i: nat)
    requires i < |ds|
  {
    var g := Group(ds, at, ds[i].ccy, |ds|);
    Wrap64(Sum(Funds(g))) != 0 ==>
      ds[i].id in plan && plan[ds[i].id] == ShareOf(HeldOf(ds[i], at), g, ds[i].ccy)
  }

  lemma OnePriced(ds: seq<Deposit>, at: int, ccy: Ccy, before: map<nat, Share>, plan: map<nat, Share>, i: nat)
    requires Distinct(ds) && i < |ds| && ds[i].atoms > 0
    requires ds[i].ccy == ccy || Priced(ds, at, before, i)
    requires var g := Group(ds, at, ccy, |ds|);
             && (Wrap64(Sum(Funds(g))) == 0 ==> plan == before)
             && (forall id :: id in before && (forall j :: 0 <= j < |g| ==> g[j].id != id) ==>
                  id in plan && plan[id] == before[id])
             && (Wrap64(Sum(Funds(g))) != 0 ==>
                   forall j :: 0 <= j < |g| ==> g[j].id in plan && plan[g[j].id] == ShareOf(g[j], g, ccy))
    ensures Priced(ds, at, plan, i)
  {
    var g := Group(ds, at, ccy, |ds|);
    GroupIs(ds, at, ccy, |ds|);
    if ds[i].ccy == ccy {
      assert HeldOf(ds[i], at) in g;
    } else {
      forall j | 0 <= j < |g| ensures g[j].id != ds[i].id {
        assert g[j] in g;
      }
    }
  }

  // ---- what the schedule promises ----

  /** Whole days of 86400 seconds since the money came; none while it has not. */
  lemma DaysAre(since: int, at: int)
    ensures since <= 0 || at <= since ==> Days(since, at) == 0
    ensures 0 < since < at ==> Days(since, at) * 86400 <= at - since < (Days(since, at) + 1) * 86400
  {
  }

  /** A quarter of a percent for every 30 days, as long as it fits a uint64. */
  lemma AccrualIs(atoms: nat, days: nat)
    requires atoms * (25 * days) < U64
    ensures Accrual(atoms, days) == atoms * (25 * days) / 300000
  {
  }

  /** A group's fee is what accrued, at most 3% of the funds, but at least 5000 dollars: of eight
      decimals for the on-chain dollar, of two for bank dollars, with no minimum elsewhere. */
  lemma TotalIs(accrued: nat, funds: nat, ccy: Ccy)
    requires funds < U64
    ensures var capped := if accrued > funds * 300 / 10000 then funds * 300 / 10000 else accrued;
            var minimum := match ccy case Usdx => 500_000_000_000 case Usd => 500_000 case Other(_) => 0;
            Total(accrued, funds, ccy) == if capped < minimum then minimum else capped
  {
    var q := MoneyShare(funds);
  }

  lemma MoneyShare(funds: nat) returns (q: nat)
    requires funds < U64
    ensures q == MulDiv(funds, 300, 10000) == funds * 300 / 10000
  {
    q := Money.Share(funds, 300, 10000);
  }

  /** A subscription owes the share of its group's total that it accrued of the group's accruals --
      of the group's funds while nothing has accrued -- and is charged no more than it deposited. */
  lemma ShareIs(d: Deposit, at: int, g: seq<Held>)
    requires Sum(Funds(g)) < U64 && Sum(Accrued(g)) < U64 && HeldOf(d, at) in g && d.atoms > 0
    ensures var share, mine := ShareOf(HeldOf(d, at), g, d.ccy), Accrual(d.atoms, Days(d.since, at));
            var total := Total(Sum(Accrued(g)), Sum(Funds(g)), d.ccy);
            && share.days == Days(d.since, at)
            && share.fee == (if share.owed > d.atoms then d.atoms else share.owed)
            && Sum(Funds(g)) > 0
            && share.owed == if Sum(Accrued(g)) > 0 then total * mine / Sum(Accrued(g)) else total * d.atoms / Sum(Funds(g))
  {
    hide Accrual, Total, Days, MulDiv;
    var funds, accrued := Sum(Funds(g)), Sum(Accrued(g));
    TotalFits(accrued, funds, d.ccy);
    var i :| 0 <= i < |g| && g[i] == HeldOf(d, at);
    EachAtMostSum(Funds(g), i, |g|);
    EachAtMostSum(Accrued(g), i, |g|);
    assert g[i].atoms <= funds && g[i].accrued <= accrued && Wrap64(funds) == funds && Wrap64(accrued) == accrued;
    hide Wrap64, Sum;
    PartOf(Total(accrued, funds, d.ccy), g[i].accrued, accrued);
    PartOf(Total(accrued, funds, d.ccy), d.atoms, funds);
  }

  lemma PartOf(total: nat, part: nat, whole: nat)
    requires total < U64 && part <= whole
    ensures whole > 0 ==> MulDiv(total, part, whole) == total * part / whole
  {
    if whole > 0 { var q := Money.Share(total, part, whole); }
  }

  /** The total is within the larger of the cap and the minimum, and is exactly the accrual
      while that lies between the two. */
  lemma TotalBounded(accrued: nat, funds: nat, ccy: Ccy)
    ensures Minimum(ccy) <= Total(accrued, funds, ccy) <= Max(Cap(funds), Minimum(ccy))
    ensures Minimum(ccy) <= accrued <= Cap(funds) ==> Total(accrued, funds, ccy) == accrued
  {
  }

  function OwedList(g: seq<Held>, ccy: Ccy): (r: seq<nat>)
    ensures |r| == |g| && forall i :: 0 <= i < |r| ==> r[i] == Owed(g[i], g, ccy)
  {
    seq(|g|, i requires 0 <= i < |g| => Owed(g[i], g, ccy))
  }

  lemma TotalFits(accrued: nat, funds: nat, ccy: Ccy)
    ensures Total(accrued, funds, ccy) < U64
  {
  }

  /** The shares owed add up to at most the group's total and fall short by less than the
      number of subscriptions; no fee is more than is owed or than its own deposit. */
  lemma OwedApportionsTheTotal(g: seq<Held>, ccy: Ccy)
    requires g != [] && Sum(Funds(g)) < U64 && Sum(Accrued(g)) < U64
    requires forall i :: 0 <= i < |g| ==> g[i].atoms > 0
    ensures var total := Total(Sum(Accrued(g)), Sum(Funds(g)), ccy);
            Sum(OwedList(g, ccy)) <= total < Sum(OwedList(g, ccy)) + |g|
    ensures forall i :: 0 <= i < |g| ==>
              ShareOf(g[i], g, ccy).fee <= g[i].atoms && ShareOf(g[i], g, ccy).fee <= ShareOf(g[i], g, ccy).owed
  {
    var total := Total(Sum(Accrued(g)), Sum(Funds(g)), ccy);
    TotalFits(Sum(Accrued(g)), Sum(Funds(g)), ccy);
    EachAtMostSum(Funds(g), 0, |g|);
    var weights := if Sum(Accrued(g)) > 0 then Accrued(g) else Funds(g);
    SharesConserve(total, weights, Sum(weights));
    assert OwedList(g, ccy) == Shares(total, weights, Sum(weights)) by {
      OwedAreShares(g, ccy, total, weights);
    }
  }

  lemma OwedAreShares(g: seq<Held>, ccy: Ccy, total: nat, weights: seq<nat>)
    requires Sum(Funds(g)) < U64 && Sum(Accrued(g)) < U64
    requires total == Total(Sum(Accrued(g)), Sum(Funds(g)), ccy)
    requires weights == if Sum(Accrued(g)) > 0 then Accrued(g) else Funds(g)
    ensures OwedList(g, ccy) == Shares(total, weights, Sum(weights))
  {
    assert Wrap64(Sum(Funds(g))) == Sum(Funds(g)) && Wrap64(Sum(Accrued(g))) == Sum(Accrued(g));
    forall i | 0 <= i < |g| ensures OwedList(g, ccy)[i] == Shares(total, weights, Sum(weights))[i] {
    }
  }

  // ---- as time passes ----

  /** Every accrual quotient fits a uint64. */
  predicate AccrualsFit(ds: seq<Deposit>, at: int) {
    forall i :: 0 <= i < |ds| ==>
      ds[i].atoms * (RATE_PER_MONTH_BPS * Days(ds[i].since, at)) / (10000 * DAYS_PER_MONTH) < U64
  }

  lemma DaysPass(since: int, at: int, later: int)
    requires at <= later
    ensures Days(since, at) <= Days(since, later)
  {
    if since > 0 && at > since {
      DivLe(at - since, later - since, DAY_SECONDS);
    }
  }

  lemma AccrualGrows(d: Deposit, at: int, later: int)
    requires at <= later
    requires d.atoms * (RATE_PER_MONTH_BPS * Days(d.since, later)) / (10000 * DAYS_PER_MONTH) < U64
    ensures HeldOf(d, at).accrued <= HeldOf(d, later).accrued
  {
    DaysPass(d.since, at, later);
    MulDivMonotone(d.atoms, RATE_PER_MONTH_BPS * Days(d.since, at), RATE_PER_MONTH_BPS * Days(d.since, later),
                   10000 * DAYS_PER_MONTH);
  }

  lemma {:induction false} GroupGrows(ds: seq<Deposit>, at: int, later: int, ccy: Ccy, k: nat)
    requires k <= |ds| && at <= later && AccrualsFit(ds, later)
    ensures var g, g' := Group(ds, at, ccy, k), Group(ds, later, ccy, k);
            && |g| == |g'| && Funds(g) == Funds(g')
            && forall i :: 0 <= i < |g| ==> g[i].accrued <= g'[i].accrued
  {
    if k > 0 {
      GroupGrows(ds, at, later, ccy, k - 1);
      AccrualGrows(ds[k - 1], at, later);
    }
  }

  /** A group's total as the program adds it up, in uint64. */
  function TotalNow(g: seq<Held>, ccy: Ccy): nat {
    Total(Wrap64(Sum(Accrued(g))), Wrap64(Sum(Funds(g))), ccy)
  }

  /** The accruals' uint64 sum does not wrap, or no longer matters: it is past the cap all the
      same, or the minimum is. */
  predicate SumHarmless(g: seq<Held>, ccy: Ccy) {
    var cap := Cap(Wrap64(Sum(Funds(g))));
    Sum(Accrued(g)) < U64 || Wrap64(Sum(Accrued(g))) >= cap || Minimum(ccy) >= cap
  }

  /** The total is the published one -- what the accruals really add up to, capped, and at least
      the minimum -- if and only if their uint64 sum is harmless; else it is too low. */
  lemma TotalIsPublishedIff(g: seq<Held>, ccy: Ccy)
    ensures TotalNow(g, ccy) <= Total(Sum(Accrued(g)), Wrap64(Sum(Funds(g))), ccy)
    ensures TotalNow(g, ccy) == Total(Sum(Accrued(g)), Wrap64(Sum(Funds(g))), ccy) <==> SumHarmless(g, ccy)
  {
    var accrued := Sum(Accrued(g));
    if accrued < U64 {
      assert Wrap64(accrued) == accrued;
    }
  }

  /** A group's total, as the program adds it up, never goes down as time passes, if at the
      later time every quotient fits and the accruals' sum is harmless. */
  lemma TotalNeverFalls(ds: seq<Deposit>, at: int, later: int, ccy: Ccy)
    requires at <= later && AccrualsFit(ds, later)
    requires SumHarmless(Group(ds, later, ccy, |ds|), ccy)
    ensures TotalNow(Group(ds, at, ccy, |ds|), ccy) <= TotalNow(Group(ds, later, ccy, |ds|), ccy)
  {
    var g, g' := Group(ds, at, ccy, |ds|), Group(ds, later, ccy, |ds|);
    GroupGrows(ds, at, later, ccy, |ds|);
    SumToMonotone(Accrued(g), Accrued(g'), |g|);
    TotalIsPublishedIff(g, ccy);
    TotalIsPublishedIff(g', ccy);
  }

  const HALVES: seq<Deposit> := [Deposit(1, Other(0), I64_LIMIT / 2, 1), Deposit(2, Other(0), I64_LIMIT / 2, 1)]

  lemma SumOfTwo(s: seq<nat>)
    requires |s| == 2
    ensures Sum(s) == s[0] + s[1]
  {
    assert SumTo(s, 2) == SumTo(s, 1) + s[1] && SumTo(s, 1) == SumTo(s, 0) + s[0];
  }

  /** The group of the two deposits, whatever it has accrued. */
  lemma HalvesGroup(at: int)
    ensures var g := Group(HALVES, at, Other(0), 2);
            && |g| == 2 && g[0] == HeldOf(HALVES[0], at) && g[1] == HeldOf(HALVES[1], at)
            && Sum(Funds(g)) == I64_LIMIT && Sum(Accrued(g)) == 2 * HeldOf(HALVES[0], at).accrued
  {
    var g := Group(HALVES, at, Other(0), 2);
    GroupStep(HALVES, at, Other(0), 0);
    GroupStep(HALVES, at, Other(0), 1);
    assert g == [HeldOf(HALVES[0], at), HeldOf(HALVES[1], at)];
    SumOfTwo(Accrued(g));
    SumOfTwo(Funds(g));
  }

  /** Where it is not, the total falls though every quotient fits: two deposits of a quarter of
      the range of atoms accrue half of it each in 24,000 days, and the two halves wrap to nothing. */
  lemma WrappedAccrualsOweNothing()
    ensures AccrualsFit(HALVES, 1 + 24_000 * DAY_SECONDS)
    ensures TotalNow(Group(HALVES, 1 + 30 * DAY_SECONDS, Other(0), 2), Other(0)) > 0
    ensures TotalNow(Group(HALVES, 1 + 24_000 * DAY_SECONDS, Other(0), 2), Other(0)) == 0
  {
    HalvesGroup(1 + 30 * DAY_SECONDS);
    HalvesGroup(1 + 24_000 * DAY_SECONDS);
    assert Days(1, 1 + 30 * DAY_SECONDS) == 30 && Days(1, 1 + 24_000 * DAY_SECONDS) == 24_000;
    assert HeldOf(HALVES[0], 1 + 24_000 * DAY_SECONDS).accrued == I64_LIMIT;
  }

  /** A quotient past a uint64 reads as nothing accrued: half the range of atoms held for
      24,000 days owes less than after one month. */
  lemma AnOverlongDepositOwesNothing()
    ensures Total(Accrual(I64_LIMIT, 24_000), I64_LIMIT, Other(0)) == 0
    ensures Total(Accrual(I64_LIMIT, 30), I64_LIMIT, Other(0)) > 0
  {
  }
}
