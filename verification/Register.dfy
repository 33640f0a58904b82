/** The record-date snapshot of a distribution: who held what, what each is due, and what
    is withheld. */
module Register {
  import opened Prelude
  import opened Money
  import opened Text

  type Aid = nat

  /** What the store knows of a holder; the residence a country code as it was given. */
  datatype Claims = Claims(usPerson: bool, residence: string)

  datatype TaxStatus = W9 | W8Ben | Unknown

  datatype Holding = Holding(aid: Aid, atoms: nat)

  datatype Payment = Payment(
    aid: Aid, balance: nat, gross: nat, withheld: nat, net: nat, bps: nat, status: TaxStatus)

  const TREATY: set<string> :=
    {"GB", "DE", "FR", "IE", "NL", "ES", "IT", "AU", "CA", "CH", "SE", "NO", "DK", "FI"}
  const TREATY_BPS: nat := 1500
  const JAPAN_BPS: nat := 1000
  const STATUTORY_BPS: nat := 3000

  function TreatyBps(country: string): nat {
    var code := Upper(Trim(country));
    if code in TREATY then TREATY_BPS else if code == "JP" then JAPAN_BPS else STATUTORY_BPS
  }

  /** What is withheld, and as what: nothing of a US person; of anyone else the share their
      residence's treaty rate gives, 15% or Japan's 10%, or 30% without one; and 30% of a holder
      nothing is known of. */
  predicate Withholds(claims: Option<Claims>, gross: nat, withheld: nat, bps: nat, status: TaxStatus) {
    && withheld == gross * bps / 10000
    && match claims
       case None => bps == 3000 && status == Unknown
       case Some(c) =>
         if c.usPerson then bps == 0 && status == W9
         else
           && status == W8Ben
           && var home := Upper(Trim(c.residence));
              bps == (if home in ["GB", "DE", "FR", "IE", "NL", "ES", "IT", "AU", "CA", "CH", "SE", "NO",
                                  "DK", "FI"] then 1500
                      else if home == "JP" then 1000 else 3000)
  }

  /** A US person has nothing withheld; anyone else at their residence's rate, and one of
      unknown residence at the statutory one. */
  function WithholdingFor(claims: Option<Claims>, gross: nat): (r: (nat, nat, TaxStatus))
    requires gross < U64
    ensures r.0 <= gross
    ensures Withholds(claims, gross, r.0, r.1, r.2)
  {
    if claims.Some? && claims.value.usPerson then (0, 0, W9)
    else
      var bps := TreatyBps(if claims.Some? then claims.value.residence else "");
      var withheld := MulDiv(gross, bps, 10000);
      assert withheld <= gross && withheld == gross * bps / 10000 by {
        var q := Share(gross, bps, 10000);
      }
      (withheld, bps, if claims.Some? then W8Ben else Unknown)
  }

  // ---- the split ----

  /** A zero balance is not a holding. */
  function Positive(register: seq<Holding>, k: nat): (r: seq<Holding>)
    requires k <= |register|
    ensures forall i :: 0 <= i < |r| ==> r[i].atoms > 0
    ensures forall i :: 0 <= i < k && register[i].atoms > 0 ==> register[i] in r
    ensures |r| <= k
  {
    if k == 0 then []
    else Positive(register, k - 1) + (if register[k - 1].atoms > 0 then [register[k - 1]] else [])
  }

  function Balances(held: seq<Holding>): (r: seq<nat>)
    ensures |r| == |held| && forall i :: 0 <= i < |r| ==> r[i] == held[i].atoms
  {
    seq(|held|, i requires 0 <= i < |held| => held[i].atoms)
  }

  type Lookup = Aid -> Option<Claims>

  /** What one holder is due. */
  function Due(h: Holding, pool: nat, total: nat, claims: Lookup): Payment
    requires pool < U64 && 0 < total && h.atoms <= total
  {
    var gross := MulDiv(pool, h.atoms, total);
    var w := WithholdingFor(claims(h.aid), gross);
    Payment(h.aid, h.atoms, gross, w.0, gross - w.0, w.1, w.2)
  }

  /** The payments of the first k holders. */
  function Split(held: seq<Holding>, pool: nat, total: nat, claims: Lookup, k: nat): (r: seq<Payment>)
    requires k <= |held| && pool < U64 && 0 < total && forall i :: 0 <= i < |held| ==> held[i].atoms <= total
    ensures |r| == k
    ensures forall i :: 0 <= i < k ==> r[i] == Due(held[i], pool, total, claims)
  {
    seq(k, i requires 0 <= i < k => Due(held[i], pool, total, claims))
  }

  lemma NothingSplit(held: seq<Holding>, pool: nat, total: nat, claims: Lookup)
    requires pool < U64 && 0 < total && forall i :: 0 <= i < |held| ==> held[i].atoms <= total
    ensures Split(held, pool, total, claims, 0) == []
  {
  }

  lemma SplitStep(held: seq<Holding>, pool: nat, total: nat, claims: Lookup, k: nat)
    requires k < |held| && pool < U64 && 0 < total && forall i :: 0 <= i < |held| ==> held[i].atoms <= total
    ensures Split(held, pool, total, claims, k + 1)
            == Split(held, pool, total, claims, k) + [Due(held[k], pool, total, claims)]
    ensures Split(held, pool, total, claims, k) <= Split(held, pool, total, claims, |held|)
  {
  }

  function Gross(ps: seq<Payment>): (r: seq<nat>)
    ensures |r| == |ps| && forall i :: 0 <= i < |r| ==> r[i] == ps[i].gross
  {
    seq(|ps|, i requires 0 <= i < |ps| => ps[i].gross)
  }

  function Withheld(ps: seq<Payment>): (r: seq<nat>)
    ensures |r| == |ps| && forall i :: 0 <= i < |r| ==> r[i] == ps[i].withheld
  {
    seq(|ps|, i requires 0 <= i < |ps| => ps[i].withheld)
  }

  function Net(ps: seq<Payment>): (r: seq<nat>)
    ensures |r| == |ps| && forall i :: 0 <= i < |r| ==> r[i] == ps[i].net
  {
    seq(|ps|, i requires 0 <= i < |ps| => ps[i].net)
  }

  function Held(ps: seq<Payment>): (r: seq<nat>)
    ensures |r| == |ps| && forall i :: 0 <= i < |r| ==> r[i] == ps[i].balance
  {
    seq(|ps|, i requires 0 <= i < |ps| => ps[i].balance)
  }

  /** The gross amounts never overspend the pool; what rounding leaves is less than the number
      of holders; and every payment is its net and what is withheld. */
  lemma SplitConserves(held: seq<Holding>, pool: nat, claims: Lookup)
    requires held != [] && pool < U64 && forall i :: 0 <= i < |held| ==> 0 < held[i].atoms <= Sum(Balances(held))
    ensures var ps := Split(held, pool, Sum(Balances(held)), claims, |held|);
            && Sum(Gross(ps)) <= pool < Sum(Gross(ps)) + |held|
            && Sum(Gross(ps)) == Sum(Net(ps)) + Sum(Withheld(ps))
            && forall i :: 0 <= i < |ps| ==> ps[i].gross == ps[i].net + ps[i].withheld
  {
    var total := Sum(Balances(held));
    var ps := Split(held, pool, total, claims, |held|);
    SharesConserve(pool, Balances(held), total);
    assert Gross(ps) == Shares(pool, Balances(held), total);
    GrossIsNetAndWithheld(ps, |ps|);
  }

  lemma {:induction false} GrossIsNetAndWithheld(ps: seq<Payment>, k: nat)
    requires k <= |ps| && forall i :: 0 <= i < |ps| ==> ps[i].gross == ps[i].net + ps[i].withheld
    ensures SumTo(Gross(ps), k) == SumTo(Net(ps), k) + SumTo(Withheld(ps), k)
  {
    SumToAdd(Gross(ps), Net(ps), Withheld(ps), k);
  }

  // ---- taking the snapshot ----

  datatype Totals = Totals(held: nat, gross: nat, withheld: nat, net: nat, dust: nat)

  datatype Outcome = Taken | Unread | NoHolders | Stopped

  /** A run's frozen payment rows and, once taken, its totals. */
  class Snapshot {
    const pool: nat
    var rows: seq<Payment>
    var totals: Option<Totals>
    /** How many more writes this process makes before it stops. */
    var budget: nat
    /** The split the rows are being frozen from. */
    ghost var split: seq<Payment>

    ghost predicate Valid()
      reads this
    {
      && pool < U64
      && rows <= split
      && (forall i :: 0 <= i < |split| ==> split[i].gross == split[i].net + split[i].withheld)
      && Sum(Gross(split)) <= pool
      && (totals.Some? ==> totals.value == TotalsOf(rows, pool))
    }

    constructor (pool: nat, budget: nat)
      requires pool < U64
      ensures Valid() && this.pool == pool && this.budget == budget && rows == [] && split == [] && totals == None
    {
      this.pool, this.budget, rows, split, totals := pool, budget, [], [], None;
    }

    /** Freezes every positive holder's payment, one write each, unless some are frozen already;
        then sums the frozen rows, whatever the register says by now. A register that cannot be
        read stops only a snapshot with no row frozen. */
    method Take(register: Option<seq<Holding>>, claims: Lookup) returns (r: Outcome)
      requires Valid() && (register.Some? ==> Sum(Balances(register.value)) < U64)
      modifies this
      ensures Valid()
      ensures old(totals).Some? ==> r == Taken && rows == old(rows) && totals == old(totals)
      ensures r == Taken ==> totals.Some? && AddsUp(totals.value, rows, pool)
      ensures old(rows) != [] ==> rows == old(rows) && (r == Taken || r == Stopped)
      ensures r == Unread <==> old(rows) == [] && old(totals) == None && register == None
      ensures r == NoHolders <==> old(rows) == [] && old(totals) == None && register.Some?
                                  && Positive(register.value, |register.value|) == []
      ensures r == Unread || r == NoHolders ==> rows == [] && totals == None && budget == old(budget)
      ensures old(rows) == [] && old(totals) == None && (r == Taken || r == Stopped) ==>
                && register.Some? && split == FullSplit(register.value, pool, claims)
                && (r == Taken ==> rows == split)
                && DueRows(rows, register.value, pool, claims)
                && (r == Taken ==> AllHeld(rows, register.value))
    {
      hide DueRows, AllHeld, FullSplit, Positive;
      if totals.Some? {
        RowsAddUp(rows, split, pool);
        return Taken;
      }
      if rows == [] {
        if register == None {
          return Unread;
        }
        var held := Positive(register.value, |register.value|);
        if held == [] {
          return NoHolders;
        }
        r := Freeze(register.value, held, claims);
        FrozenAreDue(rows, register.value, pool, claims);
        if r == Stopped {
          return;
        }
      }
      RowsAddUp(rows, split, pool);
      var t := AddUp(rows, pool);
      if budget == 0 {
        return Stopped;
      }
      budget := budget - 1;
      totals := Some(t);
      r := Taken;
    }

    method Freeze(register: seq<Holding>, held: seq<Holding>, claims: Lookup) returns (r: Outcome)
      requires Valid() && rows == [] && totals == None && Sum(Balances(register)) < U64
      requires held == Positive(register, |register|) && held != []
      modifies this
      ensures Valid() && totals == None && split == FullSplit(register, pool, claims)
      ensures r == (if old(budget) < |held| then Stopped else Taken)
      ensures |rows| == if r == Taken then |held| else old(budget)
      ensures r == Taken ==> rows == split
    {
      PositiveFits(register, |register|);
      EachBalanceFits(held);
      var total := AddBalances(held);
      SplitConserves(held, pool, claims);
      hide Due;
      NothingSplit(held, pool, total, claims);
      split := Split(held, pool, total, claims, |held|);
      for i := 0 to |held|
        invariant totals == None && rows == Split(held, pool, total, claims, i) && budget + i == old(budget)
        invariant split == Split(held, pool, total, claims, |held|)
      {
        if budget == 0 {
          return Stopped;
        }
        budget := budget - 1;
        SplitStep(held, pool, total, claims, i);
        rows := rows + [Due(held[i], pool, total, claims)];
      }
      r := Taken;
    }
  }

  /** Every positive holder's payment. */
  function FullSplit(register: seq<Holding>, pool: nat, claims: Lookup): seq<Payment>
    requires pool < U64
  {
    var held := Positive(register, |register|);
    EachBalanceFits(held);
    if held == [] then [] else Split(held, pool, Sum(Balances(held)), claims, |held|)
  }

  /** A row has the floor share of the pool its balance gives, less what is withheld of the holder. */
  predicate DueRow(p: Payment, pool: nat, total: nat, claims: Lookup) {
    && p.balance > 0 && total > 0 && p.gross == pool * p.balance / total
    && Withholds(claims(p.aid), p.gross, p.withheld, p.bps, p.status) && p.gross == p.net + p.withheld
  }

  /** Every row is a holder's of the register, each at most once, and has what it is due. */
  ghost predicate DueRows(rows: seq<Payment>, register: seq<Holding>, pool: nat, claims: Lookup) {
    && multiset(HeldBy(rows)) <= multiset(register)
    && forall i :: 0 <= i < |rows| ==> DueRow(rows[i], pool, Sum(Balances(register)), claims)
  }

  function HeldBy(rows: seq<Payment>): (r: seq<Holding>)
    ensures |r| == |rows| && forall i :: 0 <= i < |r| ==> r[i] == Holding(rows[i].aid, rows[i].balance)
  {
    seq(|rows|, i requires 0 <= i < |rows| => Holding(rows[i].aid, rows[i].balance))
  }

  lemma {:induction false} PositiveAre(register: seq<Holding>, k: nat)
    requires k <= |register|
    ensures forall h: Holding :: multiset(Positive(register, k))[h] == if h.atoms > 0 then multiset(register[..k])[h] else 0
  {
    if k > 0 {
      PositiveAre(register, k - 1);
      assert register[..k] == register[..k - 1] + [register[k - 1]];
    }
  }

  lemma DueIs(h: Holding, pool: nat, total: nat, claims: Lookup)
    requires pool < U64 && 0 < h.atoms <= total
    ensures var p := Due(h, pool, total, claims); p.aid == h.aid && p.balance == h.atoms && DueRow(p, pool, total, claims)
  {
    var q := Share(pool, h.atoms, total);
  }

  lemma PartOfPositive(register: seq<Holding>, held: seq<Holding>, n: nat)
    requires n <= |held| && forall h: Holding :: multiset(held)[h] == if h.atoms > 0 then multiset(register)[h] else 0
    ensures multiset(held[..n]) <= multiset(register)
  {
    assert held == held[..n] + held[n..];
    forall h: Holding ensures multiset(held[..n])[h] <= multiset(register)[h] {
      assert multiset(held)[h] == multiset(held[..n])[h] + multiset(held[n..])[h];
    }
  }

  lemma HeldIsPart(rows: seq<Payment>, held: seq<Holding>)
    requires |rows| <= |held| && forall i :: 0 <= i < |rows| ==> rows[i].aid == held[i].aid && rows[i].balance == held[i].atoms
    ensures HeldBy(rows) == held[..|rows|]
    ensures |rows| == |held| ==> HeldBy(rows) == held
  {
  }

  lemma SplitIsDue(rows: seq<Payment>, held: seq<Holding>, pool: nat, total: nat, claims: Lookup)
    requires pool < U64 && 0 < total && forall i :: 0 <= i < |held| ==> 0 < held[i].atoms <= total
    requires rows <= Split(held, pool, total, claims, |held|)
    ensures forall i :: 0 <= i < |rows| ==>
              rows[i].aid == held[i].aid && rows[i].balance == held[i].atoms && DueRow(rows[i], pool, total, claims)
  {
    hide Due, DueRow;
    forall i | 0 <= i < |rows|
      ensures rows[i].aid == held[i].aid && rows[i].balance == held[i].atoms && DueRow(rows[i], pool, total, claims)
    {
      DueIs(held[i], pool, total, claims);
    }
  }

  lemma FrozenAreDue(rows: seq<Payment>, register: seq<Holding>, pool: nat, claims: Lookup)
    requires pool < U64 && rows <= FullSplit(register, pool, claims)
    ensures DueRows(rows, register, pool, claims)
    ensures |rows| == |Positive(register, |register|)| ==> AllHeld(rows, register)
  {
    var held, total := Positive(register, |register|), Sum(Balances(register));
    PositiveFits(register, |register|);
    EachBalanceFits(held);
    hide Positive, Sum, Balances, DueRow, HeldBy;
    if held != [] { SplitIsDue(rows, held, pool, total, claims); }
    HeldIsPart(rows, held);
    PositiveAre(register, |register|);
    assert register[..|register|] == register;
    PartOfPositive(register, held, |rows|);
    hide FullSplit;
  }

  /** Everyone on the register with a balance has a row. */
  ghost predicate AllHeld(rows: seq<Payment>, register: seq<Holding>) {
    forall h: Holding :: h.atoms > 0 ==> multiset(HeldBy(rows))[h] == multiset(register)[h]
  }

  lemma EachBalanceFits(held: seq<Holding>)
    requires forall i :: 0 <= i < |held| ==> held[i].atoms > 0
    ensures forall i :: 0 <= i < |held| ==> held[i].atoms <= Sum(Balances(held))
    ensures held != [] ==> 0 < Sum(Balances(held))
  {
    forall i | 0 <= i < |held| ensures held[i].atoms <= Sum(Balances(held)) {
      EachAtMostSum(Balances(held), i, |held|);
    }
  }

  lemma {:induction false} PositiveFits(register: seq<Holding>, k: nat)
    requires k <= |register|
    ensures Sum(Balances(Positive(register, k))) == SumTo(Balances(register), k)
  {
    if k > 0 {
      PositiveFits(register, k - 1);
      var before := Positive(register, k - 1);
      if register[k - 1].atoms > 0 {
        assert Balances(Positive(register, k)) == Balances(before) + [register[k - 1].atoms];
        SumSnoc(Balances(before), register[k - 1].atoms);
      } else {
        assert Positive(register, k) == before;
      }
    }
  }

  method AddBalances(held: seq<Holding>) returns (total: nat)
    requires Sum(Balances(held)) < U64
    ensures total == Sum(Balances(held))
  {
    total := 0;
    for i := 0 to |held|
      invariant total == SumTo(Balances(held), i)
    {
      SumToLe(Balances(held), i + 1, |held|);
      total := Wrap64(total + held[i].atoms);
    }
  }

  function TotalsOf(rows: seq<Payment>, pool: nat): Totals {
    var gross := Sum(Gross(rows));
    Totals(Sum(Held(rows)), gross, Sum(Withheld(rows)), Sum(Net(rows)), if gross <= pool then pool - gross else 0)
  }

  method AddUp(rows: seq<Payment>, pool: nat) returns (t: Totals)
    requires Sum(Gross(rows)) <= pool
    ensures t == TotalsOf(rows, pool)
  {
    var held, gross, withheld, net := 0, 0, 0, 0;
    for i := 0 to |rows|
      invariant held == SumTo(Held(rows), i) && gross == SumTo(Gross(rows), i)
      invariant withheld == SumTo(Withheld(rows), i) && net == SumTo(Net(rows), i)
    {
      held, gross := held + rows[i].balance, gross + rows[i].gross;
      withheld, net := withheld + rows[i].withheld, net + rows[i].net;
    }
    t := Totals(held, gross, withheld, net, pool - gross);
  }

  /** Totals are those of the rows: what is paid out and what is withheld make up the gross, and the
      gross and the dust the pool. */
  predicate AddsUp(t: Totals, rows: seq<Payment>, pool: nat) {
    && t.held == Sum(Held(rows)) && t.net == Sum(Net(rows)) && t.withheld == Sum(Withheld(rows))
    && t.gross == t.net + t.withheld && t.gross + t.dust == pool
  }

  /** Frozen rows are a part of one split, so they stay within the pool and add up. */
  lemma RowsAddUp(rows: seq<Payment>, split: seq<Payment>, pool: nat)
    requires rows <= split && Sum(Gross(split)) <= pool
    requires forall i :: 0 <= i < |split| ==> split[i].gross == split[i].net + split[i].withheld
    ensures Sum(Gross(rows)) <= pool && Sum(Gross(rows)) == Sum(Net(rows)) + Sum(Withheld(rows))
    ensures AddsUp(TotalsOf(rows, pool), rows, pool)
  {
    SumToAgrees(Gross(rows), Gross(split), |rows|);
    SumToLe(Gross(split), |rows|, |split|);
    GrossIsNetAndWithheld(rows, |rows|);
  }

  /** Rows frozen before a stop are all the run will ever pay: they reach every holder if and
      only if none was left to freeze. */
  lemma FrozenReachEveryoneIff(held: seq<Holding>, pool: nat, total: nat, claims: Lookup, k: nat)
    requires k <= |held| && pool < U64 && 0 < total && forall i :: 0 <= i < |held| ==> held[i].atoms <= total
    requires forall i, j :: 0 <= i < j < |held| ==> held[i].aid != held[j].aid
    ensures (forall i :: 0 <= i < |held| ==> PaidAid(Split(held, pool, total, claims, k), held[i].aid)) <==> k == |held|
  {
    var part := Split(held, pool, total, claims, k);
    forall i | 0 <= i < k ensures PaidAid(part, held[i].aid) {
      assert part[i].aid == held[i].aid;
    }
    if k < |held| {
      assert !PaidAid(part, held[k].aid);
    }
  }

  predicate PaidAid(rows: seq<Payment>, aid: Aid) {
    exists i :: 0 <= i < |rows| && rows[i].aid == aid
  }
}
