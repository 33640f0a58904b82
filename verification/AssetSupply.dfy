/** A finished walk accounts for every atom issued. */
module AssetSupply {
  import opened Prelude
  import opened Chain
  import opened AssetWalk

  // ---- one transaction's outputs, by what became of them ----

  function Amount(x: Explorer, asset: Asset, t: Txid, i: nat): nat
    requires i < |x.outs(t)|
  {
    if x.outs(t)[i].asset == asset then x.outs(t)[i].value else 0
  }

  /** All the asset among the first n outputs. */
  function AllOut(x: Explorer, asset: Asset, t: Txid, n: nat): nat
    requires n <= |x.outs(t)|
  {
    if n == 0 then 0 else AllOut(x, asset, t, n - 1) + Amount(x, asset, t, n - 1)
  }

  function HeldOut(x: Explorer, asset: Asset, t: Txid, n: nat): nat
    requires n <= |x.outs(t)|
  {
    if n == 0 then 0
    else HeldOut(x, asset, t, n - 1) + (if HolderAt(x, asset, t, n - 1) then Amount(x, asset, t, n - 1) else 0)
  }

  /** Outputs without a script, which the walk skips: fees paid in the asset. */
  function ScriptlessOut(x: Explorer, asset: Asset, t: Txid, n: nat): nat
    requires n <= |x.outs(t)|
  {
    if n == 0 then 0
    else ScriptlessOut(x, asset, t, n - 1)
         + (if x.outs(t)[n - 1].script == NO_SCRIPT then Amount(x, asset, t, n - 1) else 0)
  }

  predicate SpentOut(x: Explorer, asset: Asset, t: Txid, i: nat) {
    i < |x.outs(t)| && Carries(x.outs(t)[i], asset) && SpentAt(x, t, i)
  }

  function MovedOut(x: Explorer, asset: Asset, t: Txid, n: nat): nat
    requires n <= |x.outs(t)|
  {
    if n == 0 then 0
    else MovedOut(x, asset, t, n - 1) + (if SpentOut(x, asset, t, n - 1) then Amount(x, asset, t, n - 1) else 0)
  }

  lemma {:induction false} OutputsSplit(x: Explorer, asset: Asset, t: Txid, n: nat)
    requires n <= |x.outs(t)|
    ensures AllOut(x, asset, t, n) == HeldOut(x, asset, t, n) + ScriptlessOut(x, asset, t, n) + MovedOut(x, asset, t, n)
  {
    if n > 0 { OutputsSplit(x, asset, t, n - 1); }
  }

  /** What one transaction moved into another. */
  function MovedTo(x: Explorer, asset: Asset, t: Txid, n: nat, u: Txid): nat
    requires n <= |x.outs(t)|
  {
    if n == 0 then 0
    else MovedTo(x, asset, t, n - 1, u) + (if MovedAt(x, asset, t, n - 1, u) then Amount(x, asset, t, n - 1) else 0)
  }

  // ---- sums over the transactions visited ----

  function SumOver(f: Txid -> nat, v: seq<Txid>, k: nat): nat
    requires k <= |v|
  {
    if k == 0 then 0 else SumOver(f, v, k - 1) + f(v[k - 1])
  }

  lemma {:induction false} SumOverAdds(f: Txid -> nat, g: Txid -> nat, h: Txid -> nat, v: seq<Txid>, k: nat)
    requires k <= |v| && forall i :: 0 <= i < k ==> f(v[i]) == g(v[i]) + h(v[i])
    ensures SumOver(f, v, k) == SumOver(g, v, k) + SumOver(h, v, k)
  {
    if k > 0 { SumOverAdds(f, g, h, v, k - 1); }
  }

  lemma {:induction false} SumOverSame(f: Txid -> nat, g: Txid -> nat, v: seq<Txid>, k: nat)
    requires k <= |v| && forall i :: 0 <= i < k ==> f(v[i]) == g(v[i])
    ensures SumOver(f, v, k) == SumOver(g, v, k)
  {
    if k > 0 { SumOverSame(f, g, v, k - 1); }
  }

  /** A function that is c at one element of distinct ones and 0 elsewhere adds up to c. */
  lemma {:induction false} SumOverOne(f: Txid -> nat, at: Txid, c: nat, v: seq<Txid>, k: nat)
    requires k <= |v| && NoRepeats(v)
    requires forall t :: f(t) == if t == at then c else 0
    ensures SumOver(f, v, k) == if at in v[..k] then c else 0
  {
    if k > 0 {
      SumOverOne(f, at, c, v, k - 1);
      assert v[..k] == v[..k - 1] + [v[k - 1]];
    }
  }

  /** The order of two sums does not matter. */
  lemma {:induction false} SumOverSwap(f: (Txid, Txid) -> nat, v: seq<Txid>, k: nat, n: nat)
    requires k <= |v| && n <= |v|
    ensures SumOver(t => SumOver(u => f(t, u), v, n), v, k) == SumOver(u => SumOver(t => f(t, u), v, k), v, n)
  {
    if k == 0 {
      SumOverSame(u => SumOver(t => f(t, u), v, 0), u => 0, v, n);
      SumOverNothing(v, n);
    } else {
      SumOverSwap(f, v, k - 1, n);
      SumOverAdds(u => SumOver(t => f(t, u), v, k), u => SumOver(t => f(t, u), v, k - 1), u => f(v[k - 1], u), v, n);
    }
  }

  lemma {:induction false} SumOverNothing(v: seq<Txid>, k: nat)
    requires k <= |v|
    ensures SumOver(t => 0, v, k) == 0
  {
    if k > 0 { SumOverNothing(v, k - 1); }
  }

  /** What moved out of one transaction moved into those visited, once each. */
  lemma {:induction false} MovedSomewhere(x: Explorer, asset: Asset, t: Txid, n: nat, v: seq<Txid>)
    requires n <= |x.outs(t)| && NoRepeats(v)
    requires forall i :: 0 <= i < n && SpentOut(x, asset, t, i) ==> x.spends(t)[i].txid.Some? && x.spends(t)[i].txid.value in v
    ensures SumOver(u => MovedTo(x, asset, t, n, u), v, |v|) == MovedOut(x, asset, t, n)
  {
    if n == 0 {
      SumOverSame(u => MovedTo(x, asset, t, 0, u), u => 0, v, |v|);
      SumOverNothing(v, |v|);
    } else {
      MovedSomewhere(x, asset, t, n - 1, v);
      var last := (u: Txid) => if MovedAt(x, asset, t, n - 1, u) then Amount(x, asset, t, n - 1) else 0;
      SumOverAdds(u => MovedTo(x, asset, t, n, u), u => MovedTo(x, asset, t, n - 1, u), last, v, |v|);
      LastMoved(x, asset, t, n - 1, v, last);
    }
  }

  lemma LastMoved(x: Explorer, asset: Asset, t: Txid, i: nat, v: seq<Txid>, last: Txid -> nat)
    requires i < |x.outs(t)| && NoRepeats(v)
    requires SpentOut(x, asset, t, i) ==> x.spends(t)[i].txid.Some? && x.spends(t)[i].txid.value in v
    requires forall u :: last(u) == if MovedAt(x, asset, t, i, u) then Amount(x, asset, t, i) else 0
    ensures SumOver(last, v, |v|) == if SpentOut(x, asset, t, i) then Amount(x, asset, t, i) else 0
  {
    assert v[..|v|] == v;
    if SpentOut(x, asset, t, i) {
      SumOverOne(last, x.spends(t)[i].txid.value, Amount(x, asset, t, i), v, |v|);
    } else {
      SumOverSame(last, u => 0, v, |v|);
      SumOverNothing(v, |v|);
    }
  }

  // ---- the account ----

  function Outs(x: Explorer, t: Txid): nat {
    |x.outs(t)|
  }

  /** What a transaction takes in of the asset from the transactions visited. */
  function TakenIn(x: Explorer, asset: Asset, v: seq<Txid>, t: Txid): nat {
    SumOver(u => MovedTo(x, asset, u, Outs(x, u), t), v, |v|)
  }

  function All(x: Explorer, asset: Asset): Txid -> nat {
    t => AllOut(x, asset, t, Outs(x, t))
  }

  function Held(x: Explorer, asset: Asset): Txid -> nat {
    t => HeldOut(x, asset, t, Outs(x, t))
  }

  function Scriptless(x: Explorer, asset: Asset): Txid -> nat {
    t => ScriptlessOut(x, asset, t, Outs(x, t))
  }

  function Moved(x: Explorer, asset: Asset): Txid -> nat {
    t => MovedOut(x, asset, t, Outs(x, t))
  }

  function Taken(x: Explorer, asset: Asset, v: seq<Txid>): Txid -> nat {
    t => TakenIn(x, asset, v, t)
  }

  /** Every transaction visited passes on exactly what it takes in, and the root what is
      issued besides: all asset inputs come from transactions of the walk. */
  ghost predicate Conserves(x: Explorer, asset: Asset, v: seq<Txid>, root: Txid, issued: nat) {
    forall t :: t in v ==>
      AllOut(x, asset, t, Outs(x, t)) == TakenIn(x, asset, v, t) + (if t == root then issued else 0)
  }

  /** Every spent output names the transaction that spent it. */
  ghost predicate SpendersNamed(x: Explorer, asset: Asset, v: seq<Txid>) {
    forall t, i: nat :: t in v && SpentOut(x, asset, t, i) ==> x.spends(t)[i].txid.Some?
  }

  function RowAtoms(rows: seq<Row>): (r: seq<nat>)
    ensures |r| == |rows| && forall i :: 0 <= i < |r| ==> r[i] == rows[i].atoms
  {
    seq(|rows|, i requires 0 <= i < |rows| => rows[i].atoms)
  }

  lemma RowAtomsJoin(a: seq<Row>, b: seq<Row>)
    ensures Sum(RowAtoms(a + b)) == Sum(RowAtoms(a)) + Sum(RowAtoms(b))
  {
    assert RowAtoms(a + b) == RowAtoms(a) + RowAtoms(b);
    SumAppend(RowAtoms(a), RowAtoms(b));
  }

  lemma {:induction false} HeldOutIsRows(x: Explorer, asset: Asset, t: Txid, n: nat)
    requires n <= |x.outs(t)|
    ensures Sum(RowAtoms(HoldersOf(x, asset, t, n))) == HeldOut(x, asset, t, n)
  {
    if n > 0 {
      HeldOutIsRows(x, asset, t, n - 1);
      if HolderAt(x, asset, t, n - 1) {
        RowAtomsJoin(HoldersOf(x, asset, t, n - 1), [RowAt(x, t, n - 1)]);
        SumSnoc([], x.outs(t)[n - 1].value);
        assert RowAtoms([RowAt(x, t, n - 1)]) == [] + [x.outs(t)[n - 1].value];
      } else {
        assert HoldersOf(x, asset, t, n) == HoldersOf(x, asset, t, n - 1);
      }
    }
  }

  lemma {:induction false} RowsAreHeld(x: Explorer, asset: Asset, v: seq<Txid>, k: nat)
    requires k <= |v|
    ensures Sum(RowAtoms(Holders(x, asset, v, k))) == SumOver(Held(x, asset), v, k)
  {
    if k > 0 {
      RowsAreHeld(x, asset, v, k - 1);
      RowAtomsJoin(Holders(x, asset, v, k - 1), HoldersOf(x, asset, v[k - 1], Outs(x, v[k - 1])));
      HeldOutIsRows(x, asset, v[k - 1], Outs(x, v[k - 1]));
    }
  }

  /** All that moved out of the walk's transactions was taken in by them. */
  lemma MovedIsTakenIn(x: Explorer, asset: Asset, v: seq<Txid>)
    requires NoRepeats(v) && SpendersNamed(x, asset, v)
    requires forall t, u :: t in v && MovedInto(x, asset, t, u) ==> u in v
    ensures SumOver(Taken(x, asset, v), v, |v|) == SumOver(Moved(x, asset), v, |v|)
  {
    var f := (u: Txid, t: Txid) => MovedTo(x, asset, u, Outs(x, u), t);
    SumOverSame(Taken(x, asset, v), t => SumOver(u => f(u, t), v, |v|), v, |v|) by {
      forall i | 0 <= i < |v| ensures TakenIn(x, asset, v, v[i]) == SumOver(u => f(u, v[i]), v, |v|) {
        SumOverSame(u => MovedTo(x, asset, u, Outs(x, u), v[i]), u => f(u, v[i]), v, |v|);
      }
    }
    SumOverSwap(f, v, |v|, |v|);
    SumOverSame(u => SumOver(t => f(u, t), v, |v|), Moved(x, asset), v, |v|) by {
      forall i | 0 <= i < |v| ensures SumOver(t => f(v[i], t), v, |v|) == MovedOut(x, asset, v[i], Outs(x, v[i])) {
        SpendersVisited(x, asset, v, v[i]);
        MovedSomewhere(x, asset, v[i], Outs(x, v[i]), v);
        SumOverSame(t => f(v[i], t), t => MovedTo(x, asset, v[i], Outs(x, v[i]), t), v, |v|);
      }
    }
  }

  lemma SpendersVisited(x: Explorer, asset: Asset, v: seq<Txid>, t: Txid)
    requires t in v && SpendersNamed(x, asset, v) && forall t, u :: t in v && MovedInto(x, asset, t, u) ==> u in v
    ensures forall i :: 0 <= i < Outs(x, t) && SpentOut(x, asset, t, i)
              ==> x.spends(t)[i].txid.Some? && x.spends(t)[i].txid.value in v
  {
    forall i | 0 <= i < Outs(x, t) && SpentOut(x, asset, t, i)
      ensures x.spends(t)[i].txid.Some? && x.spends(t)[i].txid.value in v
    {
      assert MovedAt(x, asset, t, i, x.spends(t)[i].txid.value);
    }
  }

  /** What a walk that emptied its frontier lists, and the scriptless outputs it skipped, make
      up the amount issued. */
  lemma WalkAccountsForSupply(x: Explorer, asset: Asset, root: Txid, v: seq<Txid>, issued: nat)
    requires NoRepeats(v) && forall t :: t in v <==> Reach(x, asset, root, t)
    requires Conserves(x, asset, v, root, issued) && SpendersNamed(x, asset, v)
    ensures Sum(RowAtoms(Holders(x, asset, v, |v|))) + SumOver(Scriptless(x, asset), v, |v|)
            == issued
  {
    forall t, u | t in v && MovedInto(x, asset, t, u) ensures u in v {
      ReachOn(x, asset, root, t, u);
    }
    MovedIsTakenIn(x, asset, v);
    RowsAreHeld(x, asset, v, |v|);
    ReachRoot(x, asset, root);
    SupplyAddsUp(x, asset, root, v, issued);
  }

  lemma SupplyAddsUp(x: Explorer, asset: Asset, root: Txid, v: seq<Txid>, issued: nat)
    requires NoRepeats(v) && root in v && Conserves(x, asset, v, root, issued)
    ensures SumOver(Held(x, asset), v, |v|)
            + SumOver(Scriptless(x, asset), v, |v|)
            + SumOver(Moved(x, asset), v, |v|)
            == SumOver(Taken(x, asset, v), v, |v|) + issued
  {
    hide AllOut, HeldOut, ScriptlessOut, MovedOut, TakenIn, MovedTo, SumOver;
    var kept := (t: Txid) => HeldOut(x, asset, t, Outs(x, t)) + ScriptlessOut(x, asset, t, Outs(x, t));
    var minted := (t: Txid) => if t == root then issued else 0;
    forall i | 0 <= i < |v| ensures All(x, asset)(v[i]) == kept(v[i]) + Moved(x, asset)(v[i]) {
      OutputsSplit(x, asset, v[i], Outs(x, v[i]));
    }
    SumOverAdds(All(x, asset), kept, Moved(x, asset), v, |v|);
    SumOverAdds(kept, Held(x, asset), Scriptless(x, asset), v, |v|);
    SumOverAdds(All(x, asset), Taken(x, asset, v), minted, v, |v|);
    SumOverOne(minted, root, issued, v, |v|);
    assert v[..|v|] == v;
  }
}
