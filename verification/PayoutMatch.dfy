/** Matching a payout transaction's outputs to the holders it must pay. */
module PayoutMatch {
  import opened Prelude
  import opened Chain

  /** What one holder is promised. */
  datatype Promise = Promise(script: Script, atoms: nat)

  datatype MatchError = NoScript(row: nat) | NotPaid(row: nat)

  /** No blinding nonce: none, or the single null byte. */
  predicate NullNonce(o: TxOut) {
    o.nonce == [] || o.nonce == NULL_NONCE
  }

  /** Pays exactly what is promised, in the clear. */
  predicate Pays(o: TxOut, asset: Asset, p: Promise) {
    o.value == Explicit(p.atoms) && o.asset == asset && o.script == p.script && NullNonce(o)
  }

  /** Distinct outputs, one per row, each paying its row. */
  predicate Assigns(outs: seq<TxOut>, asset: Asset, rows: seq<Promise>, at: seq<nat>) {
    && |at| == |rows|
    && (forall i :: 0 <= i < |at| ==> at[i] < |outs| && Pays(outs[at[i]], asset, rows[i]))
    && (forall i, j :: 0 <= i < j < |at| ==> at[i] != at[j])
  }

  predicate AllHaveScripts(rows: seq<Promise>) {
    forall i :: 0 <= i < |rows| ==> rows[i].script != NO_SCRIPT
  }

  // ---- counting ----

  lemma {:induction false} SubsetSize(a: set<nat>, b: set<nat>)
    requires a <= b
    ensures |a| <= |b|
  {
    if a != {} {
      var x :| x in a;
      SubsetSize(a - {x}, b - {x});
    }
  }

  predicate OneToOne(f: seq<nat>, on: set<nat>) {
    && (forall i :: i in on ==> i < |f|)
    && (forall i, j :: i in on && j in on && i != j ==> f[i] != f[j])
  }

  function Image(f: seq<nat>, on: set<nat>): set<nat>
    requires OneToOne(f, on)
  {
    set i | i in on :: f[i]
  }

  lemma {:induction false} ImageSize(f: seq<nat>, on: set<nat>)
    requires OneToOne(f, on)
    ensures |Image(f, on)| == |on|
    decreases |on|
  {
    if on != {} {
      var x :| x in on;
      ImageSize(f, on - {x});
      assert Image(f, on) == Image(f, on - {x}) + {f[x]};
    }
  }

  // ---- why first fit is enough ----

  function Payers(outs: seq<TxOut>, asset: Asset, p: Promise): set<nat> {
    set n | 0 <= n < |outs| && Pays(outs[n], asset, p)
  }

  /** The rows among the first k promised the same. */
  function Alike(rows: seq<Promise>, p: Promise, k: nat): set<nat>
    requires k <= |rows|
  {
    set i | 0 <= i < k && rows[i] == p
  }

  /** Rows that share an output are promised the same, so a payer taken is taken by a row alike. */
  lemma TakenByAlike(outs: seq<TxOut>, asset: Asset, rows: seq<Promise>, at: seq<nat>)
    requires |at| < |rows| && Assigns(outs, asset, rows[..|at|], at)
    requires forall n :: 0 <= n < |outs| && n !in at ==> !Pays(outs[n], asset, rows[|at|])
    ensures |Payers(outs, asset, rows[|at|])| <= |Alike(rows, rows[|at|], |at|)|
  {
    var k := |at|;
    var payers, alike := Payers(outs, asset, rows[k]), Alike(rows, rows[k], k);
    forall n | n in payers ensures n in Image(at, alike) {
      assert n in at;
      var i :| 0 <= i < k && at[i] == n;
      assert rows[..k][i] == rows[i];
      assert i in alike;
    }
    ImageSize(at, alike);
    SubsetSize(payers, Image(at, alike));
  }

  /** Any assignment needs a payer for each row alike. */
  lemma PayersNeeded(outs: seq<TxOut>, asset: Asset, rows: seq<Promise>, at: seq<nat>, p: Promise, k: nat)
    requires k <= |rows| && Assigns(outs, asset, rows, at)
    ensures |Alike(rows, p, k)| <= |Payers(outs, asset, p)|
  {
    ImageSize(at, Alike(rows, p, k));
    SubsetSize(Image(at, Alike(rows, p, k)), Payers(outs, asset, p));
  }

  /** When every output that pays a row is taken, there are more rows alike than payers. */
  lemma TakenMeansHopeless(outs: seq<TxOut>, asset: Asset, rows: seq<Promise>, at: seq<nat>, other: seq<nat>)
    requires |at| < |rows| && Assigns(outs, asset, rows[..|at|], at)
    requires forall n :: 0 <= n < |outs| && n !in at ==> !Pays(outs[n], asset, rows[|at|])
    ensures !Assigns(outs, asset, rows, other)
  {
    hide Pays;
    var k := |at|;
    TakenByAlike(outs, asset, rows, at);
    assert Alike(rows, rows[k], k + 1) == Alike(rows, rows[k], k) + {k};
    if Assigns(outs, asset, rows, other) {
      PayersNeeded(outs, asset, rows, other, rows[k], k + 1);
    }
  }

  /** First fit: for each row the first unused output that pays it. It finds an assignment
      exactly when one exists. */
  method MatchOutputs(outs: seq<TxOut>, asset: Asset, rows: seq<Promise>) returns (r: Result<seq<nat>, MatchError>)
    ensures r.Ok? ==> Assigns(outs, asset, rows, r.value)
    ensures r.Ok? <==> AllHaveScripts(rows) && exists at :: Assigns(outs, asset, rows, at)
    ensures r.Err? && r.error.NotPaid? ==> forall at :: !Assigns(outs, asset, rows, at)
    ensures r.Err? && r.error.NoScript? ==> r.error.row < |rows| && rows[r.error.row].script == NO_SCRIPT
  {
    var used: set<nat> := {};
    var at := [];
    for i := 0 to |rows|
      invariant |at| == i && Assigns(outs, asset, rows[..i], at)
      invariant forall n :: n in used <==> n in at
      invariant forall j :: 0 <= j < i ==> rows[j].script != NO_SCRIPT
    {
      if rows[i].script == NO_SCRIPT {
        return Err(NoScript(i));
      }
      var found := FirstFit(outs, asset, rows[i], used);
      if found == None {
        forall other ensures !Assigns(outs, asset, rows, other) {
          TakenMeansHopeless(outs, asset, rows, at, other);
        }
        return Err(NotPaid(i));
      }
      used := used + {found.value};
      at := at + [found.value];
      assert rows[..i + 1] == rows[..i] + [rows[i]];
    }
    assert rows[..|rows|] == rows;
    return Ok(at);
  }

  method FirstFit(outs: seq<TxOut>, asset: Asset, p: Promise, used: set<nat>) returns (found: Option<nat>)
    ensures found.Some? ==> found.value < |outs| && found.value !in used && Pays(outs[found.value], asset, p)
    ensures found.Some? ==> forall n :: 0 <= n < found.value && n !in used ==> !Pays(outs[n], asset, p)
    ensures found == None ==> forall n :: 0 <= n < |outs| && n !in used ==> !Pays(outs[n], asset, p)
  {
    for n := 0 to |outs|
      invariant forall m :: 0 <= m < n && m !in used ==> !Pays(outs[m], asset, p)
    {
      var o := outs[n];
      if n in used {
        continue;
      }
      if o.value != Explicit(p.atoms) || o.asset != asset || o.script != p.script {
        continue;
      }
      if |o.nonce| > 1 || (|o.nonce| == 1 && o.nonce[0] != 0) {
        continue;
      }
      assert NullNonce(o);
      return Some(n);
    }
    return None;
  }
}
