/** Finding an asset's holders by walking its transactions forward from the issuance. */
module AssetWalk {
  import opened Prelude
  import opened Chain

  /** An output as the explorer lists it, and whether and by what it is spent. */
  datatype Listed = Listed(asset: Asset, value: nat, script: Script)

  datatype Outspend = Outspend(spent: bool, txid: Option<Txid>)

  /** answers tells whether the requests for one transaction and for its outspends are answered. */
  datatype Explorer = Explorer(answers: Txid -> bool, outs: Txid -> seq<Listed>, spends: Txid -> seq<Outspend>)

  datatype Row = Row(outpoint: Outpoint, script: Script, atoms: nat)

  /** The walk gives up after this many steps. */
  const MAX_STEPS: nat := 5000

  /** Carries the asset to a script. */
  predicate Carries(o: Listed, asset: Asset) {
    o.asset == asset && o.value > 0 && o.script != NO_SCRIPT
  }

  predicate SpentAt(x: Explorer, t: Txid, i: nat) {
    i < |x.spends(t)| && x.spends(t)[i].spent
  }

  predicate HolderAt(x: Explorer, asset: Asset, t: Txid, i: nat) {
    i < |x.outs(t)| && Carries(x.outs(t)[i], asset) && !SpentAt(x, t, i)
  }

  /** Output i of t moved the asset on into u. */
  predicate MovedAt(x: Explorer, asset: Asset, t: Txid, i: nat, u: Txid) {
    i < |x.outs(t)| && Carries(x.outs(t)[i], asset) && SpentAt(x, t, i) && x.spends(t)[i].txid == Some(u)
  }

  predicate MovedInto(x: Explorer, asset: Asset, t: Txid, u: Txid) {
    exists i :: 0 <= i < |x.outs(t)| && MovedAt(x, asset, t, i, u)
  }

  // ---- what can be reached ----

  ghost predicate Path(x: Explorer, asset: Asset, path: seq<Txid>) {
    forall k :: 0 < k < |path| ==> MovedInto(x, asset, path[k - 1], path[k])
  }

  /** The asset went from the root to t through spent outputs carrying it. */
  ghost predicate Reach(x: Explorer, asset: Asset, root: Txid, t: Txid) {
    exists path :: path != [] && path[0] == root && path[|path| - 1] == t && Path(x, asset, path)
  }

  lemma ReachRoot(x: Explorer, asset: Asset, root: Txid)
    ensures Reach(x, asset, root, root)
  {
    assert Path(x, asset, [root]) && [root][0] == root;
  }

  lemma ReachOn(x: Explorer, asset: Asset, root: Txid, t: Txid, u: Txid)
    requires Reach(x, asset, root, t) && MovedInto(x, asset, t, u)
    ensures Reach(x, asset, root, u)
  {
    var path :| path != [] && path[0] == root && path[|path| - 1] == t && Path(x, asset, path);
    var more := path + [u];
    assert Path(x, asset, more) && more[0] == root && more[|more| - 1] == u;
  }

  /** A set that contains the root and everything moved into from it contains all that is reached. */
  lemma {:induction false} ClosedContains(x: Explorer, asset: Asset, closed: set<Txid>, path: seq<Txid>, k: nat)
    requires k < |path| && path[0] in closed && Path(x, asset, path)
    requires forall t, u :: t in closed && MovedInto(x, asset, t, u) ==> u in closed
    ensures path[k] in closed
  {
    if k > 0 { ClosedContains(x, asset, closed, path, k - 1); }
  }

  // ---- the rows ----

  function RowAt(x: Explorer, t: Txid, i: nat): Row
    requires i < |x.outs(t)|
  {
    Row(Outpoint(t, i), x.outs(t)[i].script, x.outs(t)[i].value)
  }

  /** The holders among the first n outputs of a transaction. */
  function HoldersOf(x: Explorer, asset: Asset, t: Txid, n: nat): (r: seq<Row>)
    requires n <= |x.outs(t)|
  {
    if n == 0 then []
    else HoldersOf(x, asset, t, n - 1) + (if HolderAt(x, asset, t, n - 1) then [RowAt(x, t, n - 1)] else [])
  }

  /** The holders of the first k transactions visited. */
  function Holders(x: Explorer, asset: Asset, visited: seq<Txid>, k: nat): seq<Row>
    requires k <= |visited|
  {
    if k == 0 then []
    else Holders(x, asset, visited, k - 1) + HoldersOf(x, asset, visited[k - 1], |x.outs(visited[k - 1])|)
  }

  predicate IsHolder(x: Explorer, asset: Asset, r: Row) {
    var t, i := r.outpoint.txid, r.outpoint.vout;
    HolderAt(x, asset, t, i) && r == RowAt(x, t, i)
  }

  /** An output of the asset that is listed, above zero, to a script, and not spent. */
  predicate Unspent(x: Explorer, asset: Asset, t: Txid, i: nat) {
    && i < |x.outs(t)| && x.outs(t)[i].asset == asset && x.outs(t)[i].value > 0 && x.outs(t)[i].script != NO_SCRIPT
    && !(i < |x.spends(t)| && x.spends(t)[i].spent)
  }

  /** A row is of an unspent output, under that output's own script and with its value. */
  lemma HolderRowIs(x: Explorer, asset: Asset, r: Row)
    ensures IsHolder(x, asset, r) <==>
            && Unspent(x, asset, r.outpoint.txid, r.outpoint.vout)
            && r.script == x.outs(r.outpoint.txid)[r.outpoint.vout].script
            && r.atoms == x.outs(r.outpoint.txid)[r.outpoint.vout].value
  {
  }

  /** No outpoint twice. */
  predicate Differ(rows: seq<Row>) {
    forall i, j :: 0 <= i < j < |rows| ==> rows[i].outpoint != rows[j].outpoint
  }

  lemma {:induction false} HoldersOfAre(x: Explorer, asset: Asset, t: Txid, n: nat)
    requires n <= |x.outs(t)|
    ensures var rows := HoldersOf(x, asset, t, n);
            && (forall r :: r in rows <==> IsHolder(x, asset, r) && r.outpoint.txid == t && r.outpoint.vout < n)
            && Differ(rows)
  {
    if n > 0 { HoldersOfAre(x, asset, t, n - 1); }
  }

  lemma {:induction false} HoldersAre(x: Explorer, asset: Asset, visited: seq<Txid>, k: nat)
    requires k <= |visited|
    ensures forall r :: r in Holders(x, asset, visited, k) <==> IsHolder(x, asset, r) && r.outpoint.txid in visited[..k]
  {
    if k > 0 {
      HoldersAre(x, asset, visited, k - 1);
      HoldersOfAre(x, asset, visited[k - 1], |x.outs(visited[k - 1])|);
      assert visited[..k] == visited[..k - 1] + [visited[k - 1]];
    }
  }

  predicate NoRepeats(s: seq<Txid>) {
    forall i, j :: 0 <= i < j < |s| ==> s[i] != s[j]
  }

  lemma OneList(a: seq<Row>, b: seq<Row>)
    requires Differ(a) && Differ(b)
    requires forall i, j :: 0 <= i < |a| && 0 <= j < |b| ==> a[i].outpoint != b[j].outpoint
    ensures Differ(a + b)
  {
  }

  lemma {:induction false} HoldersDiffer(x: Explorer, asset: Asset, visited: seq<Txid>, k: nat)
    requires k <= |visited| && NoRepeats(visited)
    ensures Differ(Holders(x, asset, visited, k))
  {
    if k > 0 {
      HoldersDiffer(x, asset, visited, k - 1);
      HoldersAre(x, asset, visited, k - 1);
      HoldersOfAre(x, asset, visited[k - 1], |x.outs(visited[k - 1])|);
      var before, here := Holders(x, asset, visited, k - 1), HoldersOf(x, asset, visited[k - 1], |x.outs(visited[k - 1])|);
      forall i, j | 0 <= i < |before| && 0 <= j < |here| ensures before[i].outpoint != here[j].outpoint {
        assert before[i] in before && here[j] in here;
        assert before[i].outpoint.txid in visited[..k - 1];
      }
      OneList(before, here);
    }
  }

  // ---- the walk ----

  /** Nothing moved out of what was seen is forgotten. */
  ghost predicate Followed(x: Explorer, asset: Asset, seen: set<Txid>, frontier: seq<Txid>) {
    forall t, u :: t in seen && MovedInto(x, asset, t, u) ==> u in seen || u in frontier
  }

  /** An emptied frontier leaves nothing reachable unseen. */
  lemma NothingLeft(x: Explorer, asset: Asset, root: Txid, seen: set<Txid>)
    requires root in seen && Followed(x, asset, seen, [])
    ensures forall t :: Reach(x, asset, root, t) ==> t in seen
  {
    forall t | Reach(x, asset, root, t) ensures t in seen {
      var path :| path != [] && path[0] == root && path[|path| - 1] == t && Path(x, asset, path);
      ClosedContains(x, asset, seen, path, |path| - 1);
    }
  }

  /** Reads one transaction: its unspent outputs are rows, its spent ones lead on. */
  method Visit(x: Explorer, asset: Asset, t: Txid, seen: set<Txid>) returns (rows: seq<Row>, next: seq<Txid>)
    requires t in seen
    ensures rows == HoldersOf(x, asset, t, |x.outs(t)|)
    ensures forall u :: u in next ==> MovedInto(x, asset, t, u)
    ensures forall u :: MovedInto(x, asset, t, u) ==> u in seen || u in next
  {
    rows, next := [], [];
    var outs, spends := x.outs(t), x.spends(t);
    for i := 0 to |outs|
      invariant rows == HoldersOf(x, asset, t, i)
      invariant forall u :: u in next ==> MovedInto(x, asset, t, u)
      invariant forall k, u :: 0 <= k < i && MovedAt(x, asset, t, k, u) ==> u in seen || u in next
    {
      if outs[i].asset != asset || outs[i].value == 0 || outs[i].script == NO_SCRIPT {
        continue;
      }
      if i < |spends| && spends[i].spent {
        if spends[i].txid.Some? && spends[i].txid.value !in seen {
          assert MovedAt(x, asset, t, i, spends[i].txid.value);
          next := next + [spends[i].txid.value];
        }
        continue;
      }
      rows := rows + [Row(Outpoint(t, i), outs[i].script, outs[i].value)];
    }
  }

  /** Walks forward from the issuance; no rows at all when a request fails. complete tells an
      emptied frontier from the step limit. */
  method Walk(x: Explorer, asset: Asset, root: Txid)
    returns (found: Option<seq<Row>>, complete: bool, ghost visited: seq<Txid>, ghost steps: nat)
    ensures found.Some? && !complete ==> steps == 5000
    ensures NoRepeats(visited) && forall t :: t in visited ==> Reach(x, asset, root, t)
    ensures found == None <==> exists t :: t in visited && !x.answers(t)
    ensures found.Some? ==>
              && found.value == Holders(x, asset, visited, |visited|) && Differ(found.value)
              && forall r :: r in found.value ==> IsHolder(x, asset, r) && Reach(x, asset, root, r.outpoint.txid)
    ensures complete ==> found.Some? && forall t :: Reach(x, asset, root, t) ==> t in visited
    ensures complete ==> forall r :: IsHolder(x, asset, r) && Reach(x, asset, root, r.outpoint.txid) ==> r in found.value
  {
    hide Reach, MovedInto, IsHolder;
    var out: seq<Row> := [];
    complete, visited := false, [];
    var frontier := [root];
    var seen: set<Txid> := {};
    var step := 0;
    ReachRoot(x, asset, root);
    while |frontier| > 0 && step < MAX_STEPS
      invariant NoRepeats(visited) && forall t :: t in seen <==> t in visited
      invariant out == Holders(x, asset, visited, |visited|)
      invariant forall t :: t in visited || t in frontier ==> Reach(x, asset, root, t)
      invariant forall t :: t in visited ==> x.answers(t)
      invariant (root in seen || root in frontier) && step <= MAX_STEPS
      invariant Followed(x, asset, seen, frontier)
      decreases MAX_STEPS - step
    {
      var t := frontier[0];
      assert frontier == [t] + frontier[1..];
      frontier := frontier[1..];
      step := step + 1;
      if t in seen {
        continue;
      }
      seen := seen + {t};
      if !x.answers(t) {
        visited := visited + [t];
        return None, false, visited, step;
      }
      var rows, next := Visit(x, asset, t, seen);
      forall u | u in next ensures Reach(x, asset, root, u) {
        ReachOn(x, asset, root, t, u);
      }
      HoldersGrow(x, asset, visited, t);
      frontier, visited, out := frontier + next, visited + [t], out + rows;
    }
    complete, steps := frontier == [], step;
    if complete {
      NothingLeft(x, asset, root, seen);
    }
    HoldersAre(x, asset, visited, |visited|);
    HoldersDiffer(x, asset, visited, |visited|);
    assert visited[..|visited|] == visited;
    found := Some(out);
  }

  lemma {:induction false} HoldersAgree(x: Explorer, asset: Asset, a: seq<Txid>, b: seq<Txid>, k: nat)
    requires k <= |a| && k <= |b| && forall i :: 0 <= i < k ==> a[i] == b[i]
    ensures Holders(x, asset, a, k) == Holders(x, asset, b, k)
  {
    if k > 0 { HoldersAgree(x, asset, a, b, k - 1); }
  }

  lemma HoldersGrow(x: Explorer, asset: Asset, visited: seq<Txid>, t: Txid)
    ensures Holders(x, asset, visited + [t], |visited| + 1)
            == Holders(x, asset, visited, |visited|) + HoldersOf(x, asset, t, |x.outs(t)|)
  {
    HoldersAgree(x, asset, visited + [t], visited, |visited|);
  }
}
