/** Claims on a corporate action: each takes snapshot outpoints nobody has claimed, and a
    dividend claim its share of the pool. */
module ActionClaims {
  import opened Prelude
  import opened Money
  import opened Chain
  import opened AssetWalk
  import opened AssetSupply
  import opened Register

  datatype Claim = Claim(
    id: nat, outpoints: seq<Outpoint>, atoms: nat, gross: nat, withheld: nat, net: nat)

  datatype Refusal = NoOutpoints | NotInSnapshot | NotYours | BadFields | NotSigned | AlreadyClaimed

  datatype ActionKind = Dividend | Vote

  // ---- atoms by outpoint ----

  /** The atoms of a set of outpoints among the first k snapshot rows. */
  function AtomsOf(rows: seq<Row>, ops: set<Outpoint>, k: nat): nat
    requires k <= |rows|
  {
    if k == 0 then 0
    else AtomsOf(rows, ops, k - 1) + (if rows[k - 1].outpoint in ops then rows[k - 1].atoms else 0)
  }

  lemma {:induction false} AtomsOfNothing(rows: seq<Row>, k: nat)
    requires k <= |rows|
    ensures AtomsOf(rows, {}, k) == 0
  {
    if k > 0 { AtomsOfNothing(rows, k - 1); }
  }

  lemma {:induction false} AtomsOfBoth(rows: seq<Row>, a: set<Outpoint>, b: set<Outpoint>, k: nat)
    requires k <= |rows| && a !! b
    ensures AtomsOf(rows, a + b, k) == AtomsOf(rows, a, k) + AtomsOf(rows, b, k)
  {
    if k > 0 { AtomsOfBoth(rows, a, b, k - 1); }
  }

  lemma {:induction false} AtomsOfAtMostAll(rows: seq<Row>, ops: set<Outpoint>, k: nat)
    requires k <= |rows|
    ensures AtomsOf(rows, ops, k) <= SumTo(RowAtoms(rows), k)
  {
    if k > 0 { AtomsOfAtMostAll(rows, ops, k - 1); }
  }

  /** One more outpoint adds its own row's atoms. */
  lemma {:induction false} AtomsOfOne(rows: seq<Row>, i: nat, k: nat)
    requires i < |rows| && k <= |rows| && Differ(rows)
    ensures AtomsOf(rows, {rows[i].outpoint}, k) == if i < k then rows[i].atoms else 0
  {
    if k > 0 { AtomsOfOne(rows, i, k - 1); }
  }

  function OpSet(ops: seq<Outpoint>): set<Outpoint> {
    set o | o in ops
  }

  // ---- what claims together take ----

  /** The outpoints of the first k claims. */
  function ClaimedBy(claims: seq<Claim>, k: nat): set<Outpoint>
    requires k <= |claims|
  {
    if k == 0 then {} else ClaimedBy(claims, k - 1) + OpSet(claims[k - 1].outpoints)
  }

  function ClaimAtoms(claims: seq<Claim>): (r: seq<nat>)
    ensures |r| == |claims| && forall i :: 0 <= i < |r| ==> r[i] == claims[i].atoms
  {
    seq(|claims|, i requires 0 <= i < |claims| => claims[i].atoms)
  }

  function ClaimGross(claims: seq<Claim>): (r: seq<nat>)
    ensures |r| == |claims| && forall i :: 0 <= i < |r| ==> r[i] == claims[i].gross
  {
    seq(|claims|, i requires 0 <= i < |claims| => claims[i].gross)
  }

  /** No outpoint is in two claims, and each claim has the atoms of its own. */
  ghost predicate Apart(rows: seq<Row>, claims: seq<Claim>) {
    && (forall i, j :: 0 <= i < j < |claims| ==> OpSet(claims[i].outpoints) !! OpSet(claims[j].outpoints))
    && (forall i :: 0 <= i < |claims| ==> claims[i].atoms == AtomsOf(rows, OpSet(claims[i].outpoints), |rows|))
  }

  lemma {:induction false} ClaimedByIs(claims: seq<Claim>, k: nat)
    requires k <= |claims|
    ensures forall o :: o in ClaimedBy(claims, k) <==> exists i :: 0 <= i < k && o in OpSet(claims[i].outpoints)
  {
    if k > 0 { ClaimedByIs(claims, k - 1); }
  }

  lemma {:induction false} ClaimsAddUp(rows: seq<Row>, claims: seq<Claim>, k: nat)
    requires k <= |claims| && Apart(rows, claims)
    ensures SumTo(ClaimAtoms(claims), k) == AtomsOf(rows, ClaimedBy(claims, k), |rows|)
  {
    if k == 0 {
      AtomsOfNothing(rows, |rows|);
    } else {
      ClaimsAddUp(rows, claims, k - 1);
      ClaimedByIs(claims, k - 1);
      AtomsOfBoth(rows, ClaimedBy(claims, k - 1), OpSet(claims[k - 1].outpoints), |rows|);
    }
  }

  /** However many claims are made, they never claim more than the snapshot holds. */
  lemma ClaimedWithinSnapshot(rows: seq<Row>, claims: seq<Claim>)
    requires Apart(rows, claims)
    ensures Sum(ClaimAtoms(claims)) <= Sum(RowAtoms(rows))
  {
    ClaimsAddUp(rows, claims, |claims|);
    AtomsOfAtMostAll(rows, ClaimedBy(claims, |claims|), |rows|);
  }

  /** ... and their gross dividends never more than the pool. */
  lemma PaidWithinPool(rows: seq<Row>, claims: seq<Claim>, pool: nat)
    requires Apart(rows, claims) && pool < U64 && 0 < Sum(RowAtoms(rows))
    requires forall i :: 0 <= i < |claims| ==> claims[i].gross == MulDiv(pool, claims[i].atoms, Sum(RowAtoms(rows)))
    ensures Sum(ClaimGross(claims)) <= pool
  {
    var total := Sum(RowAtoms(rows));
    var atoms := ClaimAtoms(claims);
    ClaimedWithinSnapshot(rows, claims);
    forall i | 0 <= i < |atoms| ensures atoms[i] <= total {
      EachAtMostSum(atoms, i, |atoms|);
    }
    SharesBound(pool, atoms, total, |atoms|);
    assert ClaimGross(claims) == Shares(pool, atoms, total);
    MulLe(pool, Sum(atoms), total);
    MulCancel(Sum(ClaimGross(claims)), pool, total);
  }

  // ---- the store and the handler ----

  class ActionBook {
    const kind: ActionKind
    const rows: seq<Row>
    const pool: nat
    /** The claims, and who claimed each outpoint: one row per outpoint, its key. */
    var claims: seq<Claim>
    var claimedBy: map<Outpoint, nat>

    ghost predicate Valid()
      reads this
    {
      && Differ(rows) && pool < U64 && 0 < Sum(RowAtoms(rows)) < U64
      && Apart(rows, claims)
      && claimedBy.Keys == ClaimedBy(claims, |claims|)
      && (forall i :: 0 <= i < |claims| ==>
            && claims[i].gross == (if kind == Dividend then MulDiv(pool, claims[i].atoms, Sum(RowAtoms(rows))) else 0)
            && claims[i].gross == claims[i].net + claims[i].withheld)
    }

    constructor (kind: ActionKind, rows: seq<Row>, pool: nat)
      requires Differ(rows) && pool < U64 && 0 < Sum(RowAtoms(rows)) < U64
      ensures Valid() && this.kind == kind && this.rows == rows && this.pool == pool && claims == []
    {
      this.kind := kind;
      this.rows, this.pool, claims, claimedBy := rows, pool, [], map[];
    }

    method FindRow(o: Outpoint) returns (found: Option<nat>)
      ensures found.Some? ==> found.value < |rows| && rows[found.value].outpoint == o
      ensures found == None ==> forall i :: 0 <= i < |rows| ==> rows[i].outpoint != o
    {
      for i := 0 to |rows|
        invariant forall j :: 0 <= j < i ==> rows[j].outpoint != o
      {
        if rows[i].outpoint == o {
          return Some(i);
        }
      }
      return None;
    }

    /** Each outpoint named, once; a blank name is passed over. */
    method Dedupe(named: seq<Option<Outpoint>>) returns (ops: seq<Outpoint>)
      ensures OpSet(ops) == NamedOps(named) && DistinctOps(ops)
    {
      ops := [];
      for k := 0 to |named|
        invariant OpSet(ops) == NamedOps(named[..k]) && DistinctOps(ops)
      {
        assert named[..k + 1] == named[..k] + [named[k]];
        if named[k] == None {
          assert NamedOps(named[..k + 1]) == NamedOps(named[..k]);
          continue;
        }
        var o := named[k].value;
        assert NamedOps(named[..k + 1]) == NamedOps(named[..k]) + {o};
        if o !in ops {
          assert OpSet(ops + [o]) == OpSet(ops) + {o};
          ops := ops + [o];
        } else {
          assert o in OpSet(ops);
        }
      }
      assert named[..|named|] == named;
    }

    /** Adds up the outpoints' atoms; each must be in the snapshot, under the claimant's script. */
    method Weigh(ops: seq<Outpoint>, script: Script) returns (atoms: nat, bad: Option<Refusal>)
      requires Valid() && DistinctOps(ops)
      ensures bad == None <==> Owns(rows, ops, script)
      ensures bad == None ==> atoms == AtomsOf(rows, OpSet(ops), |rows|)
      ensures bad.Some? ==> bad.value == NotInSnapshot || bad.value == NotYours
      ensures bad.Some? ==> exists k :: 0 <= k < |ops| && Refused(rows, ops[k], script, bad.value)
    {
      atoms, bad := 0, None;
      AtomsOfNothing(rows, |rows|);
      assert OpSet(ops[..0]) == {};
      for k := 0 to |ops|
        invariant bad == None && Owns(rows, ops[..k], script)
        invariant atoms == AtomsOf(rows, OpSet(ops[..k]), |rows|)
      {
        var at := FindRow(ops[k]);
        if at == None {
          assert Refused(rows, ops[k], script, NotInSnapshot);
          return atoms, Some(NotInSnapshot);
        }
        if rows[at.value].script != script {
          assert Refused(rows, ops[k], script, NotYours);
          return atoms, Some(NotYours);
        }
        OneMoreOutpoint(rows, ops, k, at.value);
        atoms := Wrap64(atoms + rows[at.value].atoms);
      }
      assert ops[..|ops|] == ops;
    }

    /** Writes a claim and its outpoints in one transaction: an outpoint already claimed takes
        the whole of it back. */
    method InsertClaim(c: Claim) returns (ok: bool)
      modifies this
      ensures ok <==> DistinctOps(c.outpoints) && OpSet(c.outpoints) !! old(claimedBy).Keys
      ensures ok ==> claims == old(claims) + [c] && claimedBy.Keys == old(claimedBy).Keys + OpSet(c.outpoints)
      ensures !ok ==> claims == old(claims) && claimedBy == old(claimedBy)
    {
      var before, beforeBy := claims, claimedBy;
      claims := claims + [c];
      for k := 0 to |c.outpoints|
        invariant claims == before + [c]
        invariant claimedBy.Keys == beforeBy.Keys + OpSet(c.outpoints[..k])
        invariant OpSet(c.outpoints[..k]) !! beforeBy.Keys && DistinctOps(c.outpoints[..k])
      {
        assert c.outpoints[..k + 1] == c.outpoints[..k] + [c.outpoints[k]];
        if c.outpoints[k] in claimedBy {
          claims, claimedBy := before, beforeBy;
          return false;
        }
        claimedBy := claimedBy[c.outpoints[k] := c.id];
      }
      assert c.outpoints[..|c.outpoints|] == c.outpoints;
      ok := true;
    }

    /** Registers a claim over outpoints the claimant's key controls. fields tells whether the
        payout address or the choice is a valid one, signed whether the holding proof verifies. */
    method HandleClaim(id: nat, named: seq<Option<Outpoint>>, script: Script, fields: bool, signed: bool, tax: Option<Claims>)
      returns (r: Result<Claim, Refusal>)
      requires Valid()
      modifies this
      ensures Valid()
      ensures r.Ok? <==> && named != [] && OwnsAll(rows, NamedOps(named), script) && fields && signed
                         && NamedOps(named) !! ClaimedBy(old(claims), |old(claims)|)
      ensures r.Ok? ==> claims == old(claims) + [r.value] && OpSet(r.value.outpoints) == NamedOps(named)
                        && r.value.id == id && r.value.net == r.value.gross - WithholdingFor(tax, r.value.gross).0
      ensures r.Ok? ==>
                && r.value.atoms == AtomsOf(rows, NamedOps(named), |rows|)
                && r.value.gross == (if kind == Dividend then pool * r.value.atoms / Sum(RowAtoms(rows)) else 0)
                && r.value.net + r.value.withheld == r.value.gross
                && exists bps, status :: Withholds(tax, r.value.gross, r.value.withheld, bps, status)
      ensures r.Ok? && NamedOps(named) == {} ==> r.value.atoms == 0 && r.value.gross == 0
      ensures r.Err? ==> claims == old(claims) && claimedBy == old(claimedBy)
      ensures r.Err? ==>
                match r.error
                case NoOutpoints => named == []
                case BadFields => OwnsAll(rows, NamedOps(named), script) && !fields
                case NotSigned => OwnsAll(rows, NamedOps(named), script) && fields && !signed
                case AlreadyClaimed => OwnsAll(rows, NamedOps(named), script) && fields && signed
                                       && !(NamedOps(named) !! ClaimedBy(old(claims), |old(claims)|))
                case _ => exists o :: o in NamedOps(named) && Refused(rows, o, script, r.error)
    {
      hide AtomsOf, MulDiv, WithholdingFor, OwnsAll, Owns, RowAtoms, NamedOps, Withholds, Refused;
      if named == [] {
        return Err(NoOutpoints);
      }
      var ops := Dedupe(named);
      OwnsTogether(rows, ops, script);
      var atoms, bad := Weigh(ops, script);
      if bad.Some? {
        assert forall k :: 0 <= k < |ops| ==> ops[k] in OpSet(ops);
        return Err(bad.value);
      }
      if !fields {
        return Err(BadFields);
      }
      if !signed {
        return Err(NotSigned);
      }
      AtomsOfAtMostAll(rows, OpSet(ops), |rows|);
      AtomsOfNothing(rows, |rows|);
      var total := Sum(RowAtoms(rows));
      NoShareOfNothing(pool, total);
      ClaimFits(pool, atoms, total);
      var gross := if kind == Dividend then MulDiv(pool, atoms, total) else 0;
      FloorShare(pool, atoms, total);
      WithheldOf(tax, gross);
      var withheld := WithholdingFor(tax, gross).0;
      var c := Claim(id, ops, atoms, gross, withheld, gross - withheld);
      var ok := InsertClaim(c);
      if !ok {
        return Err(AlreadyClaimed);
      }
      TakenOneMore(old(claims), c);
      StillApart(rows, old(claims), c);
      r := Ok(c);
    }
  }

  predicate DistinctOps(ops: seq<Outpoint>) {
    forall i, j :: 0 <= i < j < |ops| ==> ops[i] != ops[j]
  }

  /** Every outpoint is in the snapshot under this script. */
  predicate Owns(rows: seq<Row>, ops: seq<Outpoint>, script: Script) {
    forall k :: 0 <= k < |ops| ==> OwnsOne(rows, ops[k], script)
  }

  /** Why an outpoint cannot be claimed: nobody's in the snapshot, or another's. */
  predicate Refused(rows: seq<Row>, o: Outpoint, script: Script, why: Refusal) {
    if exists i :: 0 <= i < |rows| && rows[i].outpoint == o
    then why == NotYours && exists i :: 0 <= i < |rows| && rows[i].outpoint == o && rows[i].script != script
    else why == NotInSnapshot
  }

  predicate OwnsOne(rows: seq<Row>, o: Outpoint, script: Script) {
    exists i :: 0 <= i < |rows| && rows[i].outpoint == o && rows[i].script == script
  }

  lemma NoShareOfNothing(pool: nat, total: nat)
    ensures MulDiv(pool, 0, total) == 0
  {
  }

  lemma FloorShare(pool: nat, atoms: nat, total: nat)
    requires pool < U64 && atoms <= total && 0 < total
    ensures MulDiv(pool, atoms, total) == pool * atoms / total
  {
    var q := Share(pool, atoms, total);
  }

  lemma WithheldOf(tax: Option<Claims>, gross: nat)
    requires gross < U64
    ensures var w := WithholdingFor(tax, gross); w.0 <= gross && Withholds(tax, gross, w.0, w.1, w.2)
  {
  }

  lemma ClaimFits(pool: nat, atoms: nat, total: nat)
    requires pool < U64 && atoms <= total
    ensures MulDiv(pool, atoms, total) < U64
  {
    if total > 0 { var q := Share(pool, atoms, total); }
  }

  /** One more claim, over outpoints nobody has claimed, keeps the claims apart. */
  lemma StillApart(rows: seq<Row>, claims: seq<Claim>, c: Claim)
    requires Apart(rows, claims) && OpSet(c.outpoints) !! ClaimedBy(claims, |claims|)
    requires c.atoms == AtomsOf(rows, OpSet(c.outpoints), |rows|)
    ensures Apart(rows, claims + [c])
  {
    TakenOneMore(claims, c);
  }

  function NamedOps(named: seq<Option<Outpoint>>): set<Outpoint> {
    set n | n in named && n.Some? :: n.value
  }

  predicate OwnsAll(rows: seq<Row>, ops: set<Outpoint>, script: Script) {
    forall o :: o in ops ==> OwnsOne(rows, o, script)
  }

  lemma OwnsTogether(rows: seq<Row>, ops: seq<Outpoint>, script: Script)
    ensures Owns(rows, ops, script) <==> OwnsAll(rows, OpSet(ops), script)
  {
    if OwnsAll(rows, OpSet(ops), script) {
      forall k | 0 <= k < |ops| ensures OwnsOne(rows, ops[k], script) {
        assert ops[k] in OpSet(ops);
      }
    }
  }

  lemma OneMoreOutpoint(rows: seq<Row>, ops: seq<Outpoint>, k: nat, at: nat)
    requires k < |ops| && at < |rows| && rows[at].outpoint == ops[k] && Differ(rows) && DistinctOps(ops)
    requires Sum(RowAtoms(rows)) < U64
    ensures AtomsOf(rows, OpSet(ops[..k + 1]), |rows|) == AtomsOf(rows, OpSet(ops[..k]), |rows|) + rows[at].atoms < U64
  {
    assert ops[..k + 1] == ops[..k] + [ops[k]];
    assert OpSet(ops[..k + 1]) == OpSet(ops[..k]) + {ops[k]};
    AtomsOfBoth(rows, OpSet(ops[..k]), {ops[k]}, |rows|);
    AtomsOfOne(rows, at, |rows|);
    AtomsOfAtMostAll(rows, OpSet(ops[..k + 1]), |rows|);
  }

  lemma TakenOneMore(claims: seq<Claim>, c: Claim)
    ensures ClaimedBy(claims + [c], |claims| + 1) == ClaimedBy(claims, |claims|) + OpSet(c.outpoints)
    ensures forall i :: 0 <= i < |claims| ==> OpSet(claims[i].outpoints) <= ClaimedBy(claims, |claims|)
  {
    TakenAgrees(claims + [c], claims, |claims|);
    ClaimedByIs(claims, |claims|);
  }

  lemma {:induction false} TakenAgrees(a: seq<Claim>, b: seq<Claim>, k: nat)
    requires k <= |a| && k <= |b| && forall i :: 0 <= i < k ==> a[i] == b[i]
    ensures ClaimedBy(a, k) == ClaimedBy(b, k)
  {
    if k > 0 { TakenAgrees(a, b, k - 1); }
  }
}
