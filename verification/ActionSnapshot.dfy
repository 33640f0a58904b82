/** Freezing an asset's holders at a record height, from the explorer's index and from the
    walk, and resuming where a stop left it. */
module ActionSnapshot {
  import opened Prelude
  import opened Money
  import opened Chain
  import opened AssetWalk
  import opened AssetSupply

  type ByOutpoint = map<Outpoint, Row>

  /** Each row under its own outpoint. */
  predicate Keyed(m: ByOutpoint) {
    forall o :: o in m ==> m[o].outpoint == o
  }

  function Lists(rows: seq<Row>): set<Outpoint> {
    set r | r in rows :: r.outpoint
  }

  lemma NothingListed()
    ensures Lists([]) == {}
  {
  }

  /** Adds rows under their outpoints, in place of what was there. */
  method AddRows(m: ByOutpoint, rows: seq<Row>) returns (more: ByOutpoint)
    requires Keyed(m)
    ensures Keyed(more) && more.Keys == m.Keys + Lists(rows)
    ensures forall o :: o in more ==> more[o] in rows || (o in m && more[o] == m[o])
    ensures forall o :: o in more && o in Lists(rows) ==> more[o] in rows
  {
    more := m;
    for i := 0 to |rows|
      invariant Keyed(more) && more.Keys == m.Keys + Lists(rows[..i])
      invariant forall o :: o in more ==> more[o] in rows || (o in m && more[o] == m[o])
      invariant forall o :: o in Lists(rows[..i]) ==> more[o] in rows
    {
      assert rows[..i + 1] == rows[..i] + [rows[i]];
      assert Lists(rows[..i + 1]) == Lists(rows[..i]) + {rows[i].outpoint};
      more := more[rows[i].outpoint := rows[i]];
    }
    assert rows[..|rows|] == rows;
  }

  /** What the index and the walk list together, the walk's word first; none when neither could
      speak. */
  method AssetUtxos(index: Option<seq<Row>>, walk: Option<seq<Row>>) returns (all: Option<ByOutpoint>)
    ensures all == None <==> index == None && walk == None
    ensures all.Some? ==>
              && Keyed(all.value)
              && all.value.Keys == (if index.Some? then Lists(index.value) else {})
                                   + (if walk.Some? then Lists(walk.value) else {})
              && forall o :: o in all.value ==>
                   if walk.Some? && o in Lists(walk.value) then all.value[o] in walk.value
                   else index.Some? && all.value[o] in index.value
  {
    if index == None && walk == None {
      return None;
    }
    var m: ByOutpoint := map[];
    if index.Some? {
      m := AddRows(m, index.value);
    }
    if walk.Some? {
      m := AddRows(m, walk.value);
    }
    all := Some(m);
  }

  method AddAtoms(rows: seq<Row>) returns (sum: nat)
    ensures sum == Wrap64(Sum(RowAtoms(rows)))
  {
    sum := 0;
    for i := 0 to |rows|
      invariant sum == Wrap64(SumTo(RowAtoms(rows), i))
    {
      WrapAdd(SumTo(RowAtoms(rows), i), rows[i].atoms);
      sum := Wrap64(sum + rows[i].atoms);
    }
  }

  datatype Outcome = Taken | NothingFound | Stopped

  class FrozenSnapshot {
    var rows: seq<Row>
    var total: Option<nat>
    /** How many more writes this process makes before it stops. */
    var budget: nat

    ghost predicate Valid()
      reads this
    {
      && Differ(rows)
      && (total.Some? ==> total.value == Wrap64(Sum(RowAtoms(rows))))
    }

    constructor (budget: nat)
      ensures Valid() && rows == [] && total == None && this.budget == budget
    {
      rows, total, this.budget := [], None, budget;
    }

    /** Freezes one row, unless its outpoint is frozen already. */
    method InsertIfAbsent(r: Row)
      requires Valid() && total == None
      modifies `rows
      ensures Valid() && old(rows) <= rows && Lists(rows) == Lists(old(rows)) + {r.outpoint}
      ensures r.outpoint in Lists(old(rows)) ==> rows == old(rows)
      ensures r.outpoint !in Lists(old(rows)) ==> rows == old(rows) + [r]
    {
      for i := 0 to |rows|
        invariant forall j :: 0 <= j < i ==> rows[j].outpoint != r.outpoint
      {
        if rows[i].outpoint == r.outpoint {
          assert rows[i] in rows && r.outpoint in Lists(rows);
          assert Lists(rows) == Lists(rows) + {r.outpoint};
          return;
        }
      }
      assert r.outpoint !in Lists(rows);
      assert Lists(rows + [r]) == Lists(rows) + {r.outpoint};
      rows := rows + [r];
    }

    /** Freezes every row found, one write each. */
    method Freeze(all: ByOutpoint) returns (r: Outcome)
      requires Valid() && total == None && Keyed(all) && rows == [] && all != map[]
      modifies `rows, `budget
      ensures Valid() && (r == Taken || r == Stopped) && Lists(rows) <= all.Keys
      ensures forall i :: 0 <= i < |rows| ==> rows[i].outpoint in all && rows[i] == all[rows[i].outpoint]
      ensures r == Taken ==> rows != [] && Lists(rows) == all.Keys
    {
      hide Differ, Lists, RowAtoms;
      NothingListed();
      var todo := all.Keys;
      while todo != {}
        modifies `rows, `budget
        invariant Valid() && todo <= all.Keys
        invariant Lists(rows) == all.Keys - todo
        invariant forall i :: 0 <= i < |rows| ==> rows[i].outpoint in all && rows[i] == all[rows[i].outpoint]
        decreases |todo|
      {
        if budget == 0 {
          return Stopped;
        }
        budget := budget - 1;
        var o :| o in todo;
        todo := todo - {o};
        InsertIfAbsent(all[o]);
      }
      ghost var o :| o in all;
      assert o in Lists(rows);
      r := Taken;
    }

    /** Takes the snapshot, or finishes one a stop cut short from the rows already frozen: the
        total is always theirs. A stop between two rows leaves the later ones out. */
    method Take(all: ByOutpoint) returns (r: Outcome)
      requires Valid() && total == None && Keyed(all)
      modifies `rows, `total, `budget
      ensures Valid()
      ensures r == Taken ==> total == Some(Wrap64(Sum(RowAtoms(rows)))) && rows != []
      ensures r == NothingFound <==> old(rows) == [] && all == map[]
      ensures old(rows) != [] ==> rows == old(rows)
      ensures old(rows) == [] && r == Taken ==>
                Lists(rows) == all.Keys && forall i :: 0 <= i < |rows| ==> rows[i] == all[rows[i].outpoint]
      ensures old(rows) == [] && r == Stopped ==> Lists(rows) <= all.Keys
    {
      hide Differ, Lists;
      if rows == [] {
        if all == map[] {
          return NothingFound;
        }
        r := Freeze(all);
        if r == Stopped {
          return;
        }
      }
      var sum := AddAtoms(rows);
      if budget == 0 {
        return Stopped;
      }
      budget := budget - 1;
      total := Some(sum);
      r := Taken;
    }
  }

  /** A walk that ran to its end puts every holder it can reach on the list, whatever the index says. */
  lemma WalkedHoldersAreListed(x: Explorer, asset: Asset, root: Txid, walk: seq<Row>, all: ByOutpoint, r: Row)
    requires forall h :: IsHolder(x, asset, h) && Reach(x, asset, root, h.outpoint.txid) ==> h in walk
    requires Lists(walk) <= all.Keys && Differ(walk)
    requires forall o :: o in all && o in Lists(walk) ==> all[o] in walk && all[o].outpoint == o
    requires IsHolder(x, asset, r) && Reach(x, asset, root, r.outpoint.txid)
    ensures r.outpoint in all && all[r.outpoint] == r
  {
    assert r in walk;
    assert r.outpoint in Lists(walk);
    var other := all[r.outpoint];
    var i :| 0 <= i < |walk| && walk[i] == r;
    var j :| 0 <= j < |walk| && walk[j] == other;
  }
}
