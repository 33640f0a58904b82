/** The handlers and the watcher that move the escrow's books. Every write they make is
    an event of the protocol, so the books they leave are always where a run leads. */
module EscrowDesk {
  import opened Prelude
  import opened Money
  import opened Chain
  import opened Covenant
  import opened ReturnSpend
  import opened ReleaseFacts
  import opened EscrowTerms
  import opened EscrowProtocol
  import opened EscrowLedger
  import opened CloseLoop
  import opened EscrowPlans
  import opened EscrowMeaning
  import opened EscrowSafety
  import opened EscrowCare
  import opened EscrowFuture

  class Desk {
    const rules: Rules

    /** The store's subscription, settlement and spend rows, the transfers asked for, and the chain's clock. */
    var books: Books
    var ledger: seq<Entry>
    /** How many more store writes this process makes before it stops; none if it does not. */
    var budget: Option<nat>

    /** Every event so far. */
    ghost var log: seq<Event>

    ghost predicate Valid()
      reads this
    {
      rules.Sound() && Leads(rules, log, books)
    }

    constructor (rules: Rules, tip: int, mtp: int, budget: Option<nat>)
      requires rules.Sound()
      ensures Valid() && this.rules == rules && this.budget == budget && log == [] && ledger == []
      ensures books == Books(map[], map[], [], [], Nobody, None, None, tip, mtp)
    {
      this.rules, this.budget, log, ledger := rules, budget, [], [];
      books := Books(map[], map[], [], [], Nobody, None, None, tip, mtp);
      new;
      assert FullRun(rules, [books], []) && [books][0] == books;
    }

    /** Takes and gives back the lock, and reads the clock: steps that write nothing. */
    method Step(e: Event)
      requires Valid() && Enabled(rules, books, e)
      modifies `books, `log
      ensures Valid() && books == After(rules, old(books), e) && log == old(log) + [e]
      ensures !e.Crash? && CrashFree(old(log)) ==> CrashFree(log)
      ensures Inv(rules, old(books)) && Careful(old(books), e) ==> Inv(rules, books)
      ensures Consistent(rules, old(books)) && Gentle(old(books), e) ==> Consistent(rules, books)
    {
      if Inv(rules, books) { EventKeepsIff(rules, books, e); }
      if Consistent(rules, books) && Gentle(books, e) { GentleKeeps(rules, books, e); }
      LeadsOn(rules, log, books, e);
      books, log := After(rules, books, e), log + [e];
    }

    method TakeLock(h: Holder)
      requires Valid() && books.holder == Nobody && h != Nobody
      requires h == Closing ==> CloseGate(rules.terms, rules.blocksPerDay, books.tip, books.mtp)
      modifies `books, `log
      ensures Valid() && books == Locked(old(books), h)
      ensures CrashFree(old(log)) ==> CrashFree(log)
      ensures Inv(rules, old(books)) ==> Inv(rules, books)
      ensures Consistent(rules, old(books)) ==> Consistent(rules, books)
    {
      Step(Enter(h));
    }

    method GiveLock()
      requires Valid() && books.holder != Nobody
      requires Tidy(books.spends, books.latest) && Marked(books.spends, books.latest, books.settlements)
      modifies `books, `log
      ensures Valid() && books == Stopped(old(books))
      ensures CrashFree(old(log)) ==> CrashFree(log)
      ensures Inv(rules, old(books)) ==> Inv(rules, books)
      ensures Consistent(rules, old(books)) ==> Consistent(rules, books)
    {
      Step(Leave);
    }

    /** Another process takes over, with the store as it stands. */
    method Restart(budget: Option<nat>)
      requires Valid() && books.holder == Nobody
      modifies `budget
      ensures Valid() && this.budget == budget
    {
      this.budget := budget;
    }

    /** One write fewer before the process stops. */
    method Spent()
      requires budget != Some(0)
      modifies `budget
      ensures budget == if old(budget).Some? then Some(old(budget).value - 1) else None
    {
      if budget.Some? {
        budget := Some(budget.value - 1);
      }
    }

    /** One write to the store -- or the process stops before it, losing the lock and nothing written. */
    method Write(e: Event) returns (alive: bool)
      requires Valid() && Enabled(rules, books, e)
      modifies `books, `log, `budget
      ensures Valid() && alive == (old(budget) != Some(0))
      ensures old(budget) == None ==> alive && budget == None
      ensures alive && !e.Crash? && CrashFree(old(log)) ==> CrashFree(log)
      ensures Inv(rules, old(books)) && Careful(old(books), e) ==> Inv(rules, books)
      ensures Consistent(rules, old(books)) && Gentle(old(books), e) ==> Consistent(rules, books)
      ensures alive ==> books == After(rules, old(books), e) && log == old(log) + [e]
      ensures !alive ==> books == After(rules, old(books), Crash) && log == old(log) + [Crash]
    {
      alive := budget != Some(0);
      if alive {
        Spent();
        Step(e);
      } else {
        Step(Crash);
      }
    }

    method Restate(at: nat, to: SpendState) returns (alive: bool)
      requires Valid() && books.holder != Nobody && at < |books.spends| && MayMove(rules, books, books.spends[at], to)
      modifies `books, `log, `budget
      ensures Valid()
      ensures old(budget) == None ==> alive && budget == None
      ensures alive && CrashFree(old(log)) ==> CrashFree(log)
      ensures Inv(rules, old(books)) ==> Inv(rules, books)
      ensures Consistent(rules, old(books)) ==> Consistent(rules, books)
      ensures books == if alive then Moved(old(books), at, to) else Stopped(old(books))
    {
      alive := Write(Move(at, to));
    }

    /** Records a spend of coins that are free, for subscriptions it may take. */
    method Record(sp: Spend) returns (alive: bool)
      requires Valid() && books.holder != Nobody
      requires Tidy(books.spends, books.latest) && Marked(books.spends, books.latest, books.settlements)
      requires sp.state == Built && CoinsFree(books.spends, sp.kind, sp.coins)
      requires MayTake(rules, books, sp.kind, Subs(sp.coins))
      modifies `books, `log, `budget
      ensures Valid()
      ensures old(budget) == None ==> alive && budget == None
      ensures alive && CrashFree(old(log)) ==> CrashFree(log)
      ensures Inv(rules, old(books)) && Careful(old(books), Insert(sp)) ==> Inv(rules, books)
      ensures Consistent(rules, old(books)) ==> Consistent(rules, books)
      ensures books == if alive then Inserted(old(books), sp) else Stopped(old(books))
    {
      alive := Write(Insert(sp));
    }

    /** The settlement row is made if there is none. */
    method CreateRow(sub: SubId) returns (alive: bool)
      requires Valid() && books.holder != Nobody && sub in books.subs
      modifies `books, `log, `budget
      ensures Valid()
      ensures old(budget) == None ==> alive && budget == None
      ensures alive && CrashFree(old(log)) ==> CrashFree(log)
      ensures Inv(rules, old(books)) ==> Inv(rules, books)
      ensures books == if alive then WithRow(old(books), sub, RowOf(old(books.settlements), sub)) else Stopped(old(books))
    {
      alive := Write(CreateSettlement(sub));
    }

    method MarkReturned(sub: SubId) returns (alive: bool)
      requires Valid() && books.holder != Nobody && Unsettled(books.subs, sub) && sub in books.settlements
      requires !PhaseIs(books.settlements, sub, Delivering)
      requires books.holder == Closing ==> Returning(books.settlements[sub].phase)
      modifies `books, `log, `budget
      ensures Valid()
      ensures old(budget) == None ==> alive && budget == None
      ensures alive && CrashFree(old(log)) ==> CrashFree(log)
      ensures Inv(rules, old(books)) && (old(books).holder == Closing || Uncovered(old(books).spends, {sub})) ==>
                Inv(rules, books)
      ensures Consistent(rules, old(books)) && (old(books).holder == Closing || Uncovered(old(books).spends, {sub})) ==>
                Consistent(rules, books)
      ensures books == if alive then WithRow(old(books), sub, old(books.settlements)[sub].(phase := AwaitingCancel))
                       else Stopped(old(books))
    {
      if Consistent(rules, books) && (books.holder == Closing || Uncovered(books.spends, {sub})) {
        MarkIsCareful(rules, books, sub);
      }
      alive := Write(AwaitCancel(sub));
    }

    // ---- which coins are taken ----

    /** The coins live spends cover, each with the last spend that covers it. */
    method HeldCoins(except: Option<Kind>) returns (held: map<Outpoint, nat>)
      ensures forall o :: (if o in held then Some(held[o]) else None)
                          == LastHolder(books.spends, |books.spends|, except, o)
    {
      held := map[];
      var spends := books.spends;
      for i := 0 to |spends|
        invariant forall o :: (if o in held then Some(held[o]) else None) == LastHolder(spends, i, except, o)
      {
        if Holds(spends[i], except) {
          held := Hold(held, spends[i].coins, i);
        }
      }
    }

    /** Marks every coin of a spend as held by it. */
    static method Hold(held: map<Outpoint, nat>, coins: seq<Coin>, at: nat) returns (more: map<Outpoint, nat>)
      ensures forall o :: (if o in more then Some(more[o]) else None)
                          == if o in Outpoints(coins) then Some(at) else if o in held then Some(held[o]) else None
    {
      more := held;
      for k := 0 to |coins|
        invariant forall o :: (if o in more then Some(more[o]) else None)
                              == if o in Outpoints(coins[..k]) then Some(at) else if o in held then Some(held[o]) else None
      {
        more := more[coins[k].outpoint := at];
        assert forall o :: o in Outpoints(coins[..k + 1]) <==> o in Outpoints(coins[..k]) || o == coins[k].outpoint;
      }
      assert coins[..|coins|] == coins;
    }

    /** Sets aside every unsigned spend of a kind but the one kept. */
    method SupersedeBuilt(kind: Kind, keep: Option<nat>) returns (alive: bool)
      requires Valid() && books.holder != Nobody && books.asking == None
      modifies `books, `log, `budget
      ensures Valid()
      ensures old(budget) == None ==> alive && budget == None
      ensures alive && CrashFree(old(log)) ==> CrashFree(log)
      ensures Inv(rules, old(books)) ==> Inv(rules, books)
      ensures Consistent(rules, old(books)) ==> Consistent(rules, books)
      ensures if alive then books == Without(old(books), kind, keep) else books.holder == Nobody
    {
      hide Inv, Consistent, CrashFree, Leads, SetAside;
      alive := true;
      ghost var b := books;
      NoneSetAside(b.spends, kind, keep);
      for i := 0 to |books.spends|
        invariant Valid() && alive && (old(budget) == None ==> budget == None)
        invariant Consistent(rules, old(books)) ==> Consistent(rules, books)
        invariant (CrashFree(old(log)) ==> CrashFree(log)) && (Inv(rules, old(books)) ==> Inv(rules, books))
        invariant books == b.(spends := SetAside(b.spends, kind, keep, i))
      {
        SetAsideStep(b.spends, kind, keep, i);
        if Unsigned(books.spends[i], kind) && keep != Some(i) {
          alive := Restate(i, Superseded);
          if !alive { return; }
        }
      }
    }

    // ---- building ----

    /** Lists every coin of the payment asset at these subscriptions' addresses. */
    method LiveCoins(w: World, subs: seq<SubId>) returns (coins: seq<Coin>)
      ensures coins == CoinsOf(w, rules.terms.payAsset, subs, |subs|)
    {
      coins := [];
      for i := 0 to |subs|
        invariant coins == CoinsOf(w, rules.terms.payAsset, subs, i)
      {
        var found, mine := w.utxosAt(subs[i]), [];
        for k := 0 to |found|
          invariant mine == Mine(found, rules.terms.payAsset, subs[i], k)
        {
          if found[k].asset == rules.terms.payAsset {
            mine := mine + [Coin(found[k].outpoint, found[k].atoms, found[k].asset, subs[i])];
          }
        }
        coins := coins + mine;
      }
    }

    /** Whether a new spend of a kind may take all of these coins. */
    method AllFree(kind: Kind, coins: seq<Coin>) returns (free: bool)
      ensures free <==> CoinsFree(books.spends, kind, coins)
    {
      var held := HeldCoins(Some(kind));
      free := true;
      for k := 0 to |coins|
        invariant forall j :: 0 <= j < k ==> CoinFree(books.spends, kind, coins[j].outpoint)
      {
        var o := coins[k].outpoint;
        if o in held && !(kind == Refund && UnsignedCancel(books.spends[held[o]])) {
          return false;
        }
      }
    }

    /** The cancel or refund over every coin of these subscriptions, if it can be built. */
    method PlanReturn(kind: Kind, w: World, subs: seq<SubId>) returns (plan: Option<Spend>)
      requires kind != Release
      ensures plan.Some? <==> MayReturn(w, rules.terms, books.spends, kind, subs)
      ensures plan.Some? ==> Returns(w, rules.terms, kind, subs, plan.value)
    {
      var coins := LiveCoins(w, subs);
      var free := AllFree(kind, coins);
      if !free {
        return None;
      }
      var r := BuildReturn(kind, rules.terms, coins, Named(subs), RefundsOf(w, subs), w.rate, w.size);
      if r.Err? {
        return None;
      }
      plan := Some(Spend(kind, Built, w.txid(r.value.tx), coins, subs, r.value.outputs, r.value.networkFee));
    }

    /** Records a spend in place of the unsigned ones of its kind. */
    method RecordInPlace(sp: Spend) returns (alive: bool)
      requires Valid() && books.holder != Nobody
      requires Tidy(books.spends, books.latest) && Marked(books.spends, books.latest, books.settlements)
      requires sp.state == Built && CoinsFree(books.spends, sp.kind, sp.coins)
      requires MayTake(rules, books, sp.kind, Subs(sp.coins))
      modifies `books, `log, `budget
      ensures Valid()
      ensures old(budget) == None ==> alive && budget == None
      ensures alive && CrashFree(old(log)) ==> CrashFree(log)
      ensures Inv(rules, old(books)) && Careful(old(books), Insert(sp)) ==> Inv(rules, books)
      ensures Consistent(rules, old(books)) ==> Consistent(rules, books)
      ensures if alive then books == WithSpend(old(books), sp) else books.holder == Nobody
    {
      hide Inv, Consistent, CrashFree, Leads;
      var n := |books.spends|;
      alive := Record(sp);
      if alive {
        alive := SupersedeBuilt(sp.kind, Some(n));
      }
    }

    /** Builds and records a cancel or a refund over every coin of these subscriptions. */
    method BuildReturnSpend(kind: Kind, w: World, subs: seq<SubId>) returns (made: Option<Spend>, alive: bool)
      requires Valid() && kind != Release && books.holder != Nobody && books.asking == None
      requires Tidy(books.spends, books.latest) && Marked(books.spends, books.latest, books.settlements)
      requires MayTake(rules, books, kind, Named(subs))
      modifies `books, `log, `budget
      ensures Valid()
      ensures old(budget) == None ==> alive && budget == None
      ensures alive && CrashFree(old(log)) ==> CrashFree(log)
      ensures Inv(rules, old(books)) && ReturnCareful(old(books), kind, Named(subs)) ==> Inv(rules, books)
      ensures made == None && Inv(rules, old(books)) ==> Inv(rules, books)
      ensures Consistent(rules, old(books)) ==> Consistent(rules, books)
      ensures made.Some? <==> MayReturn(w, rules.terms, old(books.spends), kind, subs)
      ensures made.Some? ==> Returns(w, rules.terms, kind, subs, made.value)
      ensures if !alive then books.holder == Nobody
              else books == if made.Some? then WithSpend(old(books), made.value) else old(books)
    {
      hide Inv, Consistent, CrashFree, Leads;
      alive := true;
      made := PlanReturn(kind, w, subs);
      if made.Some? {
        FewerMayBeTaken(rules, books, w, kind, subs);
        if Inv(rules, books) && ReturnCareful(books, kind, Named(subs)) {
          ReturnIsCareful(rules, books, made.value, Named(subs));
        }
        alive := RecordInPlace(made.value);
      }
    }

    // ---- the issuer cancels ----

    /** Marks one subscription as being returned, making its row if there is none. */
    method MarkOne(sub: SubId) returns (alive: bool)
      requires Valid() && books.holder == Serving
      requires Unsettled(books.subs, sub) && !PhaseIs(books.settlements, sub, Delivering)
      modifies `books, `log, `budget
      ensures Valid()
      ensures old(budget) == None ==> alive && budget == None
      ensures alive && CrashFree(old(log)) ==> CrashFree(log)
      ensures Inv(rules, old(books)) && Uncovered(old(books).spends, {sub}) ==> Inv(rules, books)
      ensures if alive then books == WithRow(old(books), sub, RowOf(old(books.settlements), sub).(phase := AwaitingCancel))
              else books.holder == Nobody
    {
      hide Inv, Consistent, CrashFree, Leads;
      alive := CreateRow(sub);
      if alive {
        alive := MarkReturned(sub);
      }
    }

    /** Marks subscriptions a cancel was recorded for. */
    method MarkAll(subs: seq<SubId>) returns (alive: bool)
      requires Valid() && books.holder == Serving && books.asking == None
      requires forall i :: 0 <= i < |subs| ==>
                 Unsettled(books.subs, subs[i]) && !PhaseIs(books.settlements, subs[i], Delivering)
      modifies `books, `log, `budget
      ensures Valid()
      ensures old(budget) == None ==> alive && budget == None
      ensures alive && CrashFree(old(log)) ==> CrashFree(log)
      ensures Inv(rules, old(books)) && Uncovered(old(books).spends, Named(subs)) ==> Inv(rules, books)
      ensures if alive then books == old(books).(settlements := CancelRows(old(books.settlements), Named(subs)))
              else books.holder == Nobody
    {
      hide Inv, Consistent, CrashFree, Leads;
      alive := true;
      ghost var b := books;
      assert subs[..0] == [];
      assert CancelRows(b.settlements, Named([])) == b.settlements;
      for i := 0 to |subs|
        invariant Valid() && alive && (old(budget) == None ==> budget == None)
        invariant CrashFree(old(log)) ==> CrashFree(log)
        invariant Inv(rules, old(books)) && Uncovered(b.spends, Named(subs)) ==> Inv(rules, books)
        invariant books == b.(settlements := CancelRows(b.settlements, Named(subs[..i])))
      {
        CancelRowsStep(b.settlements, subs, i);
        alive := MarkOne(subs[i]);
        if !alive { return; }
      }
      assert subs[..|subs|] == subs;
    }

    /** The subscriptions a cancel request takes. */
    method Choose(want: set<SubId>, all: seq<SubId>) returns (subs: seq<SubId>)
      ensures subs == ToCancel(books.subs, books.settlements, want, all, |all|)
    {
      subs := [];
      for i := 0 to |all|
        invariant subs == ToCancel(books.subs, books.settlements, want, all, i)
      {
        var sub := all[i];
        if want != {} && sub !in want {
          continue;
        }
        if !Unsettled(books.subs, sub) {
          continue;
        }
        if DeliveredOrDelivering(books.settlements, sub) {
          if sub !in want || PhaseIs(books.settlements, sub, Delivering) {
            continue;
          }
        }
        subs := subs + [sub];
      }
    }

    /** Records a cancel of these subscriptions and marks them, under the lock. */
    method CancelThese(w: World, subs: seq<SubId>) returns (made: Option<Spend>, alive: bool)
      requires Valid() && books.holder == Serving && books.asking == None && books.latest == None
      requires forall i :: 0 <= i < |subs| ==>
                 Unsettled(books.subs, subs[i]) && !PhaseIs(books.settlements, subs[i], Delivering)
      modifies `books, `log, `budget
      ensures Valid() && (!alive ==> books.holder == Nobody)
      ensures old(budget) == None ==> alive && budget == None
      ensures alive && CrashFree(old(log)) ==> CrashFree(log)
      ensures Inv(rules, old(books)) && Uncovered(old(books).spends, Named(subs)) ==> Inv(rules, books)
      ensures made == None && Inv(rules, old(books)) ==> Inv(rules, books)
      ensures made.Some? <==> MayReturn(w, rules.terms, old(books.spends), Cancel, subs)
      ensures made.Some? ==> Returns(w, rules.terms, Cancel, subs, made.value) && made.value.kind == Cancel
      ensures alive ==> books == (if made.Some? then CancelRecorded(old(books), made.value, subs) else old(books))
                        && books.holder == Serving && Tidy(books.spends, books.latest)
                             && Marked(books.spends, books.latest, books.settlements)
    {
      hide Inv, Consistent, CrashFree, Leads;
      made, alive := BuildReturnSpend(Cancel, w, subs);
      if alive && made.Some? {
        CancelLeaves(old(books), made.value, subs);
        if Uncovered(old(books).spends, Named(subs)) { ReturnCoversNobody(old(books), made.value, Named(subs)); }
        alive := MarkAll(subs);
      }
    }

    /** The issuer cancels the subscriptions it names, or every one not yet delivered. */
    method HandleCancel(want: set<SubId>, w: World, all: seq<SubId>) returns (made: Option<Spend>, alive: bool)
      requires Valid() && books.holder == Nobody
      modifies `books, `log, `budget
      ensures Valid() && books.holder == Nobody
      ensures old(budget) == None ==> alive && budget == None
      ensures var b := Locked(old(books), Serving);
              var subs := ToCancel(b.subs, b.settlements, want, all, |all|);
              && (made.Some? <==> MayReturn(w, rules.terms, b.spends, Cancel, subs))
              && (made.Some? ==> Returns(w, rules.terms, Cancel, subs, made.value))
              && (alive ==> books == Stopped(if made.Some? then CancelRecorded(b, made.value, subs) else b))
      ensures made.Some? ==> forall sub :: sub in made.value.subs <==> TakenByCancel(old(books), want, all, sub)
      ensures alive ==>
                && books.subs == old(books).subs
                && MarksOnly(old(books).settlements, books.settlements, if made.Some? then Named(made.value.subs) else {})
                && if made.Some? then Replaces(old(books).spends, books.spends, made.value)
                   else books.spends == old(books).spends
      ensures alive && CrashFree(old(log)) ==> CrashFree(log)
      ensures Inv(rules, old(books)) && NamesNoneReleased(old(books), want, all) ==> Inv(rules, books)
      ensures Inv(rules, old(books)) && alive && made.Some? ==>
                (Safe(books) <==> NamesNoneReleased(old(books), want, all))
      ensures Inv(rules, old(books)) && alive ==>
                (StaysSafe(rules, books) <==> made == None || NamesNoneReleased(old(books), want, all))
    {
      hide Inv, Consistent, CrashFree, Leads, MayReturn, Returns, CancelRecorded, Uncovered, NamesNoneReleased, Safe, StaysSafe,
           TakenByCancel, MarksOnly, Replaces;
      CancelTakes(books, want, all);
      NothingMarked(books.settlements);
      TakeLock(Serving);
      var subs := Choose(want, all);
      ghost var b := books;
      if Inv(rules, b) { CancelRequestIsCareful(rules, b, want, all); }
      SameRequest(old(books), Serving, want, all);
      if subs == [] {
        NothingToReturn(w, rules.terms, books.spends, Cancel);
        made, alive := None, true;
        GiveLock();
        Outlook(rules, books);
        return;
      }
      made, alive := CancelThese(w, subs);
      if made.Some? {
        AskedFor(w, rules.terms, Cancel, subs, made.value);
        CancelMeans(old(books), made.value, subs);
      }
      if alive && made.Some? && Inv(rules, b) { CancelIsSafeIff(rules, b, made.value, subs); }
      if alive {
        GiveLock();
      }
      Outlook(rules, books);
    }

    // ---- broadcasting ----

    /** Whether a spend is on chain, by its own outputs, and else whether a coin it spends is gone. */
    method SpendLanded(sp: Spend, node: Node) returns (landed: bool, gone: bool)
      ensures landed <==> StillThere(sp, node)
      ensures gone <==> !StillThere(sp, node) && CoinGone(sp, node)
      ensures (landed <==> SeenUnspent(sp, node)) && (gone <==> !landed && SeesCoinSpent(sp, node))
    {
      landed, gone := false, false;
      for n := 0 to OutCount(sp)
        invariant forall i :: 0 <= i < n ==> node.unspent(Outpoint(sp.txid, i)) != There
      {
        if node.unspent(Outpoint(sp.txid, n)) == There {
          return true, false;
        }
      }
      for k := 0 to |sp.coins|
        invariant forall i :: 0 <= i < k ==> node.unspent(sp.coins[i].outpoint) != Gone
      {
        if node.unspent(sp.coins[k].outpoint) == Gone {
          return false, true;
        }
      }
    }

    /** The inputs' subscriptions in order of first appearance, and what each brought. */
    static method TakenBySub(coins: seq<Coin>) returns (order: seq<SubId>, taken: map<SubId, nat>)
      ensures order == Order(coins, |coins|)
      ensures forall sub :: Lookup(taken, sub) == PaidIn(coins, |coins|, sub)
    {
      order, taken := [], map[];
      for i := 0 to |coins|
        invariant order == Order(coins, i)
        invariant forall sub :: sub in taken <==> sub in order
        invariant forall sub :: Lookup(taken, sub) == PaidIn(coins, i, sub)
      {
        var sub := coins[i].sub;
        if sub !in taken {
          order := order + [sub];
        }
        taken := taken[sub := Lookup(taken, sub) + coins[i].atoms];
      }
    }

    /** What a transaction's outputs return to each subscriber. */
    static method ReturnedBySub(outputs: seq<Described>) returns (back: map<SubId, nat>)
      ensures forall sub :: Lookup(back, sub) == PaidTo(outputs, |outputs|, sub)
    {
      back := map[];
      for i := 0 to |outputs|
        invariant forall sub :: Lookup(back, sub) == PaidTo(outputs, i, sub)
      {
        var o := outputs[i];
        if o.payee.ToSubscriber? {
          back := back[o.payee.sub := Lookup(back, o.payee.sub) + o.atoms];
        }
      }
    }

    /** Books what a landed spend did to one subscription. */
    static method ApplyOne(states: map<SubId, SubState>, rows: Rows, ledger: seq<Entry>, kind: Kind, sub: SubId,
                           taken: nat, back: nat, txid: Txid, quote: Quote)
      returns (states': map<SubId, SubState>, rows': Rows, ledger': seq<Entry>)
      requires sub in states
      ensures states' == states[sub := AppliedSub(kind, states[sub])]
      ensures rows' == rows[sub := Applied(kind, states[sub], RowOf(rows, sub), txid)]
      ensures ledger' == RowsFor(ledger, kind, sub, taken, back, txid, quote)
    {
      states', rows', ledger' := states, rows[sub := RowOf(rows, sub)], ledger;
      if kind == Release {
        var fee := FeeOf(ledger, sub, quote);
        ledger' := Charged(ledger, sub, quote);
        var net := MinusFee(MinusFee(taken, back), fee);
        if back > 0 {
          ledger' := ledger' + [Entry(RefundRow, Some(sub), back, Some(txid))];
        }
        rows' := rows'[sub := rows'[sub].(release := Some(txid), phase := Phase.Settled)];
        states' := states'[sub := SubState.Settled];
        ledger' := ledger' + [Entry(ReleaseRow, Some(sub), net, Some(txid))];
      } else {
        if states[sub] != SubState.Settled && states[sub] != SubState.Refunded {
          rows' := rows'[sub := rows'[sub].(refund := Some(txid), phase := Phase.Refunded)];
          states' := states'[sub := SubState.Refunded];
        }
        ledger' := ledger' + [Entry(RefundRow, Some(sub), back, Some(txid))];
      }
    }

    /** Books what a landed spend did to each subscription it covers. */
    static method ApplySpend(states: map<SubId, SubState>, rows: Rows, ledger: seq<Entry>, sp: Spend, quote: Quote)
      returns (states': map<SubId, SubState>, rows': Rows, ledger': seq<Entry>)
      ensures states' == LandedSubs(states, Subs(sp.coins), sp.kind)
      ensures rows' == LandedSettlements(states, rows, Subs(sp.coins), sp.kind, sp.txid)
      ensures ledger' == LandedLedger(ledger, states.Keys, sp.kind, sp.coins, sp.outputs, sp.networkFee, sp.txid, quote)
    {
      hide LandedSubs, LandedSettlements, Order, RowsFor, PaidIn, PaidTo;
      var order, taken := TakenBySub(sp.coins);
      var back := ReturnedBySub(sp.outputs);
      states', rows', ledger' := states, rows, ledger;
      NobodyLanded(states, rows, sp.kind, sp.txid);
      ghost var who: set<SubId> := {};
      for i := 0 to |order|
        invariant who == Named(order[..i])
        invariant states' == LandedSubs(states, who, sp.kind)
        invariant rows' == LandedSettlements(states, rows, who, sp.kind, sp.txid)
        invariant ledger' == LedgerAfter(ledger, states.Keys, sp.kind, sp.coins, sp.outputs, order, i, sp.txid, quote)
      {
        var sub := order[i];
        OrderStep(order, i);
        SubsStep(states, who, sub, sp.kind);
        RowsStep(states, rows, who, sub, sp.kind, sp.txid);
        who := who + {sub};
        if sub in states' {
          states', rows', ledger' := ApplyOne(states', rows', ledger', sp.kind, sub,
                                              Lookup(taken, sub), Lookup(back, sub), sp.txid, quote);
        }
      }
      OrderNames(sp.coins, order);
      if sp.kind == Release {
        ledger' := ledger' + NetworkFeeRows(sp.networkFee, sp.txid);
      } else {
        assert ledger' + [] == ledger';
      }
    }

    /** Records that a spend is on chain, and applies it to the books once. */
    method LandSpend(at: nat, quote: Quote) returns (alive: bool)
      requires Valid() && books.holder != Nobody && Tidy(books.spends, books.latest)
      requires at < |books.spends| && books.spends[at].state == Broadcasting
      modifies `books, `log, `budget, `ledger
      ensures Valid()
      ensures old(budget) == None ==> alive && budget == None
      ensures alive && CrashFree(old(log)) ==> CrashFree(log)
      ensures Inv(rules, old(books)) ==> Inv(rules, books)
      ensures books == if alive then Landed(old(books), at) else Stopped(old(books))
      ensures ledger == if alive then LedgerOf(old(books), at, old(ledger), quote) else old(ledger)
    {
      hide Inv, Consistent, CrashFree, Leads;
      var b := books;
      alive := Write(Land(at));
      if alive {
        var states, rows, entries := ApplySpend(b.subs, b.settlements, ledger, b.spends[at], quote);
        assert books == b.(subs := states, settlements := rows, asking := None,
                           spends := b.spends[at := b.spends[at].(state := Broadcast)]);
        ledger := entries;
      }
    }

    /** Sends a spend whose signed bytes are recorded, and books what the node's answers mean. */
    method FinishBroadcast(at: nat, node: Node, quote: Quote) returns (alive: bool)
      requires Valid() && books.holder != Nobody && Tidy(books.spends, books.latest)
      requires at < |books.spends| && books.spends[at].state == Broadcasting
      modifies `books, `log, `budget, `ledger
      ensures Valid()
      ensures old(budget) == None ==> alive && budget == None
      ensures alive && CrashFree(old(log)) ==> CrashFree(log)
      ensures Inv(rules, old(books)) ==> Inv(rules, books)
      ensures if alive then books == Finished(old(books), at, node) else books.holder == Nobody
      ensures alive ==> books.holder == old(books.holder) && books.latest == old(books.latest)
      ensures ledger == if alive && FateOf(old(books.spends[at]), node) == Lands
                        then LedgerOf(old(books), at, old(ledger), quote) else old(ledger)
    {
      hide Inv, Consistent, CrashFree, Leads;
      var sp := books.spends[at];
      alive := true;
      if node.sent == Accepted {
        alive := LandSpend(at, quote);
      } else {
        var landed, gone := SpendLanded(sp, node);
        if landed {
          alive := LandSpend(at, quote);
        } else if gone {
          alive := Restate(at, SpendState.Failed);
        } else if node.sent == Refused && sp.kind == Refund {
          alive := Restate(at, Superseded);
        } else if node.sent == Refused {
          alive := Restate(at, Built);
        }
      }
    }

    /** Records that a built spend is under way, with its signed bytes, and sends it. */
    method Send(at: nat, node: Node, quote: Quote) returns (alive: bool)
      requires Valid() && books.holder != Nobody && Tidy(books.spends, books.latest) && at < |books.spends|
      requires books.spends[at].state == Built && MayMove(rules, books, books.spends[at], Broadcasting)
      modifies `books, `log, `budget, `ledger
      ensures Valid()
      ensures old(budget) == None ==> alive && budget == None
      ensures alive && CrashFree(old(log)) ==> CrashFree(log)
      ensures Inv(rules, old(books)) ==> Inv(rules, books)
      ensures if alive then books == Finished(Moved(old(books), at, Broadcasting), at, node) else books.holder == Nobody
      ensures alive ==> books.holder == old(books.holder) && books.latest == old(books.latest)
      ensures ledger == if alive && FateOf(old(books.spends[at]), node) == Lands
                        then LedgerOf(old(books), at, old(ledger), quote) else old(ledger)
    {
      hide Inv, Consistent, CrashFree, Leads;
      alive := Restate(at, Broadcasting);
      if alive {
        alive := FinishBroadcast(at, node, quote);
      }
    }

    /** The issuer sends its signatures over a built release or cancel; sound says they verify. */
    method HandleSign(at: nat, sound: bool, node: Node, quote: Quote) returns (alive: bool)
      requires Valid() && books.holder == Nobody && at < |books.spends|
      modifies `books, `log, `budget, `ledger
      ensures Valid() && books.holder == Nobody
      ensures old(budget) == None ==> alive && budget == None
      ensures alive && CrashFree(old(log)) ==> CrashFree(log)
      ensures Inv(rules, old(books)) ==> Inv(rules, books)
      ensures alive ==> books == Stopped(Signed(rules, Locked(old(books), Serving), at, sound, node))
      ensures alive ==>
                ledger == if Sends(rules, Locked(old(books), Serving), at, sound) && FateOf(old(books.spends[at]), node) == Lands
                          then LedgerOf(Locked(old(books), Serving), at, old(ledger), quote) else old(ledger)
    {
      hide Inv, Consistent, CrashFree, Leads, Finished, LedgerOf;
      TakeLock(Serving);
      var sp := books.spends[at];
      alive := true;
      if sp.state == Broadcasting {
        alive := FinishBroadcast(at, node, quote);
      } else if sp.state == Built && sp.kind != Refund && sound {
        if sp.kind == Cancel || LockReached(rules.terms.closeLock, books.tip, books.mtp) {
          alive := Send(at, node, quote);
        }
      }
      if alive {
        GiveLock();
      }
    }

    /** The watcher sends a spend left broadcasting once more: the same bytes. */
    method HealBroadcast(at: nat, node: Node, quote: Quote) returns (alive: bool)
      requires Valid() && books.holder == Nobody && at < |books.spends|
      modifies `books, `log, `budget, `ledger
      ensures Valid() && books.holder == Nobody
      ensures old(budget) == None ==> alive && budget == None
      ensures alive && CrashFree(old(log)) ==> CrashFree(log)
      ensures Inv(rules, old(books)) ==> Inv(rules, books)
      ensures alive ==> books == if old(books.spends[at]).state == Broadcasting
                                 then Stopped(Finished(Locked(old(books), Serving), at, node)) else Stopped(old(books))
      ensures alive ==> ledger == if old(books.spends[at]).state == Broadcasting && FateOf(old(books.spends[at]), node) == Lands
                                  then LedgerOf(Locked(old(books), Serving), at, old(ledger), quote) else old(ledger)
    {
      hide Inv, Consistent, CrashFree, Leads, Finished, LedgerOf;
      TakeLock(Serving);
      alive := true;
      if books.spends[at].state == Broadcasting {
        alive := FinishBroadcast(at, node, quote);
      }
      if alive {
        GiveLock();
      }
    }

    // ---- the deadline passes ----

    /** The subscriptions whose money is not the issuer's to release. */
    method ChooseUndelivered(all: seq<SubId>) returns (subs: seq<SubId>)
      requires Named(all) <= books.subs.Keys
      ensures subs == Undelivered(books.subs, books.settlements, all, |all|)
    {
      subs := [];
      for i := 0 to |all|
        invariant subs == Undelivered(books.subs, books.settlements, all, i)
      {
        if Unsettled(books.subs, all[i]) && DeliveredOrDelivering(books.settlements, all[i]) {
          continue;
        }
        subs := subs + [all[i]];
      }
    }

    /** Those with coins, none of them on its way somewhere. */
    method ChooseDue(coins: seq<Coin>, subs: seq<SubId>) returns (due: seq<SubId>)
      ensures due == DueOf(books.spends, coins, subs, |subs|)
    {
      var held := HeldCoins(None);
      var with, blocked: set<SubId> := {}, {};
      for k := 0 to |coins|
        invariant forall sub :: sub in with <==> HasCoin(coins, k, sub)
        invariant forall sub :: sub in blocked <==> HasHeldCoin(books.spends, coins, k, sub)
      {
        var o := coins[k].outpoint;
        with := with + {coins[k].sub};
        if o in held && !UnsignedCancel(books.spends[held[o]]) {
          blocked := blocked + {coins[k].sub};
        }
      }
      due := [];
      for i := 0 to |subs|
        invariant due == DueOf(books.spends, coins, subs, i)
      {
        if subs[i] in with && subs[i] !in blocked {
          due := due + [subs[i]];
        }
      }
    }

    /** Builds a refund and sets every unsigned cancel aside. */
    method RecordRefund(w: World, subs: seq<SubId>) returns (made: Option<Spend>, alive: bool)
      requires Valid() && books.holder == Serving && books.asking == None && books.latest == None
      requires MayTake(rules, books, Refund, Named(subs))
      modifies `books, `log, `budget
      ensures Valid() && (!alive ==> books.holder == Nobody)
      ensures old(budget) == None ==> alive && budget == None
      ensures alive && CrashFree(old(log)) ==> CrashFree(log)
      ensures Inv(rules, old(books)) ==> Inv(rules, books)
      ensures made.Some? <==> MayReturn(w, rules.terms, old(books.spends), Refund, subs)
      ensures made.Some? ==> Returns(w, rules.terms, Refund, subs, made.value)
                             && made.value.kind == Refund && made.value.state == Built
      ensures alive ==> books == if made.Some? then Without(WithSpend(old(books), made.value), Cancel, None) else old(books)
    {
      hide Inv, Consistent, CrashFree, Leads, MayReturn, WithSpend, Without, MayTake;
      made, alive := BuildReturnSpend(Refund, w, subs);
      if alive && made.Some? {
        RefundMaySend(rules, old(books), made.value);
        alive := SupersedeBuilt(Cancel, None);
      }
    }

    /** Builds a refund, sets every unsigned cancel aside, and sends the refund at once. */
    method RefundThese(w: World, subs: seq<SubId>, node: Node, quote: Quote) returns (made: Option<Spend>, alive: bool)
      requires Valid() && books.holder == Serving && books.asking == None && books.latest == None
      requires MayTake(rules, books, Refund, Named(subs))
      modifies `books, `log, `budget, `ledger
      ensures Valid() && (!alive ==> books.holder == Nobody)
      ensures old(budget) == None ==> alive && budget == None
      ensures alive && CrashFree(old(log)) ==> CrashFree(log)
      ensures Inv(rules, old(books)) ==> Inv(rules, books)
      ensures made.Some? <==> MayReturn(w, rules.terms, old(books.spends), Refund, subs)
      ensures made.Some? ==> Returns(w, rules.terms, Refund, subs, made.value)
      ensures alive ==> books == if made.Some? then RefundSent(old(books), made.value, node) else old(books)
      ensures alive ==> ledger == if made.Some? && StateOnceSent(made.value, node) == Broadcast
                                  then LedgerOfOne(made.value, old(books).subs.Keys, old(ledger), quote) else old(ledger)
      ensures alive ==>
                && books.holder == Serving && Tidy(books.spends, books.latest)
                && Marked(books.spends, books.latest, books.settlements)
    {
      hide Inv, Consistent, CrashFree, Leads, MayReturn, Returns, RefundSent, WithSpend, Without, Moved, Finished, Tidy,
           Marked, MayMove, MayTake, LedgerOf, LedgerOfOne, FateOf, StateOnceSent;
      var n := |books.spends|;
      made, alive := RecordRefund(w, subs);
      if alive && made.Some? {
        RefundMaySend(rules, old(books), made.value);
        RefundLeaves(books, n, node);
        RecordingKeepsSubs(old(books), made.value);
        SentAs(books, n, made.value, node, ledger, quote);
        alive := Send(n, node, quote);
        RefundSentIs(old(books), made.value, node);
      }
      NothingLatest(books.spends, books.settlements);
    }

    method FindDue(w: World, all: seq<SubId>) returns (due: seq<SubId>)
      requires Named(all) <= books.subs.Keys
      ensures due == RefundsDue(books, rules.terms.payAsset, w, all)
    {
      var subs := ChooseUndelivered(all);
      var coins := LiveCoins(w, subs);
      due := ChooseDue(coins, subs);
    }

    /** Past the deadline, the watcher refunds what is not the issuer's, unasked and unsigned. */
    method RefundAfterDeadline(w: World, w': World, all: seq<SubId>, node: Node, quote: Quote)
      returns (made: Option<Spend>, alive: bool)
      requires Valid() && books.holder == Nobody && Named(all) <= books.subs.Keys
      requires LockReached(rules.terms.deadlineLock, books.tip, books.mtp)
      modifies `books, `log, `budget, `ledger
      ensures Valid() && books.holder == Nobody
      ensures old(budget) == None ==> alive && budget == None
      ensures alive && CrashFree(old(log)) ==> CrashFree(log)
      ensures Inv(rules, old(books)) ==> Inv(rules, books)
      ensures var b := Locked(old(books), Serving);
              var due := RefundsDue(b, rules.terms.payAsset, w, all);
              && (made.Some? <==> MayReturn(w', rules.terms, b.spends, Refund, due))
              && (made.Some? ==> Returns(w', rules.terms, Refund, due, made.value))
              && (alive ==> books == Stopped(if made.Some? then RefundSent(b, made.value, node) else b))
      ensures made.Some? ==>
                forall sub :: sub in made.value.subs <==> TakenByRefund(old(books), rules.terms.payAsset, w, all, sub)
      ensures alive ==> ledger == if made.Some? && StateOnceSent(made.value, node) == Broadcast
                                  then LedgerOfOne(made.value, old(books).subs.Keys, old(ledger), quote) else old(ledger)
    {
      hide Inv, Consistent, CrashFree, Leads, MayReturn, Returns, RefundSent, RefundsDue, TakenByRefund, LedgerOfOne,
          StateOnceSent;
      forall sub ensures sub in RefundsDue(Locked(books, Serving), rules.terms.payAsset, w, all)
                         <==> TakenByRefund(books, rules.terms.payAsset, w, all, sub)
      {
        RefundTakes(books, rules.terms.payAsset, w, all, sub);
        SameDue(books, rules.terms.payAsset, w, all);
      }
      TakeLock(Serving);
      var due := FindDue(w, all);
      if due == [] {
        NothingToReturn(w', rules.terms, books.spends, Refund);
        made, alive := None, true;
        GiveLock();
        return;
      }
      DueMayBeTaken(rules, books, w, all);
      made, alive := RefundThese(w', due, node, quote);
      if made.Some? { AskedFor(w', rules.terms, Refund, due, made.value); }
      if alive {
        GiveLock();
      }
    }

    // ---- the release ----

    /** The escrow fees of a release, without fixing them. */
    method PreviewFees(subs: seq<SubId>, quote: Quote) returns (fee: nat)
      ensures fee == FeesTogether(ledger, subs, quote, |subs|)
    {
      fee := 0;
      for i := 0 to |subs|
        invariant fee == FeesTogether(ledger, subs, quote, i)
      {
        fee := Wrap64(fee + FeeOf(ledger, subs[i], quote));
      }
    }

    /** The same, each fee booked as it is read. */
    method ChargeFees(subs: seq<SubId>, quote: Quote) returns (fee: nat, alive: bool)
      requires Valid()
      modifies `books, `log, `budget, `ledger
      ensures Valid() && books == (if alive then old(books) else Stopped(old(books)))
      ensures old(budget) == None ==> alive && budget == None
      ensures alive && CrashFree(old(log)) ==> CrashFree(log)
      ensures Inv(rules, old(books)) ==> Inv(rules, books)
      ensures Consistent(rules, old(books)) ==> Consistent(rules, books)
      ensures alive ==> fee == FeesTogether(old(ledger), subs, quote, |subs|)
                        && ledger == AllCharged(old(ledger), subs, quote, |subs|)
      ensures exists k :: 0 <= k <= |subs| && ledger == AllCharged(old(ledger), subs, quote, k)
    {
      hide Inv, Consistent, CrashFree, Leads, FeeOf, Charged;
      fee, alive := 0, true;
      assert AllCharged(ledger, subs, quote, 0) == ledger;
      for i := 0 to |subs|
        invariant Valid() && alive && books == old(books)
        invariant old(budget) == None ==> budget == None
        invariant CrashFree(old(log)) ==> CrashFree(log)
        invariant fee == FeesTogether(old(ledger), subs, quote, i)
        invariant ledger == AllCharged(old(ledger), subs, quote, i)
      {
        ChargingKeepsFees(old(ledger), subs, quote, i, subs[i]);
        fee := Wrap64(fee + FeeOf(ledger, subs[i], quote));
        if budget == Some(0) {
          alive := false;
          Step(Crash);
          return;
        }
        Spent();
        ledger := Charged(ledger, subs[i], quote);
      }
    }

    /** The release of every coin of these subscriptions at this escrow fee, if it can be built. */
    method PlanRelease(w: World, subs: seq<SubId>, fee: nat) returns (plan: Option<Spend>)
      ensures plan.Some? <==> MayRelease(w, rules.terms, books.spends, subs, fee)
      ensures plan.Some? ==> Releases(w, rules.terms, subs, fee, plan.value)
    {
      var coins := LiveCoins(w, subs);
      var free := AllFree(Release, coins);
      if !free {
        return None;
      }
      var excess := ExcessOver(Subscribers(w, subs), coins);
      var r := BuildRelease(rules.terms, coins, Named(subs), excess, fee, w.platform, w.rate, w.size);
      if r.Err? {
        return None;
      }
      plan := Some(Spend(Release, Built, w.txid(r.value.tx), coins, subs, r.value.outputs, r.value.networkFee));
    }

    /** Builds and records the release, fixing the fees it charges. */
    method BuildReleaseSpend(w: World, subs: seq<SubId>) returns (made: Option<Spend>, alive: bool)
      requires Valid() && books.holder == Closing
      requires Tidy(books.spends, books.latest) && Marked(books.spends, books.latest, books.settlements)
      requires MayTake(rules, books, Release, Named(subs))
      modifies `books, `log, `budget, `ledger
      ensures Valid()
      ensures old(budget) == None ==> alive && budget == None
      ensures alive && CrashFree(old(log)) ==> CrashFree(log)
      ensures Inv(rules, old(books)) && Unopposed(old(books).spends, made) ==> Inv(rules, books)
      ensures Consistent(rules, old(books)) ==> Consistent(rules, books)
      ensures if !alive then books.holder == Nobody
              else books == if made.Some? then WithSpend(old(books), made.value) else old(books)
      ensures alive ==>
                var fee := FeesTogether(old(ledger), subs, w.quote, |subs|);
                && (made.Some? <==> MayRelease(w, rules.terms, old(books.spends), subs, fee))
                && (made.Some? ==> Releases(w, rules.terms, subs, fee, made.value)
                                   && ledger == AllCharged(old(ledger), subs, w.quote, |subs|))
      ensures alive ==> ledger == if CoinsFree(old(books.spends), Release, CoinsOf(w, rules.terms.payAsset, subs, |subs|))
                                  then AllCharged(old(ledger), subs, w.quote, |subs|) else old(ledger)
      ensures made.Some? ==> made.value.kind == Release && Subs(made.value.coins) <= Named(subs)
    {
      hide Inv, Consistent, CrashFree, Leads, MayRelease, Releases, Tidy, Marked, WithSpend, CoinsOf, CoinsFree,
          MayTake, AllCharged;
      made, alive := None, true;
      var coins := LiveCoins(w, subs);
      var free := AllFree(Release, coins);
      TakenCoinsAreHeld(w, rules.terms, books.spends, subs, FeesTogether(ledger, subs, w.quote, |subs|));
      if !free {
        return;
      }
      var fee;
      fee, alive := ChargeFees(subs, w.quote);
      if !alive {
        return;
      }
      made := PlanRelease(w, subs, fee);
      if made.Some? {
        ReleaseTakes(w, rules.terms, subs, fee, made.value);
        ReleaseMayBeRecorded(rules, books, w, subs, fee, made.value);
        if Unopposed(books.spends, made) { ReleaseIsCareful(books, made.value); }
        alive := RecordInPlace(made.value);
      }
    }

    // ---- one delivery ----

    method FailRow(sub: SubId) returns (alive: bool)
      requires Valid() && books.holder == Closing
      requires PhaseIs(books.settlements, sub, Pending) || PhaseIs(books.settlements, sub, Delivering)
      modifies `books, `log, `budget
      ensures Valid()
      ensures old(budget) == None ==> alive && budget == None
      ensures alive && CrashFree(old(log)) ==> CrashFree(log)
      ensures Inv(rules, old(books)) ==> Inv(rules, books)
      ensures books == if alive then WithRow(old(books), sub, old(books.settlements)[sub].(phase := DeliveryFailed))
                       else Stopped(old(books))
    {
      alive := Write(FailDelivery(sub));
    }

    method RecordRow(sub: SubId, txid: Txid) returns (alive: bool)
      requires Valid() && books.holder == Closing
      requires PhaseIs(books.settlements, sub, Delivering) && books.settlements[sub].delivery == None
      modifies `books, `log, `budget
      ensures Valid()
      ensures old(budget) == None ==> alive && budget == None
      ensures alive && CrashFree(old(log)) ==> CrashFree(log)
      ensures Inv(rules, old(books)) ==> Inv(rules, books)
      ensures books == if alive then WithRow(old(books), sub, old(books.settlements)[sub].(delivery := Some(txid)))
                       else Stopped(old(books))
    {
      alive := Write(RecordDelivery(sub, txid));
    }

    method AwaitRow(sub: SubId) returns (alive: bool)
      requires Valid() && books.holder == Closing && sub in books.subs && books.subs[sub] == InEscrow
      requires PhaseIs(books.settlements, sub, Pending) || PhaseIs(books.settlements, sub, Delivering)
      requires books.settlements[sub].delivery.Some?
      modifies `books, `log, `budget
      ensures Valid()
      ensures old(budget) == None ==> alive && budget == None
      ensures alive && CrashFree(old(log)) ==> CrashFree(log)
      ensures Inv(rules, old(books)) ==> Inv(rules, books)
      ensures books == if alive then WithRow(old(books), sub, old(books.settlements)[sub].(phase := AwaitingRelease))
                       else Stopped(old(books))
    {
      alive := Write(AwaitRelease(sub));
    }

    /** Writes the intent, and only then asks for the transfer. */
    method AskForTransfer(sub: SubId) returns (alive: bool)
      requires Valid() && books.holder == Closing
      requires PhaseIs(books.settlements, sub, Pending) && books.settlements[sub].delivery == None
      modifies `books, `log, `budget
      ensures Valid()
      ensures old(budget) == None ==> alive && budget == None
      ensures alive && CrashFree(old(log)) ==> CrashFree(log)
      ensures Inv(rules, old(books)) ==> Inv(rules, books)
      ensures if alive then
                books == WithRow(old(books), sub, old(books.settlements)[sub].(phase := Delivering))
                         .(asked := old(books.asked) + [sub])
              else books.holder == Nobody
    {
      hide Inv, Consistent, CrashFree, Leads;
      alive := Write(MarkDelivering(sub));
      if alive {
        alive := Write(AskTransfer(sub));
      }
    }

    /** Seeks a delivery not recorded yet: asks for the tokens, or looks for those asked for before. */
    method Seek(sub: SubId, p: Policy) returns (phase: Phase, alive: bool)
      requires Valid() && books.holder == Closing
      requires PhaseIs(books.settlements, sub, Pending) || PhaseIs(books.settlements, sub, Delivering)
      requires books.settlements[sub].delivery == None
      modifies `books, `log, `budget
      ensures Valid() && (!alive ==> books.holder == Nobody)
      ensures old(budget) == None ==> alive && budget == None
      ensures alive && CrashFree(old(log)) ==> CrashFree(log)
      ensures Inv(rules, old(books)) ==> Inv(rules, books)
      ensures alive ==> books == Sought(old(books), sub, p) && phase == books.settlements[sub].phase
    {
      hide Inv, Consistent, CrashFree, Leads;
      phase := books.settlements[sub].phase;
      if phase == Delivering {
        alive := true;
        if p.landed {
          alive := RecordRow(sub, RECONCILED);
        }
      } else {
        alive := AskForTransfer(sub);
        if alive {
          if p.transfer == None {
            alive := FailRow(sub);
            phase := DeliveryFailed;
          } else {
            alive := RecordRow(sub, p.transfer.value);
            phase := Delivering;
          }
        }
      }
    }

    /** Delivers one subscription's tokens, once. */
    method DeliverForEscrow(sub: SubId, p: Policy) returns (phase: Phase, alive: bool)
      requires Valid() && books.holder == Closing && sub in books.subs && books.subs[sub] == InEscrow
      modifies `books, `log, `budget
      ensures Valid()
      ensures old(budget) == None ==> alive && budget == None
      ensures alive && CrashFree(old(log)) ==> CrashFree(log)
      ensures Inv(rules, old(books)) ==> Inv(rules, books)
      ensures if alive then books == Delivered(old(books), sub, p) else books.holder == Nobody
      ensures alive ==> phase == Attempt(RowOf(old(books.settlements), sub), p).phase
    {
      hide Inv, Consistent, CrashFree, Leads;
      alive := CreateRow(sub);
      phase := RowOf(books.settlements, sub).phase;
      if !alive || Decided(phase) {
        return;
      }
      if !p.known {
        alive := FailRow(sub);
        return DeliveryFailed, alive;
      }
      if books.settlements[sub].delivery == None {
        phase, alive := Seek(sub, p);
      }
      if alive && books.settlements[sub].delivery.Some? {
        alive := AwaitRow(sub);
        phase := AwaitingRelease;
      }
    }

    // ---- closing ----

    /** The delivered so far, and everyone from position i on. */
    method StillToRelease(covenant: seq<SubId>, ghost tried: seq<Phase>, i: nat) returns (rest: seq<SubId>)
      requires i <= |covenant| == |tried|
      requires forall j :: 0 <= j < i ==> PhaseIs(books.settlements, covenant[j], tried[j])
      ensures rest == NamesOf(covenant, Rest(tried, i))
    {
      rest := [];
      for j := 0 to i
        invariant rest == NamesOf(covenant, Awaiting(tried, j))
      {
        if PhaseIs(books.settlements, covenant[j], AwaitingRelease) {
          NamesTogether(covenant, Awaiting(tried, j), [j]);
          rest := rest + [covenant[j]];
        }
      }
      NamesTogether(covenant, Awaiting(tried, i), From(i, |tried|));
      assert NamesOf(covenant, From(i, |tried|)) == covenant[i..];
      rest := rest + covenant[i..];
    }

    /** The dry run between deliveries: could what is delivered and still to try be released? */
    method Recheck(covenant: seq<SubId>, ghost tried: seq<Phase>, i: nat, w: World) returns (ok: bool)
      requires i <= |covenant| == |tried|
      requires forall j :: 0 <= j < i ==> PhaseIs(books.settlements, covenant[j], tried[j])
      ensures ok <==> FeasibleNow(w, rules.terms, books.spends, ledger, covenant)(Rest(tried, i))
    {
      hide MayRelease;
      var rest := StillToRelease(covenant, tried, i);
      var fee := PreviewFees(rest, w.quote);
      var dry := PlanRelease(w, rest, fee);
      ok := dry.Some?;
    }

    /** One turn of the loop: the recheck, if a delivery has failed, and the next delivery. */
    method TryNext(covenant: seq<SubId>, i: nat, failedOnce: bool, ghost tried: seq<Phase>, w: World, p: Policy)
      returns (go: bool, phase: Phase, alive: bool)
      requires Valid() && books.holder == Closing && Paid(books, covenant) && i < |covenant| == |tried|
      requires forall j :: 0 <= j < i ==> PhaseIs(books.settlements, covenant[j], tried[j])
      modifies `books, `log, `budget
      ensures Valid() && (!alive ==> books.holder == Nobody)
      ensures old(budget) == None ==> alive && budget == None
      ensures alive && CrashFree(old(log)) ==> CrashFree(log)
      ensures Inv(rules, old(books)) ==> Inv(rules, books)
      ensures go <==> !failedOnce
                      || FeasibleNow(w, rules.terms, old(books.spends), ledger, covenant)(Rest(tried, i))
      ensures alive ==> books == if go then Delivered(old(books), covenant[i], p) else old(books)
      ensures alive && go ==> phase == Attempt(RowOf(old(books.settlements), covenant[i]), p).phase
    {
      hide Inv, Consistent, CrashFree, Leads, MayRelease, Attempt, Delivered, FeasibleNow;
      go, phase, alive := true, Pending, true;
      if failedOnce {
        go := Recheck(covenant, tried, i, w);
      }
      if go {
        phase, alive := DeliverForEscrow(covenant[i], p);
      }
    }

    /** Delivers in order; after a failure, only while what is left can still be released. */
    method DeliverAll(covenant: seq<SubId>, w: World, p: SubId -> Policy) returns (done: nat, alive: bool)
      requires Valid() && books.holder == Closing && books.asking == None
      requires Paid(books, covenant)
      modifies `books, `log, `budget
      ensures Valid() && (!alive ==> books.holder == Nobody)
      ensures old(budget) == None ==> alive && budget == None
      ensures alive && CrashFree(old(log)) ==> CrashFree(log)
      ensures Inv(rules, old(books)) ==> Inv(rules, books)
      ensures alive ==>
                && done == Attempts(Tried(old(books.settlements), covenant, p),
                                    FeasibleNow(w, rules.terms, old(books.spends), ledger, covenant), |covenant|)
                && books == AfterDeliveries(old(books), covenant, p, done)
    {
      hide Inv, Consistent, CrashFree, Leads, MayRelease, Attempt, Delivered, FeasibleNow, FailedBefore, Rest, PhaseIs,
           Paid, Tried;
      ghost var b := books;
      ghost var tried := Tried(b.settlements, covenant, p);
      ghost var feasible := FeasibleNow(w, rules.terms, b.spends, ledger, covenant);
      var failedOnce := false;
      NothingFailedYet(tried);
      done, alive := 0, true;
      while done < |covenant|
        invariant done <= |covenant| && Valid() && alive && (old(budget) == None ==> budget == None)
        invariant (CrashFree(old(log)) ==> CrashFree(log)) && (Inv(rules, old(books)) ==> Inv(rules, books))
        invariant failedOnce == FailedBefore(tried, done)
        invariant done == Attempts(tried, feasible, done)
        invariant books == AfterDeliveries(b, covenant, p, done)
      {
        NextAttempt(b, covenant, p, done);
        LoopStep(tried, feasible, done);
        var go, phase;
        go, phase, alive := TryNext(covenant, done, failedOnce, tried, w, p(covenant[done]));
        if !alive {
          return;
        }
        if !go {
          StopsHere(tried, feasible, done, |covenant|);
          return;
        }
        failedOnce := failedOnce || phase == DeliveryFailed;
        done := done + 1;
      }
    }

    /** The live spend of a kind asked for exactly these subscriptions -- so a repeated close
        hands out the same transaction -- or else a new one. */
    method CurrentOrNewSpend(kind: Kind, w: World, subs: seq<SubId>) returns (found: bool, made: Option<Spend>, alive: bool)
      requires Valid() && kind != Refund && books.holder == Closing && books.asking == None
      requires Tidy(books.spends, books.latest) && Marked(books.spends, books.latest, books.settlements)
      requires MayTake(rules, books, kind, Named(subs))
      modifies `books, `log, `budget, `ledger
      ensures Valid() && (!alive ==> books.holder == Nobody)
      ensures old(budget) == None ==> alive && budget == None
      ensures alive && CrashFree(old(log)) ==> CrashFree(log)
      ensures Inv(rules, old(books)) && (kind == Release ==> Unopposed(old(books).spends, made)) ==> Inv(rules, books)
      ensures Consistent(rules, old(books)) ==> Consistent(rules, books)
      ensures alive ==> (found <==> subs != [] && LastLike(old(books.spends), |old(books.spends)|, kind, subs).Some?)
      ensures alive ==> books == if made.Some? then WithSpend(old(books), made.value) else old(books)
      ensures alive ==>
                (made.Some? <==> subs != [] && !found && MayBuild(kind, w, rules.terms, old(books.spends), old(ledger), subs))
      ensures alive && made.Some? ==>
                && (kind == Release ==>
                      Releases(w, rules.terms, subs, FeesTogether(old(ledger), subs, w.quote, |subs|), made.value))
                && (kind == Cancel ==> Returns(w, rules.terms, Cancel, subs, made.value))
      ensures alive && kind == Release ==>
                ledger == AllCharged(old(ledger), subs, w.quote, |subs|) || (made == None && ledger == old(ledger))
      ensures kind == Cancel ==> ledger == old(ledger)
      ensures made.Some? && kind == Release ==> made.value.kind == Release && Subs(made.value.coins) <= Named(subs)
    {
      hide Inv, Consistent, CrashFree, Leads, MayReturn, MayRelease, Returns, Releases, WithSpend;
      found, made, alive := false, None, true;
      if subs == [] {
        return;
      }
      var i := |books.spends|;
      while i > 0
        invariant 0 <= i <= |books.spends|
        invariant LastLike(books.spends, |books.spends|, kind, subs) == LastLike(books.spends, i, kind, subs)
      {
        i := i - 1;
        if books.spends[i].kind == kind && Live(books.spends[i]) && multiset(books.spends[i].subs) == multiset(subs) {
          found := true;
          return;
        }
      }
      if kind == Release {
        made, alive := BuildReleaseSpend(w, subs);
      } else {
        made, alive := BuildReturnSpend(kind, w, subs);
      }
    }

    /** Marks the failed deliveries a cancel was handed out for. */
    method MarkFailed(subs: seq<SubId>) returns (alive: bool)
      requires Valid() && books.holder == Closing && books.asking == None
      requires forall i :: 0 <= i < |subs| ==>
                 && Unsettled(books.subs, subs[i]) && subs[i] in books.settlements
                 && CancelPhase(books.settlements[subs[i]].phase)
      modifies `books, `log, `budget
      ensures Valid()
      ensures old(budget) == None ==> alive && budget == None
      ensures alive && CrashFree(old(log)) ==> CrashFree(log)
      ensures Inv(rules, old(books)) ==> Inv(rules, books)
      ensures Consistent(rules, old(books)) ==> Consistent(rules, books)
      ensures if alive then books == old(books).(settlements := CancelRows(old(books.settlements), Named(subs)))
              else books.holder == Nobody
    {
      hide Inv, Consistent, CrashFree, Leads;
      alive := true;
      ghost var b := books;
      assert subs[..0] == [];
      assert CancelRows(b.settlements, Named([])) == b.settlements;
      for i := 0 to |subs|
        invariant Valid() && alive && (old(budget) == None ==> budget == None)
        invariant Consistent(rules, old(books)) ==> Consistent(rules, books)
        invariant (CrashFree(old(log)) ==> CrashFree(log)) && (Inv(rules, old(books)) ==> Inv(rules, books))
        invariant books == b.(settlements := CancelRows(b.settlements, Named(subs[..i])))
      {
        CancelRowsStep(b.settlements, subs, i);
        alive := MarkReturned(subs[i]);
        if !alive { return; }
      }
      assert subs[..|subs|] == subs;
    }

    /** Lists what is delivered and what failed. */
    method SortOut(covenant: seq<SubId>) returns (ready: seq<SubId>, failed: seq<SubId>)
      ensures ready == Ready(books.settlements, covenant, |covenant|)
      ensures failed == Unready(books.settlements, covenant, |covenant|)
    {
      ready, failed := [], [];
      for i := 0 to |covenant|
        invariant ready == Ready(books.settlements, covenant, i)
        invariant failed == Unready(books.settlements, covenant, i)
      {
        if covenant[i] in books.settlements {
          var phase := books.settlements[covenant[i]].phase;
          if phase == AwaitingRelease {
            ready := ready + [covenant[i]];
          } else if CancelPhase(phase) {
            failed := failed + [covenant[i]];
          }
        }
      }
    }

    /** Hands out the cancel of the failed deliveries and marks them. */
    method HandCancel(failed: seq<SubId>, w: World) returns (made: Option<Spend>, handed: bool, alive: bool)
      requires Valid() && books.holder == Closing && books.asking == None
      requires Tidy(books.spends, books.latest)
      requires books.latest.Some? ==>
                 books.latest.value < |books.spends| && books.spends[books.latest.value].kind == Release
      requires AllUnready(books, failed)
      modifies `books, `log, `budget, `ledger
      ensures Valid() && (!alive ==> books.holder == Nobody)
      ensures old(budget) == None ==> alive && budget == None
      ensures alive && CrashFree(old(log)) ==> CrashFree(log)
      ensures Inv(rules, old(books)) ==> Inv(rules, books)
      ensures Consistent(rules, old(books)) ==> Consistent(rules, books)
      ensures alive ==>
                && handed == (failed != []
                              && (LastLike(old(books.spends), |old(books.spends)|, Cancel, failed).Some?
                                  || MayReturn(w, rules.terms, old(books.spends), Cancel, failed)))
                && (made.Some? ==> handed && Returns(w, rules.terms, Cancel, failed, made.value))
                && (made.Some? <==> handed && LastLike(old(books.spends), |old(books.spends)|, Cancel, failed) == None)
                && books == CancelHanded(old(books), made, handed, failed)
                && books.holder == Closing && Tidy(books.spends, books.latest)
                && Marked(books.spends, books.latest, books.settlements)
      ensures ledger == old(ledger)
    {
      hide Inv, Consistent, CrashFree, Leads, MayReturn, MayRelease, Tidy, WithSpend, Releases;
      var found;
      MayCancelUnready(rules, books, failed);
      found, made, alive := CurrentOrNewSpend(Cancel, w, failed);
      handed := found || made.Some?;
      if !alive {
        return;
      }
      CancelLeavesHanded(old(books), made, handed, failed);
      if handed {
        alive := MarkFailed(failed);
      }
    }

    /** Hands out the release of everything delivered. */
    method HandRelease(ready: seq<SubId>, w: World) returns (made: Option<Spend>, alive: bool)
      requires Valid() && books.holder == Closing && books.asking == None && books.latest == None
      requires forall i :: 0 <= i < |ready| ==> PhaseIs(books.settlements, ready[i], AwaitingRelease)
      modifies `books, `log, `budget, `ledger
      ensures Valid() && (!alive ==> books.holder == Nobody)
      ensures old(budget) == None ==> alive && budget == None
      ensures alive && CrashFree(old(log)) ==> CrashFree(log)
      ensures Inv(rules, old(books)) && Unopposed(old(books).spends, made) ==> Inv(rules, books)
      ensures Consistent(rules, old(books)) ==> Consistent(rules, books)
      ensures alive ==>
                && made.Some? == (
                     && ready != []
                     && LastLike(old(books.spends), |old(books.spends)|, Release, ready) == None
                     && MayRelease(w, rules.terms, old(books.spends), ready,
                                   FeesTogether(old(ledger), ready, w.quote, |ready|)))
                && (made.Some? ==> Releases(w, rules.terms, ready,
                     FeesTogether(old(ledger), ready, w.quote, |ready|), made.value))
                && books == (if made.Some? then WithSpend(old(books), made.value) else old(books))
                && books.holder == Closing && books.asking == None && Tidy(books.spends, books.latest)
                && books.subs == old(books.subs) && books.settlements == old(books.settlements)
                && (books.latest.Some? ==>
                      books.latest.value < |books.spends| && books.spends[books.latest.value].kind == Release)
      ensures alive ==> ledger == AllCharged(old(ledger), ready, w.quote, |ready|) || (made == None && ledger == old(ledger))
      ensures made.Some? ==> made.value.kind == Release && Subs(made.value.coins) <= Named(ready)
    {
      hide Inv, Consistent, CrashFree, Leads, MayReturn, MayRelease, WithSpend, Tidy, Marked;
      NothingLatest(books.spends, books.settlements);
      var found;
      found, made, alive := CurrentOrNewSpend(Release, w, ready);
      if alive && made.Some? {
        ReleaseLeaves(old(books), made.value);
      }
    }

    /** Hands out the release of what is delivered and the cancel of what failed. */
    method HandOut(covenant: seq<SubId>, w1: World, w2: World)
      returns (release: Option<Spend>, cancel: Option<Spend>, handed: bool, alive: bool)
      requires Valid() && books.holder == Closing && books.asking == None && books.latest == None
      requires AllUnready(books, Unready(books.settlements, covenant, |covenant|))
      modifies `books, `log, `budget, `ledger
      ensures Valid() && (!alive ==> books.holder == Nobody)
      ensures old(budget) == None ==> alive && budget == None
      ensures alive && CrashFree(old(log)) ==> CrashFree(log)
      ensures Inv(rules, old(books)) ==> Consistent(rules, books)
      ensures Inv(rules, old(books)) && Unopposed(old(books).spends, release) ==> Inv(rules, books)
      ensures release.Some? ==>
                Subs(release.value.coins) <= Named(Ready(old(books).settlements, covenant, |covenant|))
      ensures Inv(rules, old(books)) && alive ==>
                (StaysSafe(rules, books) <==> LeftUnopposed(old(books).spends, release, cancel.Some?))
      ensures alive ==>
                && HandedOut(old(books), rules.terms, old(ledger), covenant, w1, w2, release, cancel, handed)
                && books == Closed(old(books), covenant, release, cancel, handed)
                && books.holder == Closing && Tidy(books.spends, books.latest)
                && Marked(books.spends, books.latest, books.settlements)
      ensures alive ==>
                var ready := Ready(old(books).settlements, covenant, |covenant|);
                ledger == AllCharged(old(ledger), ready, w1.quote, |ready|) || (release == None && ledger == old(ledger))
    {
      hide Inv, Consistent, StaysSafe, LeftUnopposed, Unopposed, CrashFree, Leads, MayReturn, MayRelease, WithSpend,
           Tidy, Marked,
           CancelHanded, Releases, Returns, Ready, Unready;
      ghost var d := books;
      InvIsConsistent(rules, d);
      cancel, handed := None, false;
      var ready, failed := SortOut(covenant);
      release, alive := HandRelease(ready, w1);
      if !alive {
        return;
      }
      cancel, handed, alive := HandCancel(failed, w2);
      if alive && Inv(rules, d) {
        HandedIsSorted(d, rules.terms, old(ledger), covenant, w1, w2, release, cancel, handed);
        CloseStaysSafeIff(rules, d, books, release, cancel);
      }
    }

    /** Delivers, and hands the issuer what is left to sign. */
    method CloseCovenant(covenant: seq<SubId>, w: World, w1: World, w2: World, p: SubId -> Policy)
      returns (done: nat, release: Option<Spend>, cancel: Option<Spend>, handed: bool, alive: bool)
      requires Valid() && books.holder == Closing && books.asking == None && books.latest == None
      requires Paid(books, covenant)
      modifies `books, `log, `budget, `ledger
      ensures Valid() && (!alive ==> books.holder == Nobody)
      ensures old(budget) == None ==> alive && budget == None
      ensures alive && CrashFree(old(log)) ==> CrashFree(log)
      ensures alive ==> done <= |covenant|
      ensures alive ==>
                && Closes(old(books), rules.terms, old(ledger), covenant, w, w1, w2, p, done, release, cancel, handed)
                && books == Closed(AfterDeliveries(old(books), covenant, p, done), covenant, release, cancel, handed)
                && books.holder == Closing && Tidy(books.spends, books.latest)
                && Marked(books.spends, books.latest, books.settlements)
      ensures alive ==>
                ledger == FeesFixed(old(books), old(ledger), covenant, p, done, w1.quote)
                    || (release == None && ledger == old(ledger))
      ensures Inv(rules, old(books)) ==> Consistent(rules, books)
      ensures Inv(rules, old(books)) && Unopposed(old(books).spends, release) ==> Inv(rules, books)
      ensures Inv(rules, old(books)) && MarkedOver(old(books), Named(covenant)) ==> Inv(rules, books)
      ensures Inv(rules, old(books)) && alive ==>
                (StaysSafe(rules, books) <==> LeftUnopposed(old(books).spends, release, cancel.Some?))
    {
      hide Inv, Consistent, StaysSafe, LeftUnopposed, Unopposed, MarkedOver, CrashFree, Leads, MayRelease, Tidy, Marked,
           AfterDeliveries,
           Attempts, FeasibleNow, Tried, HandedOut, Closed, Ready, Unready, AllUnready;
      ghost var b := books;
      release, cancel, handed := None, None, false;
      NothingReleased(rules, b);
      done, alive := DeliverAll(covenant, w, p);
      InvIsConsistent(rules, books);
      if !alive {
        return;
      }
      AfterTheLoop(b, covenant, p, done);
      release, cancel, handed, alive := HandOut(covenant, w1, w2);
      if MarkedOver(b, Named(covenant)) { ReadyIsUnopposed(b, covenant, p, done, release); }
    }

    /** What a close checks before anything moves. */
    method PrepareClose(covenant: seq<SubId>, w: World) returns (ok: bool)
      ensures ok <==> MayClose(rules, books, ledger, covenant, w)
    {
      hide MayRelease;
      if !LockReached(rules.terms.closeLock, books.tip, books.mtp) {
        return false;
      }
      if LockReached(LastCloseLock(rules.terms.deadlineLock, rules.blocksPerDay), books.tip, books.mtp) {
        return false;
      }
      var sold := [];
      for i := 0 to |covenant|
        invariant sold == StillSold(books.settlements, covenant, i)
      {
        if !Dropped(books.settlements, covenant[i]) {
          sold := sold + [covenant[i]];
        }
      }
      if sold == [] {
        return true;
      }
      var fee := PreviewFees(sold, w.quote);
      var dry := PlanRelease(w, sold, fee);
      ok := dry.Some?;
    }

    /** The issuer closes: nothing moves unless the close has passed, the deadline is not near,
        and a release of everyone not already failed could be built. */
    method HandleClose(covenant: seq<SubId>, w: World, w1: World, w2: World, p: SubId -> Policy)
      returns (done: Option<nat>, release: Option<Spend>, cancel: Option<Spend>, handed: bool, alive: bool)
      requires Valid() && books.holder == Nobody && Paid(books, covenant)
      modifies `books, `log, `budget, `ledger
      ensures Valid() && books.holder == Nobody
      ensures old(budget) == None ==> alive && budget == None
      ensures alive && CrashFree(old(log)) ==> CrashFree(log)
      ensures alive && done.Some? ==> done.value <= |covenant|
      ensures alive && done.Some? && covenant != [] ==>
                var b := Locked(old(books), Closing);
                && Closes(b, rules.terms, old(ledger), covenant, w, w1, w2, p, done.value, release, cancel, handed)
                && books == Stopped(Closed(AfterDeliveries(b, covenant, p, done.value), covenant, release, cancel, handed))
      ensures alive && done.Some? && covenant != [] ==>
                && ClosedRows(old(books).settlements, books.settlements, covenant, p, done.value, handed)
                && CoversThose(release, covenant, books.settlements, AwaitingRelease)
                && CoversThose(cancel, covenant, books.settlements, AwaitingCancel)
      ensures alive && done.Some? ==>
                || ledger == FeesFixed(Locked(old(books), Closing), old(ledger), covenant, p, done.value, w1.quote)
                || (release == None && ledger == old(ledger))
      ensures Inv(rules, old(books)) ==> Consistent(rules, books)
      ensures Inv(rules, old(books)) && Unopposed(old(books).spends, release) ==> Inv(rules, books)
      ensures Inv(rules, old(books)) && MarkedOver(old(books), Named(covenant)) ==> Inv(rules, books)
      ensures Inv(rules, old(books)) && alive ==>
                (StaysSafe(rules, books) <==> LeftUnopposed(old(books).spends, release, cancel.Some?))
      ensures done.Some? <==> covenant == [] || MayClose(rules, old(books), old(ledger), covenant, w)
      ensures done == None || covenant == [] ==> books == old(books) && ledger == old(ledger) && alive
    {
      hide Inv, Consistent, StaysSafe, LeftUnopposed, Unopposed, MarkedOver, CrashFree, Leads, MayRelease,
           AfterDeliveries, Closes, Closed, Tidy, Marked, ClosedRows, CoversThose, FeesFixed;
      done, release, cancel, handed, alive := None, None, None, false, true;
      InvIsConsistent(rules, books);
      NothingReleased(rules, books);
      if covenant == [] {
        done := Some(0);
        return;
      }
      var ok := PrepareClose(covenant, w);
      if !ok {
        return;
      }
      LockKeepsMarks(books, Closing, Named(covenant));
      TakeLock(Closing);
      var n;
      n, release, cancel, handed, alive := CloseCovenant(covenant, w, w1, w2, p);
      done := Some(n);
      if alive {
        if Inv(rules, old(books)) { StopKeepsOutlook(rules, books); }
        ghost var b := Locked(old(books), Closing);
        CloseRowsAre(b, covenant, p, n, release, cancel, handed);
        CloseCovers(b, rules.terms, old(ledger), covenant, p, n, w, w1, w2, release, cancel, handed);
        GiveLock();
      }
    }
  }
}
