/**
 * The app-start guard service (`AppService`): a request gate in front of a
 * registry of pending transactions.
 *
 * A client asks, through `noteAppStart`, whether a package may start. Requests
 * for packages outside the guard set are answered at once with
 * `MODE_IGNORED`. A request for a guarded package becomes a `Transaction` under
 * a fresh id; the user's answer later arrives through `onTransactionRes`,
 * which delivers it to the client's callback unless a death notice has
 * marked the transaction dead, and
 * removes the transaction in every case.
 *
 * In the Java code only the `put` in `noteAppStart` and the body of
 * `onTransactionRes` hold the lock on the transaction map; the guard check,
 * the id counter, `loadGuardPackages` and `binderDied` run without it. The
 * model is sequential: every method is one atomic step.
 */
module Service {
  import opened Wrappers
  import opened JavaInt

  /** `Build.VERSION_CODES.LOLLIPOP`, the API level from which the user is asked. */
  const LOLLIPOP: int := 21
  /** The initial value of `TRANS_ID_BASE`. */
  const FIRST_TRANSACTION_ID: int := 2017

  /** A remote `ICallback`, identified by the binder that carries it. */
  datatype Callback = Callback(binder: nat)

  /** One row of the stored package list: its `pkgName` and its `guard` flag. */
  datatype PackageInfo = PackageInfo(pkgName: string, guard: bool)

  /** One call of `ICallback.onRes` made by the service. */
  datatype Reply =
      /** `onRes(MODE_IGNORED)`, the immediate answer to an unguarded request. */
    | Ignored(callback: Callback)
      /** The answer `res` for transaction `id`; `serial` says which registration created it. */
    | Delivered(serial: nat, id: int, callback: Callback, res: int)

  // ---------------------------------------------------------------------------
  // Transaction ids

  /** The id handed out by the `n`-th call of `transactionID` (counting from 0). */
  function IdAt(n: nat): (id: int)
    ensures IsInt(id)
    ensures FIRST_TRANSACTION_ID + n <= INT_MAX ==> id == FIRST_TRANSACTION_ID + n
  {
    Wrap(FIRST_TRANSACTION_ID + n)
  }

  /** Each id is the previous one plus one, as a Java `int`. */
  lemma IdAtNext(n: nat)
    ensures IdAt(n + 1) == Wrap(IdAt(n) + 1)
  {
    WrapIncrement(FIRST_TRANSACTION_ID + n);
  }

  /** The first 2^32 ids handed out are pairwise distinct. */
  lemma IdsDistinct(i: nat, j: nat)
    requires i < j < TWO32
    ensures IdAt(i) != IdAt(j)
  {
    WrapInjectiveWithinPeriod(FIRST_TRANSACTION_ID + i, FIRST_TRANSACTION_ID + j);
  }

  /** After 2^32 calls the counter has wrapped all the way round and repeats an id. */
  lemma IdsRepeatAfterWrap(n: nat)
    ensures IdAt(n + TWO32) == IdAt(n)
    ensures IdAt(INT_MAX - FIRST_TRANSACTION_ID + 1) == INT_MIN
  {
  }

  /** `TransactionFactory`: the process-wide id counter `TRANS_ID_BASE`. */
  class TransactionFactory {
    /** The id that the next call hands out. */
    var base: int
    /** How many ids have been handed out so far. */
    ghost var issued: nat

    ghost predicate Valid()
      reads this
    {
      base == IdAt(issued)
    }

    constructor ()
      ensures Valid() && issued == 0 && base == FIRST_TRANSACTION_ID
    {
      base := FIRST_TRANSACTION_ID;
      issued := 0;
    }

    /** `transactionID`: `getAndIncrement` on the counter. */
    method TransactionId() returns (id: int)
      requires Valid()
      modifies this
      ensures Valid()
      ensures id == old(base) == IdAt(old(issued))
      ensures issued == old(issued) + 1 && base == Wrap(id + 1)
    {
      IdAtNext(issued);
      id := base;
      base := Wrap(base + 1);
      issued := issued + 1;
    }
  }

  // ---------------------------------------------------------------------------
  // Transactions

  /** A pending request, watching its callback's binder for death. */
  class Transaction {
    const id: int
    const pkg: string
    const callback: Callback
    /** Which registration created this transaction: it got the `serial`-th id. */
    ghost const serial: nat
    /** Set once the callback's owning process has died. */
    var dead: bool
    /** Whether this transaction is registered as the death recipient of its callback's binder. */
    var linked: bool

    /**
     * Creates the transaction and links it to the callback's binder; a link
     * that fails (`linkSucceeds` false) is ignored, as the Java constructor does.
     */
    constructor (id: int, pkg: string, callback: Callback, linkSucceeds: bool, ghost serial: nat)
      ensures this.id == id && this.pkg == pkg && this.callback == callback && this.serial == serial
      ensures !dead && linked == linkSucceeds
    {
      this.id := id;
      this.pkg := pkg;
      this.callback := callback;
      this.serial := serial;
      dead := false;
      linked := linkSucceeds;
    }

    /** The death notification: only marks the transaction dead. */
    method BinderDied()
      modifies this`dead
      ensures dead
    {
      dead := true;
    }

    /** Releases the death watch. */
    method UnLinkToDeath()
      modifies this`linked
      ensures !linked
    {
      linked := false;
    }
  }

  // ---------------------------------------------------------------------------
  // Guard set

  /** The packages whose stored `guard` flag is set. */
  function GuardedNames(packages: seq<PackageInfo>): (names: set<string>)
    ensures forall p :: p in names <==>
      exists i :: 0 <= i < |packages| && packages[i].guard && packages[i].pkgName == p
  {
    if packages == [] then {}
    else
      var init, last := packages[..|packages| - 1], packages[|packages| - 1];
      assert forall i :: 0 <= i < |init| ==> init[i] == packages[i];
      GuardedNames(init) + if last.guard then {last.pkgName} else {}
  }

  // ---------------------------------------------------------------------------
  // The delivery log

  /** Each transaction (each registration) is answered at most once. */
  ghost predicate AtMostOncePerTransaction(replies: seq<Reply>) {
    forall i, j | 0 <= i < j < |replies| && replies[i].Delivered? && replies[j].Delivered? ::
      replies[i].serial != replies[j].serial
  }

  /** Each transaction id is answered at most once. */
  ghost predicate AtMostOncePerId(replies: seq<Reply>) {
    forall i, j | 0 <= i < j < |replies| && replies[i].Delivered? && replies[j].Delivered? ::
      replies[i].id != replies[j].id
  }

  /** The deliveries of a log name transactions among the first `issued` registrations. */
  ghost predicate DeliveriesIssued(replies: seq<Reply>, issued: nat) {
    forall i | 0 <= i < |replies| && replies[i].Delivered? ::
      replies[i].serial < issued && replies[i].id == IdAt(replies[i].serial)
  }

  /** As long as the counter has not wrapped round, once per transaction is once per id. */
  lemma OncePerTransactionIsOncePerId(replies: seq<Reply>, issued: nat)
    requires issued <= TWO32
    requires DeliveriesIssued(replies, issued)
    requires AtMostOncePerTransaction(replies)
    ensures AtMostOncePerId(replies)
  {
    forall i, j | 0 <= i < j < |replies| && replies[i].Delivered? && replies[j].Delivered?
      ensures replies[i].id != replies[j].id
    {
      var si, sj := replies[i].serial, replies[j].serial;
      if si < sj {
        IdsDistinct(si, sj);
      } else {
        IdsDistinct(sj, si);
      }
    }
  }

  // ---------------------------------------------------------------------------
  // The service

  class AppService {
    /** `TRANSACTIONS`: the pending transactions by id. */
    var transactions: map<int, Transaction>
    /** `GUARD_PACKAGES`: the packages whose start requests are passed on. */
    var guardPackages: set<string>
    /** The id counter (a static of the Java service class). */
    const factory: TransactionFactory
    /** Every call of `onRes` the service has made, in order. */
    ghost var replies: seq<Reply>

    /**
     * Every pending transaction sits under its own id, which it got at some
     * earlier registration, and has not been answered; every answered
     * transaction was answered once.
     */
    ghost predicate Valid()
      reads this, factory
    {
      && factory.Valid()
      && (forall k | k in transactions ::
            && transactions[k].id == k
            && transactions[k].serial < factory.issued
            && k == IdAt(transactions[k].serial))
      && DeliveriesIssued(replies, factory.issued)
      && (forall i, k | 0 <= i < |replies| && replies[i].Delivered? && k in transactions ::
            replies[i].serial != transactions[k].serial)
      && AtMostOncePerTransaction(replies)
    }

    constructor ()
      ensures Valid() && fresh(factory)
      ensures factory.base == FIRST_TRANSACTION_ID && factory.issued == 0
      ensures transactions == map[] && guardPackages == {} && replies == []
    {
      transactions := map[];
      guardPackages := {};
      factory := new TransactionFactory();
      replies := [];
    }

    /** `bypass`: requests for packages outside the guard set are not passed on. */
    predicate Bypass(pkg: string)
      reads this
    {
      pkg !in guardPackages
    }

    /**
     * `noteAppStart`. An unguarded request is answered `MODE_IGNORED` and
     * changes nothing else. A guarded one gets the next id and a new, live
     * transaction under it; from API level `LOLLIPOP` on, the returned id is
     * the one handed to the user prompt, whose answer comes back through
     * `OnTransactionRes`. A null callback (`None`) makes the call throw a
     * `NullPointerException` that neither `catch (RemoteException …)` handles
     * (reported as `threw`): unguarded, no reply is sent; guarded, the id is
     * used up but no transaction is added.
     */
    method NoteAppStart(callback: Option<Callback>, pkg: string, sdkInt: int, linkSucceeds: bool)
      returns (noted: Option<int>, threw: bool)
      requires Valid()
      modifies this, factory
      ensures Valid()
      ensures guardPackages == old(guardPackages)
      ensures threw <==> callback.None?
      ensures threw ==> noted == None && transactions == old(transactions) && replies == old(replies)
      ensures old(Bypass(pkg)) ==>
        && replies == old(replies) + (if threw then [] else [Ignored(callback.value)])
        && transactions == old(transactions)
        && factory.base == old(factory.base) && factory.issued == old(factory.issued)
        && noted == None
      ensures !old(Bypass(pkg)) ==>
        factory.issued == old(factory.issued) + 1 && factory.base == Wrap(old(factory.base) + 1)
      ensures !old(Bypass(pkg)) && !threw ==>
        var id := old(factory.base);
        && id in transactions && transactions == old(transactions)[id := transactions[id]]
        && fresh(transactions[id])
        && transactions[id].id == id && transactions[id].serial == old(factory.issued)
        && transactions[id].pkg == pkg && transactions[id].callback == callback.value
        && !transactions[id].dead && transactions[id].linked == linkSucceeds
        && (old(factory.issued) < TWO32 ==> id !in old(transactions))
        && replies == old(replies)
        && noted == if sdkInt >= LOLLIPOP then Some(id) else None
    {
      if Bypass(pkg) {
        if callback.None? {
          // `callback.onRes` on null
          return None, true;
        }
        replies := replies + [Ignored(callback.value)];
        return None, false;
      }
      ghost var serial := factory.issued;
      var transactionId := factory.TransactionId();
      if callback.None? {
        // `callback.asBinder()` on null, in the `Transaction` constructor, before the `put`
        return None, true;
      }
      var t := new Transaction(transactionId, pkg, callback.value, linkSucceeds, serial);
      forall k | k in transactions && serial < TWO32
        ensures k != transactionId
      {
        IdsDistinct(transactions[k].serial, serial);
      }
      transactions := transactions[transactionId := t];
      noted := if sdkInt >= LOLLIPOP then Some(transactionId) else None;
      threw := false;
    }

    /**
     * `onTransactionRes`. An unknown id changes nothing. A known id is always
     * unlinked and removed; its result reaches the callback only if the
     * transaction is not dead.
     */
    method OnTransactionRes(id: int, res: int)
      requires Valid()
      modifies this, if id in transactions then {transactions[id]} else {}
      ensures Valid()
      ensures guardPackages == old(guardPackages)
      ensures id !in old(transactions) ==>
        transactions == old(transactions) && replies == old(replies)
      ensures id in old(transactions) ==>
        var t := old(transactions[id]);
        && transactions == old(transactions) - {id}
        && !t.linked && t.dead == old(t.dead)
        && replies == old(replies) + if old(t.dead) then [] else [Delivered(t.serial, id, t.callback, res)]
    {
      if id !in transactions {
        return;
      }
      var t := transactions[id];
      if !t.dead {
        replies := replies + [Delivered(t.serial, id, t.callback, res)];
      }
      t.UnLinkToDeath();
      transactions := transactions - {id};
    }

    /**
     * `loadGuardPackages`. Without a storage session nothing changes;
     * otherwise the guard set is cleared and refilled from the stored list.
     */
    method LoadGuardPackages(session: Option<seq<PackageInfo>>)
      requires Valid()
      modifies this`guardPackages
      ensures Valid()
      ensures session.None? ==> guardPackages == old(guardPackages)
      ensures session.Some? ==> guardPackages == GuardedNames(session.value)
    {
      if session.None? {
        return;
      }
      var packages := session.value;
      guardPackages := {};
      for i := 0 to |packages|
        invariant guardPackages == GuardedNames(packages[..i])
      {
        assert packages[..i + 1][..i] == packages[..i];
        if packages[i].guard {
          guardPackages := guardPackages + {packages[i].pkgName};
        }
      }
      assert packages[..|packages|] == packages;
    }
  }

  /**
   * Not a member of the Java service: a client that shows what the contracts
   * above pin down, on two runs. A guarded
   * request answered once (a second answer for the same id is a no-op), and a
   * request whose client dies before the answer (nothing is delivered, the
   * entry still goes). An unguarded request is answered `MODE_IGNORED`.
   */
  method EndToEndScenarios()
  {
    var service := new AppService();
    service.LoadGuardPackages(Some([PackageInfo("com.a", true), PackageInfo("com.b", false)]));
    assert service.guardPackages == {"com.a"} by {
      assert [PackageInfo("com.a", true), PackageInfo("com.b", false)][0].pkgName == "com.a";
    }
    var cb := Callback(1);

    var noted, threw := service.NoteAppStart(Some(cb), "com.a", LOLLIPOP, true);
    assert noted == Some(2017) && service.transactions.Keys == {2017};
    service.OnTransactionRes(2017, 1);
    assert service.replies == [Delivered(0, 2017, cb, 1)] && service.transactions == map[];
    service.OnTransactionRes(2017, 1);
    assert service.replies == [Delivered(0, 2017, cb, 1)] && service.transactions == map[];

    noted, threw := service.NoteAppStart(Some(cb), "com.a", LOLLIPOP, true);
    assert noted == Some(2018);
    var t := service.transactions[2018];
    t.BinderDied();
    assert service.transactions == map[2018 := t] && t.dead;
    service.OnTransactionRes(2018, 1);
    assert service.replies == [Delivered(0, 2017, cb, 1)] && service.transactions == map[];

    noted, threw := service.NoteAppStart(Some(cb), "com.b", LOLLIPOP, true);
    assert noted == None && service.transactions == map[];
    assert service.replies == [Delivered(0, 2017, cb, 1), Ignored(cb)];

    noted, threw := service.NoteAppStart(None, "com.a", LOLLIPOP, true);
    assert threw && noted == None && service.transactions == map[];
    assert service.factory.base == 2020;
  }
}
