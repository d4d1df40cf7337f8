/** The client's nest-aware write transaction over one SQLite connection. */
module WriteTransaction {

  /** What the code inside a block does: writes, failures, deferred commits, inner blocks, handlers. */
  datatype Action =
    | Write(value: int)
    | Raise
    | CommitIfNeeded
    | Block(body: seq<Action>)
    | Try(body: seq<Action>)

  /** Writes executed, whether an exception leaves, and whether any inner block was left by one. */
  datatype Effect = Effect(writes: seq<int>, raised: bool, blockFailed: bool)

  const Nothing := Effect([], false, false)

  function Followed(a: Effect, b: Effect): Effect {
    if a.raised then a else Effect(a.writes + b.writes, b.raised, a.blockFailed || b.blockFailed)
  }

  function EffectOf(a: Action): Effect
    decreases a, 1
  {
    match a
    case Write(v) => Effect([v], false, false)
    case Raise => Effect([], true, false)
    case CommitIfNeeded => Nothing
    case Block(body) => var e := Meaning(body, |body|); e.(blockFailed := e.blockFailed || e.raised)
    case Try(body) => Meaning(body, |body|).(raised := false)
  }

  /** The first `n` actions in order, up to the first exception. */
  function Meaning(body: seq<Action>, n: nat): Effect
    requires n <= |body|
    decreases body, 0, n
  {
    if n == 0 then Nothing else Followed(Meaning(body, n - 1), EffectOf(body[n - 1]))
  }

  lemma {:induction false} RaisedStops(body: seq<Action>, i: nat, n: nat)
    requires i <= n <= |body| && Meaning(body, i).raised
    ensures Meaning(body, n) == Meaning(body, i)
  {
    if i < n {
      RaisedStops(body, i, n - 1);
    }
  }

  /** The connection: committed rows, rows as this transaction sees them. */
  class Store {
    var saved: seq<int>
    var working: seq<int>
    var inTransaction: bool
    var writeDepth: nat
    var rollbackOnly: bool

    constructor ()
      ensures saved == [] && Idle()
    {
      saved, working, inTransaction, writeDepth, rollbackOnly := [], [], false, 0, false;
    }

    /** Nothing is open. */
    predicate Idle()
      reads this
    {
      !inTransaction && writeDepth == 0 && !rollbackOnly && working == saved
    }

    method Execute(value: int)
      modifies `working, `inTransaction
      ensures working == old(working) + [value] && inTransaction
    {
      working, inTransaction := working + [value], true;
    }

    method Commit()
      modifies `saved, `inTransaction
      ensures saved == working && !inTransaction
    {
      saved, inTransaction := working, false;
    }

    method Rollback()
      modifies `working, `inTransaction
      ensures working == saved && !inTransaction
    {
      working, inTransaction := saved, false;
    }

    method CommitStandalone()
      modifies `saved, `inTransaction
      ensures writeDepth > 0 ==> saved == old(saved) && inTransaction == old(inTransaction)
      ensures writeDepth == 0 ==> saved == working && !inTransaction
    {
      if writeDepth == 0 {
        Commit();
      }
    }

    /** Inside a block: everything is deferred, and a failed inner block dooms the whole. */
    method Perform(a: Action) returns (raised: bool)
      requires writeDepth > 0 && inTransaction
      modifies this
      ensures inTransaction && writeDepth == old(writeDepth) && saved == old(saved)
      ensures working == old(working) + EffectOf(a).writes && raised == EffectOf(a).raised
      ensures rollbackOnly == (old(rollbackOnly) || EffectOf(a).blockFailed)
      decreases a, 1
    {
      match a
      case Write(v) =>
        Execute(v);
        raised := false;
      case Raise =>
        raised := true;
      case CommitIfNeeded =>
        CommitStandalone();
        raised := false;
      case Block(body) =>
        raised := InTransaction(body, false);
      case Try(body) =>
        var _ := PerformAll(body);
        raised := false;
    }

    method PerformAll(body: seq<Action>) returns (raised: bool)
      requires writeDepth > 0 && inTransaction
      modifies this
      ensures inTransaction && writeDepth == old(writeDepth) && saved == old(saved)
      ensures var e := Meaning(body, |body|);
        working == old(working) + e.writes && raised == e.raised && rollbackOnly == (old(rollbackOnly) || e.blockFailed)
      decreases body, 0
    {
      var i := 0;
      raised := false;
      while i < |body|
        invariant 0 <= i <= |body| && !raised && !Meaning(body, i).raised
        invariant inTransaction && writeDepth == old(writeDepth) && saved == old(saved)
        invariant working == old(working) + Meaning(body, i).writes
        invariant rollbackOnly == (old(rollbackOnly) || Meaning(body, i).blockFailed)
      {
        raised := Perform(body[i]);
        i := i + 1;
        if raised {
          RaisedStops(body, i, |body|);
          return;
        }
      }
    }

    /** `with write_transaction()`: the outermost block commits all its writes or none. */
    method InTransaction(body: seq<Action>, commitFails: bool) returns (raised: bool)
      requires writeDepth > 0 ==> inTransaction
      requires writeDepth == 0 ==> working == saved || inTransaction
      modifies this
      ensures writeDepth == old(writeDepth)
      ensures old(writeDepth) > 0 ==>
        var e := EffectOf(Block(body));
        inTransaction && saved == old(saved) && working == old(working) + e.writes
        && raised == e.raised && rollbackOnly == (old(rollbackOnly) || e.blockFailed)
      ensures old(writeDepth == 0 && inTransaction) ==>
        raised && saved == old(saved) && working == old(working) && inTransaction && rollbackOnly == old(rollbackOnly)
      ensures old(writeDepth == 0 && !inTransaction) ==>
        var e := EffectOf(Block(body));
        Idle() && raised == (e.blockFailed || commitFails)
        && saved == if e.blockFailed || commitFails then old(saved) else old(saved) + e.writes
      decreases body, 1
    {
      var outermost := writeDepth == 0;
      if outermost {
        if inTransaction {
          return true;
        }
        inTransaction, rollbackOnly := true, false;
      }
      writeDepth := writeDepth + 1;
      raised := PerformAll(body);
      if raised {
        rollbackOnly := true;
        if outermost {
          Rollback();
        }
      } else if outermost {
        if rollbackOnly {
          Rollback();
          raised := true;
        } else if commitFails {
          Rollback();
          raised := true;
        } else {
          Commit();
        }
      }
      writeDepth := writeDepth - 1;
      if outermost {
        rollbackOnly := false;
      }
    }
  }

  // ----- What the effects mean -----

  /** Some block, at any depth, is left by an exception, caught outside it or not. */
  ghost predicate SomeBlockFails(a: Action)
    decreases a, 1
  {
    match a
    case Block(body) => Escapes(body) || SomeReachedFails(body, |body|)
    case Try(body) => SomeReachedFails(body, |body|)
    case _ => false
  }

  /** An exception leaves this list of actions. */
  ghost predicate Escapes(body: seq<Action>)
  {
    Meaning(body, |body|).raised
  }

  ghost predicate SomeReachedFails(body: seq<Action>, n: nat)
    requires n <= |body|
    decreases body, 0, n
  {
    n > 0 && (SomeReachedFails(body, n - 1) || (!Meaning(body, n - 1).raised && SomeBlockFails(body[n - 1])))
  }

  lemma {:induction false} BlockFailedIsSomeBlock(a: Action)
    ensures EffectOf(a).blockFailed <==> SomeBlockFails(a)
    decreases a, 1
  {
    if a.Block? || a.Try? {
      ReachedFailures(a.body, |a.body|);
    }
  }

  lemma {:induction false} ReachedFailures(body: seq<Action>, n: nat)
    requires n <= |body|
    ensures Meaning(body, n).blockFailed <==> SomeReachedFails(body, n)
    decreases body, 0, n
  {
    if n > 0 {
      ReachedFailures(body, n - 1);
      BlockFailedIsSomeBlock(body[n - 1]);
    }
  }

  /** All or nothing, for every tree of blocks: the writes of a unit of work appear exactly when
    * no block in it failed, and then they are all the writes its actions made. */
  method UnitOfWork(store: Store, body: seq<Action>) returns (raised: bool)
    requires store.Idle()
    modifies store
    ensures store.Idle() && raised == SomeBlockFails(Block(body))
    ensures store.saved == if raised then old(store.saved) else old(store.saved) + EffectOf(Block(body)).writes
  {
    BlockFailedIsSomeBlock(Block(body));
    raised := store.InTransaction(body, false);
  }
}
