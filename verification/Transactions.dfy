/** `WithinTransaction`: commit, rollback, and what a nested call joins. */
module Transactions {
  import opened Common
  import opened Tables
  import opened Repository

  /** What a callback does with the database: statements in sequence, nested calls of
      `WithinTransaction`, and calls whose error the caller ignores. */
  datatype Script<!S> =
    | Done
    | Statement(effect: S -> Result<S>)
    | Then(first: Script<S>, second: Script<S>)
    | Within(body: Script<S>)
    | Ignoring(body: Script<S>)

  /** The working copy of an open transaction, and the error the callback returns. */
  datatype Run<S> = Run(state: S, error: Option<Error>)

  /** Inside an open transaction: a nested call just runs its callback. */
  function Inside<S>(script: Script<S>, s: S): Run<S> {
    match script
    case Done => Run(s, None)
    case Statement(effect) => (match effect(s) case Ok(s') => Run(s', None) case Err(e) => Run(s, Some(e)))
    case Then(first, second) =>
      var r := Inside(first, s);
      if r.error.Some? then r else Inside(second, r.state)
    case Within(body) => Inside(body, s)
    case Ignoring(body) => Run(Inside(body, s).state, None)
  }

  /** The outermost call: an error rolls everything back. */
  function WithinTransaction<S>(script: Script<S>, s: S): Run<S> {
    var r := Inside(script, s);
    if r.error.Some? then Run(s, r.error) else r
  }

  /** The same with real nested transactions, each of which rolls back its own failure. */
  function Savepoints<S>(script: Script<S>, s: S): Run<S> {
    match script
    case Done => Run(s, None)
    case Statement(effect) => (match effect(s) case Ok(s') => Run(s', None) case Err(e) => Run(s, Some(e)))
    case Then(first, second) =>
      var r := Savepoints(first, s);
      if r.error.Some? then r else Savepoints(second, r.state)
    case Within(body) =>
      var r := Savepoints(body, s);
      if r.error.Some? then Run(s, r.error) else r
    case Ignoring(body) => Run(Savepoints(body, s).state, None)
  }

  function WithSavepoints<S>(script: Script<S>, s: S): Run<S> {
    var r := Savepoints(script, s);
    if r.error.Some? then Run(s, r.error) else r
  }

  // --- Shapes -----------------------------------------------------------------------------------------

  /** A script without its effects: which statements there are, and which of them can fail. */
  datatype Shape =
    | Nothing
    | Write(canFail: bool)
    | Sequence(first: Shape, second: Shape)
    | Nested(body: Shape)
    | Tolerated(body: Shape)

  ghost predicate Fits<S(!new)>(script: Script<S>, shape: Shape) {
    match shape
    case Nothing => script.Done?
    case Write(canFail) => script.Statement? && (canFail || forall s :: script.effect(s).Ok?)
    case Sequence(a, b) => script.Then? && Fits(script.first, a) && Fits(script.second, b)
    case Nested(b) => script.Within? && Fits(script.body, b)
    case Tolerated(b) => script.Ignoring? && Fits(script.body, b)
  }

  predicate HasStatement(shape: Shape) {
    match shape
    case Nothing => false
    case Write(_) => true
    case Sequence(a, b) => HasStatement(a) || HasStatement(b)
    case Nested(b) => HasStatement(b)
    case Tolerated(b) => HasStatement(b)
  }

  predicate CanFail(shape: Shape) {
    match shape
    case Nothing => false
    case Write(canFail) => canFail
    case Sequence(a, b) => CanFail(a) || CanFail(b)
    case Nested(b) => CanFail(b)
    case Tolerated(_) => false
  }

  /** A statement whose failure is passed on follows another statement. */
  predicate FailsMidway(shape: Shape) {
    match shape
    case Nothing => false
    case Write(_) => false
    case Sequence(a, b) => FailsMidway(a) || FailsMidway(b) || (HasStatement(a) && CanFail(b))
    case Nested(b) => FailsMidway(b)
    case Tolerated(_) => false
  }

  /** A nested call can fail midway and pass its failure on. */
  predicate NestedFailsMidway(shape: Shape) {
    match shape
    case Nothing => false
    case Write(_) => false
    case Sequence(a, b) => NestedFailsMidway(a) || NestedFailsMidway(b)
    case Nested(b) => FailsMidway(b)
    case Tolerated(_) => false
  }

  /** No nested call that can fail midway has its failure ignored. */
  predicate Safe(shape: Shape) {
    match shape
    case Nothing => true
    case Write(_) => true
    case Sequence(a, b) => Safe(a) && Safe(b)
    case Nested(b) => Safe(b)
    case Tolerated(b) => Safe(b) && !NestedFailsMidway(b)
  }

  /** Without a statement nothing changes, and what cannot fail does not. */
  lemma {:induction false} Inert<S(!new)>(script: Script<S>, shape: Shape, s: S)
    requires Fits(script, shape)
    ensures !HasStatement(shape) ==> Inside(script, s).state == s
    ensures !CanFail(shape) ==> Inside(script, s).error.None?
    decreases shape
  {
    match shape
    case Nothing =>
    case Write(_) =>
    case Sequence(a, b) =>
      Inert(script.first, a, s);
      Inert(script.second, b, Inside(script.first, s).state);
    case Nested(b) => Inert(script.body, b, s);
    case Tolerated(b) => Inert(script.body, b, s);
  }

  lemma {:induction false} FailsAtOnce<S(!new)>(script: Script<S>, shape: Shape, s: S)
    requires Fits(script, shape) && !FailsMidway(shape) && Inside(script, s).error.Some?
    ensures Inside(script, s).state == s
    decreases shape
  {
    match shape
    case Nothing =>
    case Write(_) =>
    case Sequence(a, b) =>
      if Inside(script.first, s).error.Some? {
        FailsAtOnce(script.first, a, s);
      } else {
        Inert(script.first, a, s);
        Inert(script.second, b, Inside(script.first, s).state);
        FailsAtOnce(script.second, b, Inside(script.first, s).state);
      }
    case Nested(b) => FailsAtOnce(script.body, b, s);
    case Tolerated(_) =>
  }

  lemma {:induction false} SafeAgrees<S(!new)>(script: Script<S>, shape: Shape, s: S)
    requires Fits(script, shape) && Safe(shape)
    ensures Savepoints(script, s).error == Inside(script, s).error
    ensures Inside(script, s).error.None? || !NestedFailsMidway(shape) ==> Savepoints(script, s).state == Inside(script, s).state
    decreases shape
  {
    match shape
    case Nothing =>
    case Write(_) =>
    case Sequence(a, b) =>
      SafeAgrees(script.first, a, s);
      SafeAgrees(script.second, b, Inside(script.first, s).state);
    case Nested(b) =>
      SafeAgrees(script.body, b, s);
      if !FailsMidway(b) && Inside(script.body, s).error.Some? {
        FailsAtOnce(script.body, b, s);
      }
    case Tolerated(b) => SafeAgrees(script.body, b, s);
  }

  /** A safe callback cannot tell joined calls from real nested transactions, whatever its statements
      do. */
  lemma JoinedIsNested<S(!new)>(script: Script<S>, shape: Shape, s: S)
    requires Fits(script, shape) && Safe(shape)
    ensures WithinTransaction(script, s) == WithSavepoints(script, s)
  {
    SafeAgrees(script, shape, s);
  }

  // --- The counterexamples of an unsafe shape -----------------------------------------------------------

  function Increment(): Script<int> {
    Statement((n: int) => Ok(n + 1))
  }

  function Refuse(): Script<int> {
    Statement((n: int) => Err(DatabaseFailure))
  }

  /** Every statement counts. */
  function AllCount(shape: Shape): Script<int> {
    match shape
    case Nothing => Done
    case Write(_) => Increment()
    case Sequence(a, b) => Then(AllCount(a), AllCount(b))
    case Nested(b) => Within(AllCount(b))
    case Tolerated(b) => Ignoring(AllCount(b))
  }

  function Statements(shape: Shape): (n: nat)
    ensures HasStatement(shape) ==> n > 0
  {
    match shape
    case Nothing => 0
    case Write(_) => 1
    case Sequence(a, b) => Statements(a) + Statements(b)
    case Nested(b) => Statements(b)
    case Tolerated(b) => Statements(b)
  }

  /** A statement that can fail does, after all before it have counted. */
  function OneFails(shape: Shape): Script<int>
    requires CanFail(shape)
  {
    match shape
    case Write(_) => Refuse()
    case Sequence(a, b) => if CanFail(b) then Then(AllCount(a), OneFails(b)) else Then(OneFails(a), AllCount(b))
    case Nested(b) => Within(OneFails(b))
  }

  /** The same for one that follows another. */
  function Midway(shape: Shape): Script<int>
    requires FailsMidway(shape)
  {
    match shape
    case Sequence(a, b) =>
      if HasStatement(a) && CanFail(b) then Then(AllCount(a), OneFails(b))
      else if FailsMidway(a) then Then(Midway(a), AllCount(b))
      else Then(AllCount(a), Midway(b))
    case Nested(b) => Within(Midway(b))
  }

  /** The same inside a nested call. */
  function NestedMidway(shape: Shape): Script<int>
    requires NestedFailsMidway(shape)
  {
    match shape
    case Sequence(a, b) =>
      if NestedFailsMidway(a) then Then(NestedMidway(a), AllCount(b)) else Then(AllCount(a), NestedMidway(b))
    case Nested(b) => Within(Midway(b))
  }

  /** The same where the failure is ignored. */
  function Unsafe(shape: Shape): Script<int>
    requires !Safe(shape)
  {
    match shape
    case Sequence(a, b) => if !Safe(a) then Then(Unsafe(a), AllCount(b)) else Then(AllCount(a), Unsafe(b))
    case Nested(b) => Within(Unsafe(b))
    case Tolerated(b) => Ignoring(if NestedFailsMidway(b) then NestedMidway(b) else Unsafe(b))
  }

  lemma {:induction false} AllCountCounts(shape: Shape, n: int)
    ensures Fits(AllCount(shape), shape)
    ensures Inside(AllCount(shape), n) == Savepoints(AllCount(shape), n) == Run(n + Statements(shape), None)
  {
    match shape
    case Nothing =>
    case Write(_) =>
    case Sequence(a, b) =>
      AllCountCounts(a, n);
      AllCountCounts(b, n + Statements(a));
    case Nested(b) => AllCountCounts(b, n);
    case Tolerated(b) => AllCountCounts(b, n);
  }

  lemma {:induction false} OneFailsFails(shape: Shape, n: int)
    requires CanFail(shape)
    ensures Fits(OneFails(shape), shape)
    ensures Inside(OneFails(shape), n).error.Some? && Savepoints(OneFails(shape), n).error.Some?
    ensures Inside(OneFails(shape), n).state >= n
  {
    match shape
    case Write(_) =>
    case Sequence(a, b) =>
      AllCountCounts(a, n);
      AllCountCounts(b, n);
      if CanFail(b) {
        OneFailsFails(b, n + Statements(a));
      } else {
        OneFailsFails(a, n);
      }
    case Nested(b) => OneFailsFails(b, n);
  }

  lemma {:induction false} MidwayMoves(shape: Shape, n: int)
    requires FailsMidway(shape)
    ensures Fits(Midway(shape), shape)
    ensures Inside(Midway(shape), n).error.Some? && Savepoints(Midway(shape), n).error.Some?
    ensures Inside(Midway(shape), n).state > n
  {
    match shape
    case Sequence(a, b) =>
      AllCountCounts(a, n);
      AllCountCounts(b, n);
      if HasStatement(a) && CanFail(b) {
        OneFailsFails(b, n + Statements(a));
      } else if FailsMidway(a) {
        MidwayMoves(a, n);
      } else {
        MidwayMoves(b, n + Statements(a));
      }
    case Nested(b) => MidwayMoves(b, n);
  }

  lemma {:induction false} NestedMidwayMoves(shape: Shape, n: int)
    requires NestedFailsMidway(shape)
    ensures Fits(NestedMidway(shape), shape)
    ensures Inside(NestedMidway(shape), n).error.Some? && Savepoints(NestedMidway(shape), n).error.Some?
    ensures Inside(NestedMidway(shape), n).state > Savepoints(NestedMidway(shape), n).state
  {
    match shape
    case Sequence(a, b) =>
      AllCountCounts(a, n);
      AllCountCounts(b, n);
      if NestedFailsMidway(a) {
        NestedMidwayMoves(a, n);
      } else {
        NestedMidwayMoves(b, n + Statements(a));
      }
    case Nested(b) => MidwayMoves(b, n);
  }

  lemma {:induction false} UnsafeDiffers(shape: Shape, n: int)
    requires !Safe(shape)
    ensures Fits(Unsafe(shape), shape)
    ensures Inside(Unsafe(shape), n).error.None? && Savepoints(Unsafe(shape), n).error.None?
    ensures Inside(Unsafe(shape), n).state > Savepoints(Unsafe(shape), n).state
  {
    match shape
    case Sequence(a, b) =>
      AllCountCounts(a, n);
      if !Safe(a) {
        UnsafeDiffers(a, n);
        AllCountCounts(b, Inside(Unsafe(a), n).state);
        AllCountCounts(b, Savepoints(Unsafe(a), n).state);
      } else {
        UnsafeDiffers(b, n + Statements(a));
      }
    case Nested(b) => UnsafeDiffers(b, n);
    case Tolerated(b) =>
      if NestedFailsMidway(b) {
        NestedMidwayMoves(b, n);
      } else {
        UnsafeDiffers(b, n);
      }
  }

  /** Joined calls and real nested transactions come to the same for every callback of a shape. */
  ghost predicate Agrees(shape: Shape) {
    forall script: Script<int>, s: int :: Fits(script, shape) ==> WithinTransaction(script, s) == WithSavepoints(script, s)
  }

  /** Joined calls and real nested transactions differ exactly where the failure of a nested call is
      ignored in which a statement that can fail follows another: the statements that ran before it are
      then committed with the outer transaction. */
  lemma AgreesExactly(shape: Shape)
    ensures Agrees(shape) <==> Safe(shape)
  {
    if Safe(shape) {
      forall script: Script<int>, s: int | Fits(script, shape)
        ensures WithinTransaction(script, s) == WithSavepoints(script, s)
      {
        JoinedIsNested(script, shape, s);
      }
    } else {
      UnsafeDiffers(shape, 0);
      assert WithinTransaction(Unsafe(shape), 0) != WithSavepoints(Unsafe(shape), 0);
    }
  }

  // --- On the database ----------------------------------------------------------------------------------

  function FailedCall(): Script<Tables> {
    Statement((t: Tables) => Err(DatabaseFailure))
  }

  /** `ran` is `script` with some statements replaced by failing calls. */
  ghost predicate WithFailures(ran: Script<Tables>, script: Script<Tables>) {
    match script
    case Done => ran.Done?
    case Statement(_) => ran == script || ran == FailedCall()
    case Then(a, b) => ran.Then? && WithFailures(ran.first, a) && WithFailures(ran.second, b)
    case Within(b) => ran.Within? && WithFailures(ran.body, b)
    case Ignoring(b) => ran.Ignoring? && WithFailures(ran.body, b)
  }

  lemma {:induction false} NoFailures(script: Script<Tables>)
    ensures WithFailures(script, script)
    decreases script
  {
    match script
    case Done =>
    case Statement(_) =>
    case Then(a, b) =>
      NoFailures(a);
      NoFailures(b);
    case Within(b) => NoFailures(b);
    case Ignoring(b) => NoFailures(b);
  }

  function Answer(e: Option<Error>): Result<()> {
    if e.Some? then Err(e.value) else Ok(())
  }

  /** A script inside an open transaction.  Its nested calls go through `Begin` and `Finish`. */
  method Execute(db: Database, script: Script<Tables>) returns (r: Result<()>, ghost ran: Script<Tables>)
    requires db.inTransaction
    modifies db
    ensures db.inTransaction && db.saved == old(db.saved) && db.calls >= old(db.calls)
    ensures WithFailures(ran, script)
    ensures (forall c :: old(db.calls) <= c < db.calls ==> c !in db.failing) ==> ran == script
    ensures db.tables == Inside(ran, old(db.tables)).state && r == Answer(Inside(ran, old(db.tables)).error)
    decreases script
  {
    match script
    case Done =>
      r, ran := Ok(()), Done;
    case Statement(effect) =>
      var ok := db.Call();
      ran := if ok then script else FailedCall();
      if !ok {
        return Err(DatabaseFailure), ran;
      }
      match effect(db.tables) {
        case Ok(t) =>
          db.tables := t;
          r := Ok(());
        case Err(e) =>
          r := Err(e);
      }
    case Then(first, second) =>
      ghost var ran1, ran2 := first, second;
      r, ran1 := Execute(db, first);
      NoFailures(second);
      if r.Ok? {
        r, ran2 := Execute(db, second);
      }
      ran := Then(ran1, ran2);
    case Within(body) =>
      var e, owner := db.Begin();
      var b, inner := Execute(db, body);
      r := db.Finish(owner, b);
      ran := Within(inner);
    case Ignoring(body) =>
      var b, inner := Execute(db, body);
      r, ran := Ok(()), Ignoring(inner);
  }

  /** A script as the callback of the outermost call: what it does is committed as a whole or, if it
      returns an error or the commit fails, not at all. */
  method Transact(db: Database, script: Script<Tables>) returns (r: Result<()>, ghost ran: Script<Tables>)
    requires !db.inTransaction
    modifies db
    ensures !db.inTransaction && WithFailures(ran, script)
    ensures (forall c :: old(db.calls) <= c < db.calls ==> c !in db.failing) ==>
              && ran == script
              && db.tables == WithinTransaction(script, old(db.tables)).state
              && r == Answer(WithinTransaction(script, old(db.tables)).error)
    ensures r.Ok? ==> WithinTransaction(ran, old(db.tables)) == Run(db.tables, None)
    ensures r.Err? ==> db.tables == old(db.tables)
  {
    NoFailures(script);
    ran := script;
    var e, owner := db.Begin();
    if e.Some? {
      assert old(db.calls) in db.failing;
      return Err(e.value), ran;
    }
    var body;
    body, ran := Execute(db, script);
    r := db.Finish(owner, body);
  }
}
