/** The methods of module Database, called in a reachable state, are steps of the engine's runs. */
module DatabaseRuns {
  import opened Basics
  import E = Engine
  import opened EngineInvariant
  import opened EngineDecisions
  import R = EngineRuns
  import S = EngineSafety
  import Database
  import A = Answers

  /** The tables of every reachable state meet what the methods ask for. */
  lemma ReachableTables(db: E.Db)
    requires RowsOk(db.wagers) && IndexOk(db) && WalletsOk(db)
    ensures Database.TablesOk(db)
  {
    forall id | id in db.wagers
      ensures db.wagers[id].wager.terms.id == id
      ensures db.wagers[id].retry.Some? ==> Database.Indexed(db, db.wagers[id].wager.terms)
    {
      assert RowOk(id, db.wagers[id]);
      var t := db.wagers[id].wager.terms;
      if db.wagers[id].retry.Some? {
        assert Listed(db.byExternal, E.ExternalKey(t), id) && Listed(db.byKey, E.IdempotencyKey(t), id);
      }
    }
  }

  /** Process as a method is an enabled Submit step, answered as the table over the command says; the invariant survives. */
  lemma ProcessIsStep(s: R.World, c: E.Command, id: Uuid, createdAt: Time, x: E.Context)
    requires S.WorldInv(s) && x.policy == s.policy
    requires id != NIL_UUID && id !in s.db.wagers && FreshIds(s.db, x.ids)
    requires ZERO_TIME < createdAt && R.Reading(s, c.walletId, createdAt, x.now)
    ensures var a := R.Submit(c, id, createdAt, E.FindByExternal(s.db, (c.providerId, c.referenceExternalId)), x);
            var answer := Database.Answer(s.db, c, id, createdAt, x);
            && R.Enabled(s, a) && R.Next(s, a) == s.(db := if answer.Ok? then answer.value.db else s.db)
            && S.Continues(s, R.Next(s, a)) && A.AnswersCommand(s.db, c, id, createdAt, a.found, x, answer)
  {
    hide A.AnswersCommand, E.Process;
    var found := E.FindByExternal(s.db, (c.providerId, c.referenceExternalId));
    LookupIsSeen(s.db, (c.providerId, c.referenceExternalId));
    A.ProcessAnswers(s, c, id, createdAt, found, x);
    S.StepKeepsWorld(s, R.Submit(c, id, createdAt, found, x));
  }

  /** HandleMessage is an enabled Deliver step, answered by the inbox or by the table. */
  lemma HandleIsStep(s: R.World, m: E.Message, id: Uuid, createdAt: Time, x: E.Context, at: Time)
    requires S.WorldInv(s) && x.policy == s.policy
    requires id != NIL_UUID && id !in s.db.wagers && FreshIds(s.db, x.ids)
    requires ZERO_TIME < createdAt && R.Reading(s, m.command.walletId, createdAt, x.now)
    ensures var found := E.FindByExternal(s.db, (m.command.providerId, m.command.referenceExternalId));
            var a := R.Deliver(m, id, createdAt, found, x, at);
            var answer := Database.Handled(s.db, m, id, createdAt, x, at);
            && R.Enabled(s, a) && R.Next(s, a) == s.(db := if answer.Ok? then answer.value else s.db)
            && S.Continues(s, R.Next(s, a)) && A.AnswersMessage(s.db, m, id, createdAt, found, x, at, answer)
  {
    hide A.AnswersMessage, E.Handle;
    var found := E.FindByExternal(s.db, (m.command.providerId, m.command.referenceExternalId));
    LookupIsSeen(s.db, (m.command.providerId, m.command.referenceExternalId));
    A.HandleAnswers(s, m, id, createdAt, found, x, at);
    S.StepKeepsWorld(s, R.Deliver(m, id, createdAt, found, x, at));
  }

  /** CreateWallet is an enabled Open step: refused, or with exactly the records of the new wallet. */
  lemma CreateWalletIsStep(s: R.World, c: E.OpenWallet, walletId: Uuid, openingId: Uuid, x: E.Context)
    requires S.WorldInv(s) && walletId !in s.db.wallets && openingId !in s.db.wagers && FreshIds(s.db, x.ids)
    requires ZERO_TIME < x.now <= s.time
    ensures var a := R.Open(c, walletId, openingId, x);
            var answer := E.CreateWallet(s.db, c, walletId, openingId, x);
            && R.Enabled(s, a) && R.Next(s, a) == s.(db := if answer.Ok? then answer.value else s.db)
            && S.Continues(s, R.Next(s, a)) && A.AnswersOpen(s.db, c, walletId, openingId, x, answer)
  {
    hide A.AnswersOpen, E.CreateWallet;
    S.StepKeepsWorld(s, R.Open(c, walletId, openingId, x));
    A.CreateAnswers(s.db, c, walletId, openingId, x);
  }

  predicate Pending(db: E.Db, id: Uuid) { id in db.wagers && db.wagers[id].retry.Some? }

  /** The row was due when the sweep read the clock, and the later readings follow it. */
  predicate Claimed(s: R.World, id: Uuid, now: Time, later: Time, x: E.Context)
    requires Pending(s.db, id)
  {
    && x.policy == s.policy && FreshIds(s.db, x.ids)
    && s.db.wagers[id].retry.value.nextAttemptAt <= now <= x.now <= later <= s.time
    && R.Reading(s, s.db.wagers[id].wager.terms.walletId, s.db.wagers[id].wager.updatedAt, x.now)
  }

  function RetryAction(s: R.World, id: Uuid, later: Time, x: E.Context): R.Action
    requires Pending(s.db, id)
  {
    R.Retry(id, E.FindByExternal(s.db, E.ReferenceKey(s.db.wagers[id].wager.terms)), later, x)
  }

  /** RetryPendingReference on a due row is an enabled Retry step, which leaves the same tables and follows the table. */
  lemma RetryIsStep(s: R.World, id: Uuid, now: Time, later: Time, x: E.Context)
    requires S.WorldInv(s) && Pending(s.db, id) && Claimed(s, id, now, later, x)
    ensures var a := RetryAction(s, id, later, x);
            var answer := Database.Retried(s.db, id, later, x);
            && R.Enabled(s, a) && R.Next(s, a) == s.(db := if answer.Ok? then answer.value else s.db)
            && S.Continues(s, R.Next(s, a)) && A.AnswersRetry(s.db, id, a.found, later, x, answer)
  {
    hide A.AnswersRetry, E.RetryOne;
    LookupIsSeen(s.db, E.ReferenceKey(s.db.wagers[id].wager.terms));
    S.StepKeepsWorld(s, RetryAction(s, id, later, x));
    A.RetryAnswers(s.db, id, E.FindByExternal(s.db, E.ReferenceKey(s.db.wagers[id].wager.terms)), later, x);
  }

  /** FailPendingReference on a pending row is an enabled GiveUp step, and it always commits. */
  lemma FailIsStep(s: R.World, id: Uuid, now: Time)
    requires S.WorldInv(s) && R.Abandoned(s, id, now)
    ensures var a := R.GiveUp(id, now);
            && R.Enabled(s, a) && E.FailOne(s.db, id, now).Ok? && R.Next(s, a) == s.(db := E.FailOne(s.db, id, now).value)
            && S.Continues(s, R.Next(s, a)) && A.AnswersGiveUp(s.db, id, now, E.FailOne(s.db, id, now))
  {
    A.GiveUpAnswers(s.db, id, now);
    var ids := S.FreshIdsExist(s.db);
    R.GiveUpCommits(s, id, now, ids);
    S.StepKeepsWorld(s, R.GiveUp(id, now));
  }

  /** The steps that one RetryNext amounts to, after its first transaction ended as `attempt`. */
  function SweepActions(s: R.World, id: Uuid, later: Time, x: E.Context, failedAt: Time, outage: bool, stopping: bool): seq<R.Action>
    requires Pending(s.db, id)
  {
    var attempt := Database.Attempt(s.db, id, later, x, outage);
    if outage then []
    else if attempt.Ok? || stopping || attempt == Err(DependencyUnavailable) then [RetryAction(s, id, later, x)]
    else [RetryAction(s, id, later, x), R.GiveUp(id, failedAt)]
  }

  /**
   RetryNext on the row it claimed is a legal run: nothing, a Retry, or a Retry that fails and
   then a GiveUp; and it leaves the tables of that run.
   */
  lemma RetryNextIsRun(s: R.World, id: Uuid, now: Time, later: Time, x: E.Context, failedAt: Time, outage: bool, stopping: bool)
    requires S.WorldInv(s) && Pending(s.db, id) && Claimed(s, id, now, later, x) && R.Abandoned(s, id, failedAt)
    ensures var actions := SweepActions(s, id, later, x, failedAt, outage, stopping);
            && R.Legal(s, actions)
            && R.Run(s, actions) == s.(db := Database.AfterRetry(s.db, id, Database.Attempt(s.db, id, later, x, outage), failedAt, stopping))
            && S.Continues(s, R.Run(s, actions))
  {
    hide R.Legal, R.Run, S.Continues, S.WorldInv, Claimed, R.Abandoned, Database.Retried, E.FailOne;
    var actions := SweepActions(s, id, later, x, failedAt, outage, stopping);
    if outage {
      NoStep(s);
    } else if |actions| == 1 {
      RetryOnly(s, id, now, later, x);
    } else {
      RetryThenFail(s, id, now, later, x, failedAt);
    }
  }

  lemma RetryOnly(s: R.World, id: Uuid, now: Time, later: Time, x: E.Context)
    requires S.WorldInv(s) && Pending(s.db, id) && Claimed(s, id, now, later, x)
    ensures var actions := [RetryAction(s, id, later, x)];
            var answer := Database.Retried(s.db, id, later, x);
            && R.Legal(s, actions) && R.Run(s, actions) == s.(db := if answer.Ok? then answer.value else s.db)
            && S.Continues(s, R.Run(s, actions))
  {
    hide R.Legal, R.Run, R.Next, R.Enabled, S.Continues, S.WorldInv, Claimed, RetryAction, Database.Retried;
    RetryIsStep(s, id, now, later, x);
    OneStep(s, RetryAction(s, id, later, x));
  }

  lemma RetryThenFail(s: R.World, id: Uuid, now: Time, later: Time, x: E.Context, failedAt: Time)
    requires S.WorldInv(s) && Pending(s.db, id) && Claimed(s, id, now, later, x) && R.Abandoned(s, id, failedAt)
    requires Database.Retried(s.db, id, later, x).Err?
    ensures var actions := [RetryAction(s, id, later, x), R.GiveUp(id, failedAt)];
            && R.Legal(s, actions) && E.FailOne(s.db, id, failedAt).Ok?
            && R.Run(s, actions) == s.(db := E.FailOne(s.db, id, failedAt).value)
            && S.Continues(s, R.Run(s, actions))
  {
    hide R.Legal, R.Run, R.Next, R.Enabled, S.Continues, S.WorldInv, Claimed, RetryAction, Database.Retried, E.FailOne;
    RetryIsStep(s, id, now, later, x);
    FailIsStep(s, id, failedAt);
    TwoSteps(s, RetryAction(s, id, later, x), R.GiveUp(id, failedAt));
  }

  lemma NoStep(s: R.World)
    requires S.WorldInv(s)
    ensures R.Legal(s, []) && R.Run(s, []) == s && S.Continues(s, s)
  {
    S.TickStep(s, s.time);
    assert s.(time := s.time) == s;
  }

  lemma OneStep(s: R.World, a: R.Action)
    requires R.Enabled(s, a)
    ensures R.Legal(s, [a]) && R.Run(s, [a]) == R.Next(s, a)
  {
    assert [a][..0] == [];
  }

  lemma TwoSteps(s: R.World, a: R.Action, b: R.Action)
    requires R.Enabled(s, a) && R.Next(s, a) == s && R.Enabled(s, b)
    ensures R.Legal(s, [a, b]) && R.Run(s, [a, b]) == R.Next(s, b)
  {
    OneStep(s, a);
    assert [a, b][..1] == [a];
  }
}
