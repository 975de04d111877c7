/**
 The extension object (packages/intercom/index.ts): the variables its handlers share, and one method per
 synchronous section. Each is one step of the state machine in `Lifecycles`.
 */
module IntercomExtensions {
  import opened Sequences
  import F = LifecycleForwarders
  import opened Lifecycles

  class Intercom {
    var leases: seq<Lease>
    var lifecycleGeneration: nat
    var sessionSnapshot: Option<Snapshot>
    var replayedGeneration: nat
    var activeLifecycle: Active
    /** Every load so far, by its number; a load goes on to use its own record after each wait. */
    var attempts: seq<Attempt>
    var heavyAttempt: Option<nat>
    var loadedHeavy: Option<nat>
    const lifecycleForward: F.SerializedLifecycleForwarder
    /** What each operation of the forwarder does, with the local variables of the replays. */
    var jobs: seq<Job>
    var replayAttempt: Option<nat>
    ghost var marks: seq<nat>

    ghost function View(): State
      reads this, lifecycleForward
    {
      State(leases, lifecycleGeneration, sessionSnapshot, replayedGeneration, activeLifecycle, attempts, heavyAttempt, loadedHeavy,
            lifecycleForward.View(), jobs, replayAttempt, marks)
    }

    constructor ()
      ensures View() == INITIAL && fresh(lifecycleForward)
    {
      leases, lifecycleGeneration, sessionSnapshot, replayedGeneration := [Lease({}, false, {})], 0, None, 0;
      activeLifecycle, attempts, heavyAttempt, loadedHeavy := IDLE, [], None, None;
      lifecycleForward := new F.SerializedLifecycleForwarder();
      jobs, replayAttempt, marks := [], None, [];
    }

    /** What `assertLease` checks. */
    predicate AssertLease(lease: nat)
      reads this
      ensures AssertLease(lease) <==> Current(View(), lease)
    {
      lease + 1 == |leases| && !leases[lease].retired
    }

    method TakeSnapshot(lease: nat)
      modifies this`lifecycleGeneration, this`sessionSnapshot
      ensures View() == WithSnapshot(old(View()), lease)
    {
      lifecycleGeneration := lifecycleGeneration + 1;
      sessionSnapshot := Some(Snapshot(lifecycleGeneration, lease));
    }

    /** The session start handler up to its wait for prior cleanup. */
    method OnSessionStart() returns (lease: nat)
      requires leases != []
      modifies this`leases
      ensures View() == Step(old(View()), BeginSession) && lease + 1 == |leases|
    {
      var last := leases[|leases| - 1];
      if last.retired {
        leases := leases + [Lease(last.barrier, false, last.barrier)];
      }
      lease := |leases| - 1;
    }

    /** The session start handler after that wait; it throws if its lease is no longer current. */
    method SessionStarted(lease: nat) returns (ok: bool)
      requires PriorSettled(View(), lease)
      modifies this`activeLifecycle, this`lifecycleGeneration, this`sessionSnapshot
      ensures View() == Step(old(View()), SessionBegins(lease))
      ensures ok <==> Current(old(View()), lease)
    {
      if !AssertLease(lease) {
        return false;
      }
      if sessionSnapshot.Some? {
        activeLifecycle := IDLE;
      }
      TakeSnapshot(lease);
      ok := true;
    }

    method EnqueueJob(job: Job) returns (o: nat)
      modifies this`jobs, lifecycleForward
      ensures View() == Enqueued(old(View()), job) && o == |old(jobs)|
    {
      o := |jobs|;
      var _ := lifecycleForward.Enqueue();
      jobs := jobs + [job];
    }

    /** The load and the replay of this lease, if they are still remembered. */
    method Unfinished(lease: nat) returns (tasks: set<Task>)
      ensures tasks == InFlight(View(), lease)
    {
      tasks := {};
      if heavyAttempt.Some? && heavyAttempt.value < |attempts| && attempts[heavyAttempt.value].lease == lease {
        tasks := {Load(heavyAttempt.value)};
      }
      if replayAttempt.Some? && replayAttempt.value < |jobs| && jobs[replayAttempt.value].lease == lease {
        tasks := tasks + {Forwarded(replayAttempt.value)};
      }
    }

    /** Retires the latest lease and forgets what belongs to it. */
    method RetireLease()
      requires leases != []
      modifies this
      ensures View() == RetiredWith(old(View()), {})
    {
      var lease := |leases| - 1;
      lifecycleGeneration := lifecycleGeneration + 1;
      NothingRetained(Retired(leases[lease]));
      leases := leases[lease := Retired(leases[lease])];
      sessionSnapshot, heavyAttempt, loadedHeavy, replayAttempt := None, None, None, None;
      replayedGeneration := lifecycleGeneration;
      activeLifecycle := IDLE;
    }

    /** The session shutdown handler, all of which runs before its first wait. */
    method OnSessionShutdown()
      requires leases != []
      modifies this, lifecycleForward
      ensures View() == Step(old(View()), Shutdown)
    {
      var lease := |leases| - 1;
      var cleanup := Unfinished(lease);
      var retired := loadedHeavy;
      RetireLease();
      if retired.Some? {
        var _ := EnqueueJob(Job.Forward(lease, retired.value, Farewell));
      }
      if lifecycleForward.tail.Some? {
        cleanup := cleanup + {Forwarded(lifecycleForward.tail.value)};
      }
      leases := leases[lease := Retained(leases[lease], cleanup)];
      assert leases[lease].barrier == ShutDown(old(View())).leases[lease].barrier;
    }

    /** `loadHeavy` after its wait for prior cleanup. */
    method StartLoading(lease: nat)
      requires PriorSettled(View(), lease)
      modifies this`attempts, this`heavyAttempt
      ensures View() == Step(old(View()), BeginLoad(lease))
    {
      if AssertLease(lease) {
        if heavyAttempt.None? || heavyAttempt.value >= |attempts| || attempts[heavyAttempt.value].lease != lease {
          heavyAttempt := Some(|attempts|);
          attempts := attempts + [Attempt(lease, Importing)];
        }
      }
    }

    /** A load goes on after its module was imported or initialised, or its replay or cleanup has ended. */
    method ResumeLoading(a: nat, ok: bool, synthetic: bool)
      requires leases != [] && a < |attempts| && !attempts[a].stage.Done? && !attempts[a].stage.Ensuring?
      requires attempts[a].stage.AwaitingReplay? && attempts[a].stage.operation.Some? ==>
        F.IsSettled(View().forward, attempts[a].stage.operation.value)
      modifies this`attempts, this`lifecycleGeneration, this`sessionSnapshot, this`loadedHeavy
      ensures View() == Step(old(View()), LoadResumes(a, ok, synthetic))
    {
      var lease, stage := attempts[a].lease, attempts[a].stage;
      var fine := if stage.AwaitingReplay? then Succeeded(stage.operation) else ok;
      if stage.CleaningUp? {
        stage := Done(false);
      } else if !fine || !AssertLease(lease) {
        stage := CleaningUp;
      } else if stage.Importing? {
        stage := Initialising;
      } else if stage.Initialising? {
        if sessionSnapshot.None? && synthetic {
          TakeSnapshot(lease);
        }
        stage := Ensuring;
      } else {
        loadedHeavy := Some(a);
        stage := Done(true);
      }
      attempts := attempts[a := attempts[a].(stage := stage)];
    }

    /** The replay that was waited for, if any, did not throw. */
    predicate Succeeded(operation: Option<nat>)
      requires operation.Some? ==> operation.value < |lifecycleForward.operations|
      reads this, lifecycleForward
    {
      operation.Some? ==> lifecycleForward.operations[operation.value].phase == F.Settled(true)
    }

    /** A load has its module told of the session: `ensureSessionStartReplayed` after its wait for prior cleanup. */
    method EnsureLoadReplayed(a: nat)
      requires leases != [] && a < |attempts| && attempts[a].stage == Ensuring && PriorSettled(View(), attempts[a].lease)
      modifies this`attempts, this`jobs, this`replayAttempt, lifecycleForward
      ensures View() == Step(old(View()), LoadEnsures(a))
    {
      var lease := attempts[a].lease;
      var stage := CleaningUp;
      if AssertLease(lease) {
        var operation := EnsureSessionStartReplayed(lease, a);
        stage := AwaitingReplay(operation);
      }
      attempts := attempts[a := attempts[a].(stage := stage)];
    }

    /** `loadHeavy` when the load it joined has succeeded. */
    method ResumeJoined(a: nat, synthetic: bool)
      requires leases != [] && a < |attempts| && attempts[a].stage == Done(true)
      modifies this`lifecycleGeneration, this`sessionSnapshot
      ensures View() == Step(old(View()), LoadJoined(a, synthetic))
    {
      if AssertLease(attempts[a].lease) && sessionSnapshot.None? && synthetic {
        TakeSnapshot(attempts[a].lease);
      }
    }

    /** The reaction to a failed load. */
    method ForgetRejected(a: nat)
      requires leases != [] && a < |attempts| && attempts[a].stage == Done(false)
      modifies this`heavyAttempt
      ensures View() == Step(old(View()), LoadRejected(a))
    {
      if heavyAttempt == Some(a) {
        heavyAttempt := None;
      }
    }

    /** `ensureSessionStartReplayed` after its wait for prior cleanup; it hands back the replay to wait for. */
    method EnsureSessionStartReplayed(lease: nat, heavy: nat) returns (operation: Option<nat>)
      requires leases != [] && PriorSettled(View(), lease)
      modifies this`jobs, this`replayAttempt, lifecycleForward
      ensures View() == Step(old(View()), EnsureReplay(lease, heavy))
      ensures Current(old(View()), lease) ==> operation == AwaitedReplay(old(View()), lease, heavy)
    {
      if !AssertLease(lease) || sessionSnapshot.None? || sessionSnapshot.value.lease != lease || replayedGeneration == sessionSnapshot.value.generation {
        return None;
      }
      if replayAttempt.Some? && replayAttempt.value < |jobs| {
        var job := jobs[replayAttempt.value];
        if job.Replay? && job.lease == lease && job.heavy == heavy {
          return replayAttempt;
        }
      }
      var o := EnqueueJob(Replay(lease, heavy, None));
      replayAttempt := Some(o);
      operation := replayAttempt;
    }

    /** The `finally` of a replay. */
    method ForgetReplay(o: nat)
      requires leases != [] && F.IsSettled(View().forward, o)
      modifies this`replayAttempt
      ensures View() == Step(old(View()), ReplayEnds(o))
    {
      if replayAttempt == Some(o) {
        replayAttempt := None;
      }
    }

    /** The handlers of turns, agents, tools and models. */
    method OnLifecycle(what: Happening, payload: nat)
      requires leases != []
      modifies this`activeLifecycle, this`jobs, lifecycleForward
      ensures View() == Step(old(View()), Happens(what, payload))
    {
      if leases[|leases| - 1].retired {
        return;
      }
      activeLifecycle := After(activeLifecycle, what, payload);
      if loadedHeavy.Some? {
        var _ := EnqueueJob(Job.Forward(|leases| - 1, loadedHeavy.value, Told(what, payload)));
      }
    }

    /** The head of the replay loop. */
    method ReplayRound(o: nat)
      requires o < |jobs| && jobs[o].Replay? && F.IsRunning(View().forward, o)
      modifies this`jobs, lifecycleForward
      ensures View() == Round(old(View()), o)
    {
      var lease := jobs[o].lease;
      if !AssertLease(lease) {
        lifecycleForward.Finish(o, false);
      } else if sessionSnapshot.None? || sessionSnapshot.value.lease != lease || replayedGeneration == sessionSnapshot.value.generation {
        lifecycleForward.Finish(o, true);
      } else {
        var plan := Plan(sessionSnapshot.value, activeLifecycle);
        jobs := jobs[o := jobs[o].(reading := Some(Reading(sessionSnapshot.value, activeLifecycle, plan[..1])))];
      }
    }

    method BeginOperation(o: nat)
      requires leases != [] && o < |jobs| && F.CanBegin(View().forward, o)
      modifies this`jobs, lifecycleForward
      ensures View() == Step(old(View()), OperationBegins(o))
    {
      lifecycleForward.Start(o);
      if jobs[o].Replay? {
        ReplayRound(o);
      }
    }

    /** A dispatch of a running operation has settled. */
    method ResumeOperation(o: nat, ok: bool)
      requires leases != [] && o < |jobs| && F.IsRunning(View().forward, o)
      modifies this`jobs, this`replayedGeneration, this`marks, lifecycleForward
      ensures View() == Step(old(View()), OperationResumes(o, ok))
    {
      if !jobs[o].Replay? || jobs[o].reading.None? {
        lifecycleForward.Finish(o, ok);
      } else if !ok || !AssertLease(jobs[o].lease) {
        lifecycleForward.Finish(o, false);
      } else if sessionSnapshot != Some(jobs[o].reading.value.snapshot) {
        ReplayRound(o);
      } else {
        var reading := jobs[o].reading.value;
        var plan := Plan(reading.snapshot, reading.active);
        if |reading.sent| < |plan| {
          jobs := jobs[o := jobs[o].(reading := Some(reading.(sent := reading.sent + [plan[|reading.sent|]])))];
        } else {
          replayedGeneration := reading.snapshot.generation;
          marks := marks + [replayedGeneration];
          lifecycleForward.Finish(o, true);
        }
      }
    }
  }
}
