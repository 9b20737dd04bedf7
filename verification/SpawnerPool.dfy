/** The pool of idle spawners, `internal/proc/spawner_client_unix.go`. Its mutex makes
    every method one step, so calls of concurrent runs are a sequence of them. */
module SpawnerPool {

  class Spawner {
    constructor () {
    }
  }

  /** The package variable spawners. */
  class Pool {
    var idle: seq<Spawner>
    var failed: bool
    /** The spawners handed out and not given back, and those given up. */
    ghost var held: set<Spawner>
    ghost var discarded: set<Spawner>
    /** How often a start was tried. */
    ghost var attempts: nat

    ghost function Idle(): set<Spawner>
      reads this
    {
      set sp | sp in idle
    }

    /** Every spawner is idle once, held by one run, or discarded. */
    ghost predicate Valid()
      reads this
    {
      && (forall i, j | 0 <= i < j < |idle| :: idle[i] != idle[j])
      && Idle() !! held !! discarded
    }

    constructor ()
      ensures Valid() && idle == [] && !failed && held == {} && discarded == {} && attempts == 0
    {
      idle, failed, held, discarded, attempts := [], false, {}, {}, 0;
    }

    /** takeSpawner, when starting one would succeed or not. An idle spawner goes to
        one run only; without one, a start that failed is never tried again. */
    method Take(startable: bool) returns (sp: Spawner?)
      requires Valid()
      modifies this
      ensures Valid() && discarded == old(discarded)
      ensures old(idle) != [] ==> sp == old(idle)[|old(idle)| - 1] && idle == old(idle)[..|old(idle)| - 1]
      ensures old(idle) != [] ==> failed == old(failed) && attempts == old(attempts)
      ensures old(idle) == [] ==> idle == [] && failed == (old(failed) || !startable) && (sp == null <==> failed)
      ensures old(idle) == [] ==> attempts == old(attempts) + if old(failed) then 0 else 1
      ensures old(idle) == [] && sp != null ==> fresh(sp)
      ensures sp != null ==> sp !in old(held) && sp !in idle && held == old(held) + {sp}
      ensures sp == null ==> held == old(held)
    {
      var n := |idle|;
      if n > 0 {
        sp := idle[n - 1];
        assert sp in Idle();
        idle := idle[..n - 1];
        assert idle + [sp] == old(idle);
        held := held + {sp};
        return;
      }
      if failed {
        return null;
      }
      attempts := attempts + 1;
      if !startable {
        failed := true;
        return null;
      }
      sp := new Spawner();
      held := held + {sp};
    }

    /** prepareSpawner: starts one only when there is none and none failed to. */
    method Prepare(startable: bool)
      requires Valid()
      modifies this
      ensures Valid() && held == old(held) && discarded == old(discarded)
      ensures old(idle) != [] || old(failed) ==> idle == old(idle) && failed == old(failed) && attempts == old(attempts)
      ensures old(idle) == [] && !old(failed) ==>
        attempts == old(attempts) + 1 && failed == !startable && |idle| == if startable then 1 else 0
    {
      if |idle| > 0 || failed {
        return;
      }
      attempts := attempts + 1;
      if !startable {
        failed := true;
        return;
      }
      var sp := new Spawner();
      idle := idle + [sp];
    }

    /** returnSpawner, by the run that holds it. */
    method Return(sp: Spawner)
      requires Valid() && sp in held
      modifies this
      ensures Valid() && idle == old(idle) + [sp] && held == old(held) - {sp}
      ensures failed == old(failed) && discarded == old(discarded) && attempts == old(attempts)
    {
      assert sp !in Idle();
      idle := idle + [sp];
      held := held - {sp};
    }

    /** discard, by the run that holds it: it is never handed out again. */
    method Discard(sp: Spawner)
      requires Valid() && sp in held
      modifies this
      ensures Valid() && idle == old(idle) && held == old(held) - {sp} && discarded == old(discarded) + {sp}
      ensures failed == old(failed) && attempts == old(attempts)
    {
      held := held - {sp};
      discarded := discarded + {sp};
    }
  }
}
