/** The frame-callback registry of utils.js: every animation-frame request made through
    `customRequestAnimationFrame` is remembered in `rafHandles`, so that
    `cancelAllAnimationFrames` can cancel all of them at once. */
module Frames {

  class FrameRegistry {
    /** The module-level `rafHandles` set. */
    var rafHandles: set<nat>
    /** The frame callbacks the browser still holds (requested, not yet run or cancelled). */
    var browserPending: set<nat>
    /** The browser's callback-identifier counter; identifiers are positive and increasing. */
    var lastId: nat

    /** History, for stating what the set holds. */
    ghost var scheduled: set<nat>
    ghost var fired: set<nat>
    ghost var cancelled: set<nat>

    ghost predicate Valid()
      reads this
    {
      && fired <= scheduled && cancelled <= scheduled && fired !! cancelled
      && rafHandles == scheduled - fired - cancelled
      && rafHandles == browserPending
      && (forall id :: id in scheduled ==> 0 < id <= lastId)
    }

    constructor ()
      ensures Valid()
      ensures rafHandles == {} && scheduled == {} && fired == {} && cancelled == {}
    {
      rafHandles, browserPending, lastId := {}, {}, 0;
      scheduled, fired, cancelled := {}, {}, {};
    }

    /** customRequestAnimationFrame: the browser hands out a new identifier and the
        registry adds exactly that identifier. */
    method Request() returns (id: nat)
      requires Valid()
      modifies this
      ensures Valid()
      ensures id !in old(scheduled)
      ensures rafHandles == old(rafHandles) + {id}
      ensures scheduled == old(scheduled) + {id}
      ensures fired == old(fired) && cancelled == old(cancelled)
    {
      lastId := lastId + 1;
      id := lastId;
      browserPending := browserPending + {id};
      rafHandles := rafHandles + {id};
      scheduled := scheduled + {id};
    }

    /** The browser runs the callback of frame `id`: the wrapper deletes `id` from the set
        before the user callback runs (which the caller then performs). */
    method Fire(id: nat)
      requires Valid()
      requires id in browserPending
      modifies this
      ensures Valid()
      ensures rafHandles == old(rafHandles) - {id}
      ensures fired == old(fired) + {id}
      ensures scheduled == old(scheduled) && cancelled == old(cancelled)
    {
      browserPending := browserPending - {id};
      fired := fired + {id};
      rafHandles := rafHandles - {id};
    }

    /** The browser's cancelAnimationFrame. */
    method CancelFrame(id: nat)
      modifies this
      ensures browserPending == old(browserPending) - {id}
      ensures cancelled == old(cancelled) + (if id in old(browserPending) then {id} else {})
      ensures rafHandles == old(rafHandles) && lastId == old(lastId)
      ensures scheduled == old(scheduled) && fired == old(fired)
    {
      if id in browserPending {
        cancelled := cancelled + {id};
      }
      browserPending := browserPending - {id};
    }

    /** cancelAllAnimationFrames: cancels every registered frame, then clears the set. */
    method CancelAll()
      requires Valid()
      modifies this
      ensures Valid()
      ensures rafHandles == {} && browserPending == {}
      ensures cancelled == old(cancelled) + old(rafHandles)
      ensures scheduled == old(scheduled) && fired == old(fired)
    {
      var rest := rafHandles;
      while rest != {}
        invariant rest <= old(rafHandles)
        invariant rafHandles == old(rafHandles) && lastId == old(lastId)
        invariant browserPending == old(browserPending) - (old(rafHandles) - rest)
        invariant cancelled == old(cancelled) + (old(rafHandles) - rest)
        invariant scheduled == old(scheduled) && fired == old(fired)
        decreases rest
      {
        var id :| id in rest;
        CancelFrame(id);
        rest := rest - {id};
      }
      rafHandles := {};
    }
  }
}
