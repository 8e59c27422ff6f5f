/** The ring of the last landing errors, and sums over it in slot order. */
module ErrorRing {
  import opened TunerModel

  /** Slots `ring`, of which `count` are in use and `next` is written next, hold `errs`, oldest first. */
  ghost predicate Holds(ring: seq<real>, count: nat, next: nat, errs: seq<real>) {
    && |ring| == ERR_WINDOW && count <= ERR_WINDOW && next < ERR_WINDOW
    && if count < ERR_WINDOW then next == count && errs == ring[..count]
       else errs == ring[next..] + ring[..next]
  }

  lemma Push(ring: seq<real>, count: nat, next: nat, errs: seq<real>, err: real)
    requires Holds(ring, count, next, errs)
    ensures Holds(ring[next := err], if count < ERR_WINDOW then count + 1 else count, (next + 1) % ERR_WINDOW,
                  Last(errs + [err], ERR_WINDOW))
  {
    var ring' := ring[next := err];
    if count < ERR_WINDOW {
      assert ring'[..count + 1] == errs + [err];
      if count + 1 == ERR_WINDOW {
        assert ring'[0..] + ring'[..0] == ring';
      }
    } else {
      assert errs + [err] == ring[next..] + ring[..next] + [err];
      assert (errs + [err])[1..] == ring[next + 1..] + (ring[..next] + [err]);
      if next + 1 == ERR_WINDOW {
        assert ring'[0..] + ring'[..0] == ring[..next] + [err];
        assert ring[next + 1..] == [];
      } else {
        assert ring'[next + 1..] == ring[next + 1..] && ring'[..next + 1] == ring[..next] + [err];
      }
    }
  }

  lemma {:induction false} SumsConcat(a: seq<real>, b: seq<real>, clip: real)
    ensures SumClipped(a + b, clip) == SumClipped(a, clip) + SumClipped(b, clip)
    ensures SumSqClipped(a + b, clip) == SumSqClipped(a, clip) + SumSqClipped(b, clip)
  {
    if b == [] {
      assert a + b == a;
    } else {
      assert (a + b)[..|a + b| - 1] == a + b[..|b| - 1];
      SumsConcat(a, b[..|b| - 1], clip);
    }
  }

  lemma OneMoreSlot(ring: seq<real>, i: nat, clip: real)
    requires i < |ring|
    ensures SumClipped(ring[..i + 1], clip) == SumClipped(ring[..i], clip) + Winsor(ring[i], clip)
    ensures SumSqClipped(ring[..i + 1], clip)
         == SumSqClipped(ring[..i], clip) + Winsor(ring[i], clip) * Winsor(ring[i], clip)
  {
    assert ring[..i + 1][..i] == ring[..i];
  }

  /** Slot order and time order give the same sums. */
  lemma SumsInSlotOrder(ring: seq<real>, count: nat, next: nat, errs: seq<real>, clip: real)
    requires Holds(ring, count, next, errs)
    ensures |errs| == count
    ensures SumClipped(ring[..count], clip) == SumClipped(errs, clip)
    ensures SumSqClipped(ring[..count], clip) == SumSqClipped(errs, clip)
  {
    if count == ERR_WINDOW {
      assert ring[..count] == ring[..next] + ring[next..];
      SumsConcat(ring[..next], ring[next..], clip);
      SumsConcat(ring[next..], ring[..next], clip);
    }
  }
}
