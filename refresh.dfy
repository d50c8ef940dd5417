/**
 * The rate-limited membership refresh: taking a snapshot of a tracked
 * channel whose name list is not known to be complete asks the server for a
 * `WHO <channel>` (section 3.6.1 of RFC 2812), at most once per 5000 ms.
 * The clock reading of every snapshot is an explicit `now`.
 */
module Refresh {
  /** Milliseconds that must be exceeded since the last request. */
  const WhoInterval: int := 5000

  /** Whether a snapshot taken at `now` sends a new request. */
  predicate WhoDue(tracked: bool, complete: bool, lastWho: int, now: int) {
    tracked && !complete && now - lastWho > WhoInterval
  }

  /** The channel's flags and the clock at one snapshot. */
  datatype Probe = Probe(now: int, tracked: bool, complete: bool)

  /** The last-request time after one snapshot. */
  function Step(lastWho: int, p: Probe): int {
    if WhoDue(p.tracked, p.complete, lastWho, p.now) then p.now else lastWho
  }

  /** The last-request time after a run of snapshots, starting from `lastWho`. */
  function LastWhoAfter(lastWho: int, ps: seq<Probe>): int
    decreases |ps|
  {
    if |ps| == 0 then lastWho else Step(LastWhoAfter(lastWho, ps[..|ps| - 1]), ps[|ps| - 1])
  }

  /** Whether snapshot `i` of the run sends a request. */
  predicate Emits(lastWho: int, ps: seq<Probe>, i: nat)
    requires i < |ps|
  {
    WhoDue(ps[i].tracked, ps[i].complete, LastWhoAfter(lastWho, ps[..i]), ps[i].now)
  }

  /** The number of requests a run sends. */
  function EmitCount(lastWho: int, ps: seq<Probe>): nat
    decreases |ps|
  {
    if |ps| == 0 then 0
    else EmitCount(lastWho, ps[..|ps| - 1]) + (if Emits(lastWho, ps, |ps| - 1) then 1 else 0)
  }

  /** The last-request time never decreases along a run. */
  lemma {:induction false} LastWhoMonotone(lastWho: int, ps: seq<Probe>, i: nat, j: nat)
    requires i <= j <= |ps|
    ensures LastWhoAfter(lastWho, ps[..i]) <= LastWhoAfter(lastWho, ps[..j])
    decreases j - i
  {
    if i < j {
      LastWhoMonotone(lastWho, ps, i, j - 1);
      assert ps[..j][..j - 1] == ps[..j - 1];
    }
  }

  /** A request at snapshot `i` sets the last-request time to that snapshot's clock. */
  lemma EmitSetsLastWho(lastWho: int, ps: seq<Probe>, i: nat)
    requires i < |ps| && Emits(lastWho, ps, i)
    ensures LastWhoAfter(lastWho, ps[..i + 1]) == ps[i].now
  {
    assert ps[..i + 1][..i] == ps[..i];
  }

  /** Any two requests of a run are more than 5000 ms apart, later minus earlier. */
  lemma EmitsSpaced(lastWho: int, ps: seq<Probe>, i: nat, j: nat)
    requires i < j < |ps|
    requires Emits(lastWho, ps, i) && Emits(lastWho, ps, j)
    ensures ps[j].now - ps[i].now > WhoInterval
  {
    EmitSetsLastWho(lastWho, ps, i);
    LastWhoMonotone(lastWho, ps, i + 1, j);
  }

  /** A snapshot of a channel whose name list is complete never sends a request. */
  lemma CompleteIsSilent(lastWho: int, ps: seq<Probe>, i: nat)
    requires i < |ps| && ps[i].complete
    ensures !Emits(lastWho, ps, i)
  {
  }

  /** A run in which no snapshot sends a request counts none. */
  lemma {:induction false} EmitCountBound(lastWho: int, ps: seq<Probe>)
    requires forall i | 0 <= i < |ps| :: !Emits(lastWho, ps, i)
    ensures EmitCount(lastWho, ps) == 0
    decreases |ps|
  {
    if |ps| > 0 {
      var q := ps[..|ps| - 1];
      forall i | 0 <= i < |q|
        ensures !Emits(lastWho, q, i)
      {
        assert q[..i] == ps[..i];
        assert !Emits(lastWho, ps, i);
      }
      EmitCountBound(lastWho, q);
    }
  }

  /**
   * All the snapshots of a run whose clock readings lie within 5000 ms of one
   * another send at most one request between them.
   */
  lemma {:induction false} AtMostOneWhoPerWindow(lastWho: int, ps: seq<Probe>)
    requires forall i, j | 0 <= i < |ps| && 0 <= j < |ps| :: ps[j].now - ps[i].now <= WhoInterval
    ensures EmitCount(lastWho, ps) <= 1
    decreases |ps|
  {
    if |ps| > 0 {
      var n := |ps| - 1;
      var q := ps[..n];
      assert forall i, j | 0 <= i < |q| && 0 <= j < |q| :: q[j].now - q[i].now <= WhoInterval by {
        forall i, j | 0 <= i < |q| && 0 <= j < |q|
          ensures q[j].now - q[i].now <= WhoInterval
        {
          assert q[i] == ps[i] && q[j] == ps[j];
        }
      }
      AtMostOneWhoPerWindow(lastWho, q);
      if Emits(lastWho, ps, n) {
        forall i | 0 <= i < |q|
          ensures !Emits(lastWho, q, i)
        {
          assert q[..i] == ps[..i];
          if Emits(lastWho, ps, i) {
            EmitsSpaced(lastWho, ps, i, n);
          }
        }
        EmitCountBound(lastWho, q);
      }
    }
  }

  /** Once the name list is complete for the rest of a run, that rest sends nothing. */
  lemma {:induction false} CompleteSilencesRest(lastWho: int, ps: seq<Probe>, k: nat)
    requires k <= |ps|
    requires forall i | k <= i < |ps| :: ps[i].complete
    ensures EmitCount(lastWho, ps) == EmitCount(lastWho, ps[..k])
    decreases |ps|
  {
    if |ps| > k {
      var q := ps[..|ps| - 1];
      assert q[..k] == ps[..k];
      assert forall i | k <= i < |q| :: q[i] == ps[i];
      CompleteSilencesRest(lastWho, q, k);
      CompleteIsSilent(lastWho, ps, |ps| - 1);
    } else {
      assert ps[..k] == ps;
    }
  }
}
