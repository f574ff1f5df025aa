/**
  The two-way volume reconcile of a room bridge: one canonical percent, a Spotify engine that
  stores its volume in `steps`, and a HomePod that stores a percent. Rounding between the two
  scales must never be read back as user input.
 */
module VolumeReconcile {

  const VOL_TOL := 2

  function Abs(x: int): nat {
    if x < 0 then -x else x
  }

  function ClampPct(v: int): (r: int)
    ensures 0 <= r <= 100
  {
    if v < 0 then 0 else if v > 100 then 100 else v
  }

  /** `math.Round` of num/den for num >= 0: nearest, halves away from zero. */
  function Round(num: nat, den: nat): (r: nat)
    requires den > 0
    ensures IsNearest(r, num, den)
  {
    (2 * num + den) / (2 * den)
  }

  /** r is a nearest integer of num/den; a tie may go either way, as it does in binary floating point. */
  predicate IsNearest(r: int, num: int, den: int) {
    -den <= 2 * (r * den - num) <= den
  }

  /** setLibrespotVolumePctOrigin: the raw step written for a percent. */
  function WriteRaw(pct: int, steps: nat): nat {
    Round(ClampPct(pct) * steps, 100)
  }

  /** librespotStatus: the percent read from a raw step. */
  function ReadPct(raw: nat, steps: nat): (r: int)
    requires steps > 0
    ensures 0 <= r <= 100
  {
    ClampPct(Round(100 * raw, steps))
  }

  datatype Decision = Decision(canon: int, setGl: bool, setOt: bool)

  function DecideVolume(canon: int, gl: int, glOk: bool, ot: int, otOk: bool): Decision {
    if !glOk && !otOk then Decision(canon, false, false)
    else
      var c := if canon < 0 then (if glOk then gl else ot)
               else if glOk && Abs(gl - canon) > VOL_TOL then gl
               else if otOk && Abs(ot - canon) > VOL_TOL then ot
               else canon;
      Decision(c, glOk && Abs(gl - c) > VOL_TOL, otOk && Abs(ot - c) > VOL_TOL)
  }

  // ----- rounding -----

  /** However ties fall in the two conversions, 20 steps keep the error within the tolerance. */
  lemma RoundTripWithin(pct: int, steps: nat, raw: int, read: int)
    requires 0 <= pct <= 100 && steps >= 20
    requires IsNearest(raw, pct * steps, 100) && IsNearest(read, 100 * raw, steps)
    ensures Abs(read - pct) <= VOL_TOL
  {
    if steps == 20 {
      TwentySteps(pct, raw, read);
    } else {
      assert (read - pct) * steps == read * steps - pct * steps;
      SmallQuotient(read - pct, steps);
    }
  }

  /** Twenty steps have no tie in the first conversion, so they just fit. */
  lemma TwentySteps(pct: int, raw: int, read: int)
    requires IsNearest(raw, pct * 20, 100) && IsNearest(read, 100 * raw, 20)
    ensures Abs(read - pct) <= VOL_TOL
  {
    var over := read - 5 * raw;
    assert -20 <= 40 * over <= 20;
    assert over == 0;
    var miss := 5 * raw - pct;
    assert -100 <= 40 * miss <= 100;
  }

  lemma SmallQuotient(d: int, m: nat)
    requires m > 20 && -100 - m <= 2 * (d * m) <= 100 + m
    ensures -2 <= d <= 2
  {
    Scales(d, m);
    Scales(-d, m);
  }

  lemma Scales(d: int, m: nat)
    requires m > 0
    ensures d >= 3 ==> d * m >= 3 * m
  {
    if d >= 3 {
      assert d * m == 3 * m + (d - 3) * m;
    }
  }

  /** Write-then-read errs by at most the tolerance at every percent exactly when there are 20 steps. */
  lemma RoundTripExact(steps: nat)
    requires steps > 0
    ensures (forall pct :: 0 <= pct <= 100 ==> Abs(ReadPct(WriteRaw(pct, steps), steps) - pct) <= VOL_TOL) <==>
      steps >= 20
  {
    if steps >= 20 {
      forall pct | 0 <= pct <= 100 ensures Abs(ReadPct(WriteRaw(pct, steps), steps) - pct) <= VOL_TOL {
        var raw := WriteRaw(pct, steps);
        RoundTripWithin(pct, steps, raw, Round(100 * raw, steps));
      }
    } else {
      CoarseStepsEcho(steps);
      var pct := CoarsePercent(steps);
      assert Abs(ReadPct(WriteRaw(pct, steps), steps) - pct) > VOL_TOL;
    }
  }

  /** A percent that fewer than 20 steps cannot hold. */
  function CoarsePercent(steps: nat): int {
    if steps == 19 then 8 else 3
  }

  lemma CoarseStepsEcho(steps: nat)
    requires 0 < steps < 20
    ensures Abs(ReadPct(WriteRaw(CoarsePercent(steps), steps), steps) - CoarsePercent(steps)) > VOL_TOL
  {
    var raw := WriteRaw(CoarsePercent(steps), steps);
    if steps <= 16 {
      assert raw == 0;
    } else if steps <= 18 {
      assert raw == 1;
    } else {
      assert raw == 2;
    }
  }

  // ----- one decision -----

  /** A decision is quiet exactly while no readable side has drifted from the canon. */
  lemma QuietExactly(canon: int, gl: int, glOk: bool, ot: int, otOk: bool)
    requires canon >= 0
    ensures DecideVolume(canon, gl, glOk, ot, otOk) == Decision(canon, false, false)
            <==> (glOk ==> Abs(gl - canon) <= VOL_TOL) && (otOk ==> Abs(ot - canon) <= VOL_TOL)
  {
  }

  // ----- the closed loop -----

  /** The bridge's canon with the two devices it writes to. A side that is not ok is neither read nor written. */
  datatype Loop = Loop(canon: int, steps: nat, glRaw: nat, glOk: bool, otPct: int, otOk: bool)

  predicate Plausible(s: Loop) {
    s.steps > 0 && -1 <= s.canon <= 100 && 0 <= s.otPct <= 100
  }

  /** One bridge tick: read both sides, decide, write what the decision asks for. */
  function Tick(s: Loop): (t: Loop)
    requires Plausible(s)
    ensures Plausible(t) && t.steps == s.steps && t.glOk == s.glOk && t.otOk == s.otOk
  {
    var d := DecideVolume(s.canon, ReadPct(s.glRaw, s.steps), s.glOk, s.otPct, s.otOk);
    s.(canon := d.canon,
       glRaw := if d.setGl then WriteRaw(d.canon, s.steps) else s.glRaw,
       otPct := if d.setOt then ClampPct(d.canon) else s.otPct)
  }

  function Ticks(s: Loop, n: nat): (t: Loop)
    requires Plausible(s)
    ensures Plausible(t)
    decreases n
  {
    if n == 0 then s else Ticks(Tick(s), n - 1)
  }

  lemma TickSettles(s: Loop)
    requires Plausible(s) && s.steps >= 20
    ensures Tick(Tick(s)) == Tick(s)
  {
    var t := Tick(s);
    if s.glOk || s.otOk {
      RoundTripExact(s.steps);
      assert t.glOk ==> Abs(ReadPct(t.glRaw, t.steps) - t.canon) <= VOL_TOL;
      QuietExactly(t.canon, ReadPct(t.glRaw, t.steps), t.glOk, t.otPct, t.otOk);
    }
  }

  /** After one tick nothing moves again, however long the bridge runs. */
  lemma {:induction false} NoEcho(s: Loop, n: nat)
    requires Plausible(s) && s.steps >= 20 && n > 0
    ensures Ticks(s, n) == Tick(s)
    decreases n
  {
    if n > 1 {
      NoEcho(Tick(s), n - 1);
      TickSettles(s);
    }
  }

  predicate SpotifyDrifted(s: Loop)
    requires Plausible(s)
  {
    s.glOk && Abs(ReadPct(s.glRaw, s.steps) - s.canon) > VOL_TOL
  }

  predicate HomePodDrifted(s: Loop) {
    s.otOk && Abs(s.otPct - s.canon) > VOL_TOL
  }

  /**
    The side that was moved by hand is never written, and however long the bridge runs the other side
    follows it within the tolerance. Spotify wins when both were moved.
   */
  lemma DriftReachesOtherSide(s: Loop, n: nat)
    requires Plausible(s) && s.steps >= 20 && s.canon >= 0 && n > 0
    requires SpotifyDrifted(s) || HomePodDrifted(s)
    ensures var t := Ticks(s, n);
      && (SpotifyDrifted(s) ==> t.glRaw == s.glRaw && t.canon == ReadPct(s.glRaw, s.steps))
      && (!SpotifyDrifted(s) ==> t.otPct == s.otPct && t.canon == s.otPct)
      && (t.otOk ==> Abs(t.otPct - t.canon) <= VOL_TOL)
      && (t.glOk ==> Abs(ReadPct(t.glRaw, t.steps) - t.canon) <= VOL_TOL)
  {
    NoEcho(s, n);
    RoundTripExact(s.steps);
  }

  /** With fewer than 20 steps the bridge does echo: a write of its own comes back as input. */
  lemma SettlesExactly(steps: nat)
    requires steps > 0
    ensures (forall s :: Plausible(s) && s.steps == steps ==> Tick(Tick(s)) == Tick(s)) <==> steps >= 20
  {
    if steps >= 20 {
      forall s | Plausible(s) && s.steps == steps ensures Tick(Tick(s)) == Tick(s) { TickSettles(s); }
    } else {
      var pct := CoarsePercent(steps);
      var s := Loop(100, steps, steps, true, pct, true);
      assert ReadPct(steps, steps) == 100;
      CoarseStepsEcho(steps);
      assert Tick(s) == Loop(pct, steps, WriteRaw(pct, steps), true, pct, true);
      assert Tick(Tick(s)).canon != Tick(s).canon;
    }
  }
}
