/** The backend's proximity check and its demo override ("god mode").

    The distance from the player to the fixed target point is computed by a
    geodesic routine outside this model and arrives here as a number. */
module ProximityGate {

  /** A player may verify within this many metres of the target, inclusive. */
  const UnlockRadiusMeters: real := 50.0

  const CloseMessage: string := "You are close! Look for the target."
  const FarMessage: string := "Keep walking..."

  /** The reply of `/check-proximity`. */
  datatype ProximityResult = ProximityResult(
    distanceRemaining: real,
    canVerify: bool,
    message: string)

  /** The gate: near enough, or overridden. */
  predicate CanVerify(dist: real, godMode: bool) {
    dist <= UnlockRadiusMeters || godMode
  }

  /** The message shown for a gate decision. */
  function MessageFor(canVerify: bool): string {
    if canVerify then CloseMessage else FarMessage
  }

  /** `d` in whole tenths, rounded to the nearest tenth with ties to the even
      neighbour, as rounding to one decimal place does. */
  function RoundTenthUnits(d: real): (units: int)
    ensures -0.5 <= units as real - d * 10.0 <= 0.5
    ensures units as real - d * 10.0 == 0.5 || units as real - d * 10.0 == -0.5
            ==> units % 2 == 0
  {
    var n := (d * 10.0).Floor;
    var frac := d * 10.0 - n as real;
    if frac < 0.5 then n
    else if frac > 0.5 then n + 1
    else if n % 2 == 0 then n
    else n + 1
  }

  /** `d` rounded to one decimal place: never more than 5 cm off. */
  function RoundTenth(d: real): (r: real)
    ensures r * 10.0 == RoundTenthUnits(d) as real
    ensures -0.05 <= r - d <= 0.05
  {
    RoundTenthUnits(d) as real / 10.0
  }

  /** What `/check-proximity` answers at distance `dist` with the override
      set to `godMode`. */
  function Report(dist: real, godMode: bool): (r: ProximityResult)
    ensures godMode ==> r.canVerify
    ensures !godMode ==> (r.canVerify <==> dist <= 50.0)
    ensures r.message == CloseMessage <==> r.canVerify
    ensures r.message == CloseMessage || r.message == FarMessage
    ensures -0.05 <= r.distanceRemaining - dist <= 0.05
  {
    var canVerify := CanVerify(dist, godMode);
    ProximityResult(RoundTenth(dist), canVerify, MessageFor(canVerify))
  }

  /** The backend process: the target check and the process-wide override. */
  class GateServer {
    var godMode: bool

    /** The override is off when the process starts. */
    constructor ()
      ensures !godMode
    {
      godMode := false;
    }

    /** `/check-proximity`: reads the override and changes nothing. */
    method CheckProximity(dist: real) returns (r: ProximityResult)
      ensures r.canVerify <==> dist <= UnlockRadiusMeters || godMode
      ensures r.message == MessageFor(r.canVerify)
      ensures -0.05 <= r.distanceRemaining - dist <= 0.05
      ensures r == Report(dist, godMode)
    {
      var canVerify := false;
      if dist <= UnlockRadiusMeters {
        canVerify := true;
      }
      if godMode {
        canVerify := true;
      }
      r := ProximityResult(RoundTenth(dist), canVerify, MessageFor(canVerify));
    }

    /** `/admin/toggle-god-mode`: overwrites the override, whatever it was. */
    method ToggleGodMode(enabled: bool) returns (status: string)
      modifies this
      ensures godMode == enabled
      ensures status == "God Mode is now " + (if enabled then "True" else "False")
    {
      godMode := enabled;
      status := "God Mode is now " + (if godMode then "True" else "False");
    }
  }

  /** With the override set, every distance unlocks, however far. */
  lemma GodModeUnlocksEverywhere(dist: real)
    ensures Report(dist, true).canVerify
    ensures Report(dist, true).message == CloseMessage
  {
  }

  /** Without the override, the gate opens exactly within the radius, the
      50 m boundary included. */
  lemma GateIsRadius(dist: real)
    ensures Report(dist, false).canVerify <==> dist <= 50.0
    ensures Report(50.0, false).canVerify
  {
  }

  /** The "close" message is shown exactly when verification is allowed;
      otherwise the player is told to keep walking. */
  lemma MessageMatchesDecision(dist: real, godMode: bool)
    ensures Report(dist, godMode).message == CloseMessage <==> Report(dist, godMode).canVerify
    ensures !Report(dist, godMode).canVerify ==> Report(dist, godMode).message == FarMessage
  {
  }

  /** The decision uses the exact distance, not the rounded one it reports:
      anywhere strictly between 50 m and 50.05 m, 50.04 m for one, the reply
      says 50.0 m remaining yet keeps the gate shut. */
  lemma GateIgnoresRounding(d: real)
    requires 50.0 < d < 50.05
    ensures Report(d, false).distanceRemaining == 50.0
    ensures !Report(d, false).canVerify
    ensures Report(50.04, false).distanceRemaining == 50.0 && !Report(50.04, false).canVerify
  {
    assert (d * 10.0).Floor == 500;
  }

  /** A poll never changes the override, so two polls at the same distance
      agree. */
  method PollTwice(server: GateServer, dist: real) returns (first: ProximityResult, second: ProximityResult)
    ensures first == second
    ensures first.canVerify <==> dist <= UnlockRadiusMeters || server.godMode
  {
    first := server.CheckProximity(dist);
    second := server.CheckProximity(dist);
  }

  /** Turning the override on lets the next poll verify from anywhere. */
  method OverrideThenPoll(server: GateServer, dist: real) returns (r: ProximityResult)
    modifies server
    ensures server.godMode
    ensures r.canVerify && r.message == CloseMessage
  {
    var _ := server.ToggleGodMode(true);
    r := server.CheckProximity(dist);
  }

  /** Setting the override twice to the same value is the same as once. */
  method ToggleTwice(server: GateServer, enabled: bool)
    modifies server
    ensures server.godMode == enabled
  {
    var _ := server.ToggleGodMode(enabled);
    var _ := server.ToggleGodMode(enabled);
  }
}
