/** A single wind turbine and its blade animation (windturbine/turbine.py). */
module Turbine {
  import opened Common
  import Colors

  /** One step of the blade animation: add the increment, wrap at most once past 360 degrees. */
  function AdvanceAngle(angle: real, delta: real): (r: real)
    ensures 0.0 <= angle < 360.0 && 0.0 <= delta < 360.0 ==> 0.0 <= r < 360.0
    ensures r == angle + delta || r == angle + delta - 360.0
  {
    var a := angle + delta;
    if a >= 360.0 then a - 360.0 else a
  }

  class WindTurbine {
    const x: real
    const z: real
    const height: real
    const rotorRadius: real
    const powerKw: real
    const rotationSpeed: real
    /** Commissioning year; the data loader overwrites the default. */
    var year: int
    /** Federal state the loader assigned (`bl_name`); `None` when the attribute was never set. */
    var blName: Option<string>
    /** Terrain height of the state the turbine stands on. */
    var blHeight: real
    var bladeAngle: real
    var currentLodLevel: int
    var distanceToCamera: real
    var renderSkip: bool

    constructor (x: real, z: real, height: real, rotorRadius: real, powerKw: real)
      ensures this.x == x && this.z == z && this.height == height
      ensures this.rotorRadius == rotorRadius && this.powerKw == powerKw
      ensures year == 2000 && blName == None && blHeight == 0.18
      ensures bladeAngle == 0.0 && rotationSpeed == 90.0
      ensures currentLodLevel == 0 && distanceToCamera == 0.0 && !renderSkip
    {
      this.x := x;
      this.z := z;
      this.height := height;
      this.rotorRadius := rotorRadius;
      this.powerKw := powerKw;
      year := 2000;
      blName := None;
      blHeight := 0.18;
      bladeAngle := 0.0;
      rotationSpeed := 90.0;
      currentLodLevel := 0;
      distanceToCamera := 0.0;
      renderSkip := false;
    }

    /** The `power_color` property delegates to the colour table. */
    function PowerColor(): (c: Colors.Rgb)
      ensures c == Colors.PowerColor(powerKw)
    {
      Colors.PowerColor(powerKw)
    }

    /** `update(dt)`: advances the blades by `rotation_speed * dt`. */
    method Update(dt: real)
      modifies this`bladeAngle
      ensures bladeAngle == AdvanceAngle(old(bladeAngle), rotationSpeed * dt)
      ensures 0.0 <= old(bladeAngle) < 360.0 && 0.0 <= rotationSpeed * dt < 360.0
              ==> 0.0 <= bladeAngle < 360.0
    {
      bladeAngle := bladeAngle + rotationSpeed * dt;
      if bladeAngle >= 360.0 {
        bladeAngle := bladeAngle - 360.0;
      }
    }
  }
}
