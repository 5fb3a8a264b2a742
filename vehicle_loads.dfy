/** A road angle (grade or bank) as the two values the load equations use.
    Converting degrees to radians and evaluating cosine and sine are
    floating-point library calls; the model takes their results as inputs. */
module RoadAngle {

  /** The cosine and sine of one road angle. */
  datatype Trig = Trig(cos: real, sin: real)

  /** The angle of 0 degrees: a level road. */
  const Level: Trig := Trig(1.0, 0.0)

  /** An angle between 0 and 90 degrees, the range the inputs of the tool
      cover: both its cosine and its sine lie in [0, 1]. */
  predicate Upright(t: Trig) {
    0.0 <= t.cos <= 1.0 && 0.0 <= t.sin <= 1.0
  }
}

/** Normal tire loads of a two-axle road vehicle from rigid-body statics and
    dynamics (Jazar, Vehicle Dynamics, chapter 2). Every load is the load of
    one wheel: half of an axle or of one side of the vehicle. */
module VehicleLoads {
  import opened RoadAngle

  /** Gravitational acceleration in m/s^2. */
  const G: real := 9.81

  /** Mass m (kg), gravity g, wheelbase L, CG height h, track width w (m),
      and the distances a1 from the CG to the front axle and a2 from the CG
      to the rear axle (m). */
  datatype Vehicle = Vehicle(m: real, g: real, L: real, h: real, w: real, a1: real, a2: real)
  {
    /** What the load equations need of a vehicle: a positive mass, track
        and wheelbase to divide by, a CG not below the ground, and a CG
        that lies between the axles' positions along the wheelbase. */
    predicate Valid() {
      m > 0.0 && g == G && L > 0.0 && h >= 0.0 && w > 0.0 && a1 + a2 == L
    }

    /** The vehicle's weight W = m g (N). */
    function Weight(): real {
      m * g
    }
  }

  /** Load on one front wheel and on one rear wheel (N). */
  datatype AxleLoads = AxleLoads(front: real, rear: real)

  /** Load on one wheel of the low side and on one wheel of the high side
      of a banked road (N). */
  datatype SideLoads = SideLoads(low: real, high: real)

  /** max(0, x): a wheel cannot pull on the road, so a negative load means
      that the wheel has lifted and carries nothing. */
  function Clamp(x: real): (r: real)
    ensures r >= 0.0 && r >= x
    ensures r == 0.0 <==> x <= 0.0
    ensures x > 0.0 ==> r == x
  {
    if x > 0.0 then x else 0.0
  }

  /** Builds a vehicle from the share of its weight on the front axle, in
      percent: the CG then sits that share of the wheelbase ahead of the
      rear axle. */
  function NewVehicle(m: real, l: real, h: real, w: real, frontPct: real): (v: Vehicle)
    requires m > 0.0 && l > 0.0 && h >= 0.0 && w > 0.0
    ensures v.Valid()
    ensures v.m == m && v.L == l && v.h == h && v.w == w
    ensures v.a2 / v.L == frontPct / 100.0
    ensures v.a1 / v.L == 1.0 - frontPct / 100.0
    ensures 0.0 <= frontPct <= 100.0 ==> 0.0 <= v.a1 <= v.L && 0.0 <= v.a2 <= v.L
  {
    var a2 := (frontPct / 100.0) * l;
    var a1 := l - a2;
    assert a1 / l == 1.0 - a2 / l by {
      assert a1 / l == l / l - a2 / l;
    }
    Vehicle(m, G, l, h, w, a1, a2)
  }

  // ---------------------------------------------------------------------
  // Longitudinal loads: grade and acceleration
  // ---------------------------------------------------------------------

  /** Front-wheel load from weight alone on a grade. */
  function FrontStatic(v: Vehicle, t: Trig): real
    requires v.Valid()
  {
    0.5 * v.Weight() * ((v.a2 / v.L) * t.cos - (v.h / v.L) * t.sin)
  }

  /** Rear-wheel load from weight alone on a grade. */
  function RearStatic(v: Vehicle, t: Trig): real
    requires v.Valid()
  {
    0.5 * v.Weight() * ((v.a1 / v.L) * t.cos + (v.h / v.L) * t.sin)
  }

  /** Load moved from each front wheel to each rear wheel by a longitudinal
      acceleration ax (m/s^2; negative when braking). */
  function Transfer(v: Vehicle, ax: real): real
    requires v.Valid()
  {
    0.5 * v.m * ax * (v.h / v.L)
  }

  /** Front and rear wheel loads at acceleration ax on a grade, each
      clamped at zero; a zero load means that the wheel has lifted. */
  function LongitudinalLoads(v: Vehicle, ax: real, t: Trig): (r: AxleLoads)
    requires v.Valid()
    ensures r.front >= 0.0 && r.rear >= 0.0
    ensures r.front == 0.0 <==> FrontStatic(v, t) - Transfer(v, ax) <= 0.0
    ensures r.rear == 0.0 <==> RearStatic(v, t) + Transfer(v, ax) <= 0.0
    ensures r.front > 0.0 ==> r.front == FrontStatic(v, t) - Transfer(v, ax)
    ensures r.rear > 0.0 ==> r.rear == RearStatic(v, t) + Transfer(v, ax)
  {
    var front := FrontStatic(v, t) - Transfer(v, ax);
    var rear := RearStatic(v, t) + Transfer(v, ax);
    AxleLoads(Clamp(front), Clamp(rear))
  }

  /** At rest on level ground the loads are the static split that the tool
      shows as its baseline: m g a2 / (2 L) at the front, m g a1 / (2 L) at
      the rear. */
  lemma LevelStaticSplit(v: Vehicle)
    requires v.Valid() && v.a1 >= 0.0 && v.a2 >= 0.0
    ensures LongitudinalLoads(v, 0.0, Level)
         == AxleLoads(v.m * G * 0.5 * v.a2 / v.L, v.m * G * 0.5 * v.a1 / v.L)
  {
  }

  /** The two static terms together carry half the weight component normal
      to the road. */
  lemma StaticSum(v: Vehicle, t: Trig)
    requires v.Valid()
    ensures FrontStatic(v, t) + RearStatic(v, t) == 0.5 * v.Weight() * t.cos
  {
  }

  /** Load transfer only moves load between the axles: while no wheel has
      lifted, the two loads add up to half the normal weight component,
      whatever the acceleration. */
  lemma TransferConservesLoad(v: Vehicle, ax: real, t: Trig)
    requires v.Valid()
    requires FrontStatic(v, t) - Transfer(v, ax) >= 0.0
    requires RearStatic(v, t) + Transfer(v, ax) >= 0.0
    ensures LongitudinalLoads(v, ax, t).front + LongitudinalLoads(v, ax, t).rear
         == 0.5 * v.Weight() * t.cos
  {
  }

  /** On level ground twice the sum of the two wheel loads is the vehicle's
      weight m g, while no wheel has lifted: the tool's mass check. */
  lemma MassCheck(v: Vehicle, ax: real)
    requires v.Valid()
    requires FrontStatic(v, Level) - Transfer(v, ax) >= 0.0
    requires RearStatic(v, Level) + Transfer(v, ax) >= 0.0
    ensures (LongitudinalLoads(v, ax, Level).front + LongitudinalLoads(v, ax, Level).rear) * 2.0
         == v.m * G
  {
  }

  /** A larger acceleration never moves load forward. */
  lemma TransferMonotone(v: Vehicle, ax1: real, ax2: real)
    requires v.Valid() && ax1 <= ax2
    ensures Transfer(v, ax1) <= Transfer(v, ax2)
  {
  }

  /** At a fixed grade the front load never grows and the rear load never
      shrinks as the acceleration grows. */
  lemma AccelerationShiftsLoadRearward(v: Vehicle, t: Trig, ax1: real, ax2: real)
    requires v.Valid() && ax1 <= ax2
    ensures LongitudinalLoads(v, ax2, t).front <= LongitudinalLoads(v, ax1, t).front
    ensures LongitudinalLoads(v, ax1, t).rear <= LongitudinalLoads(v, ax2, t).rear
  {
    TransferMonotone(v, ax1, ax2);
  }

  /** The acceleration at which the front wheels leave the ground, for a CG
      above the ground. */
  function FrontLiftAcceleration(v: Vehicle, t: Trig): real
    requires v.Valid() && v.h > 0.0
  {
    FrontStatic(v, t) / (0.5 * v.m * (v.h / v.L))
  }

  /** The deceleration (as a negative acceleration) at which the rear wheels
      leave the ground, for a CG above the ground. */
  function RearLiftAcceleration(v: Vehicle, t: Trig): real
    requires v.Valid() && v.h > 0.0
  {
    -RearStatic(v, t) / (0.5 * v.m * (v.h / v.L))
  }

  /** With the CG above the ground the front wheels have lifted (the load
      the tool flags as zero or less) exactly from the front lift
      acceleration upward. */
  lemma FrontLiftsExactlyAbove(v: Vehicle, t: Trig, ax: real)
    requires v.Valid() && v.h > 0.0
    ensures LongitudinalLoads(v, ax, t).front == 0.0 <==> ax >= FrontLiftAcceleration(v, t)
  {
  }

  /** With the CG above the ground the rear wheels have lifted exactly from
      the rear lift acceleration downward (hard braking). */
  lemma RearLiftsExactlyBelow(v: Vehicle, t: Trig, ax: real)
    requires v.Valid() && v.h > 0.0
    ensures LongitudinalLoads(v, ax, t).rear == 0.0 <==> ax <= RearLiftAcceleration(v, t)
  {
  }

  /** On a grade between 0 and 90 degrees the front wheels carry no more
      than on level ground, with the vehicle at rest. */
  lemma GradeUnloadsFront(v: Vehicle, t: Trig)
    requires v.Valid() && v.a2 >= 0.0 && Upright(t)
    ensures LongitudinalLoads(v, 0.0, t).front <= LongitudinalLoads(v, 0.0, Level).front
  {
    var W := v.Weight();
    var p, k := v.a2 / v.L, v.h / v.L;
    assert p >= 0.0 && k >= 0.0;
    assert p * t.cos <= p by {
      assert p * (1.0 - t.cos) >= 0.0;
    }
    assert k * t.sin >= 0.0;
    assert p * t.cos - k * t.sin <= p;
    assert W > 0.0;
    assert FrontStatic(v, t) <= FrontStatic(v, Level) by {
      assert FrontStatic(v, Level) - FrontStatic(v, t) == 0.5 * W * (p - (p * t.cos - k * t.sin));
    }
    assert Transfer(v, 0.0) == 0.0;
  }

  /** On a grade between 0 and 90 degrees the rear wheels of a vehicle at
      rest gain load over level ground exactly when the CG height term
      h sin outweighs the loss a1 (1 - cos) of the static term. */
  lemma GradeLoadsRearIff(v: Vehicle, t: Trig)
    requires v.Valid() && v.a1 >= 0.0 && Upright(t)
    ensures LongitudinalLoads(v, 0.0, t).rear >= LongitudinalLoads(v, 0.0, Level).rear
        <==> v.h * t.sin >= v.a1 * (1.0 - t.cos)
  {
    var c := 0.5 * v.Weight() / v.L;
    RearStaticScaled(v, t);
    RearStaticScaled(v, Level);
    assert c > 0.0 by {
      assert v.Weight() > 0.0;
    }
    assert v.a1 * t.cos + v.h * t.sin >= 0.0;
    SignOfProduct(c, v.a1 * t.cos + v.h * t.sin);
    SignOfProduct(c, v.a1);
    assert Transfer(v, 0.0) == 0.0;
    var x := v.h * t.sin - v.a1 * (1.0 - t.cos);
    assert RearStatic(v, t) - RearStatic(v, Level) == c * x;
    SignOfProduct(c, x);
  }

  /** The rear static term as the factor W / (2 L) times the moment arms. */
  lemma RearStaticScaled(v: Vehicle, t: Trig)
    requires v.Valid()
    ensures RearStatic(v, t) == (0.5 * v.Weight() / v.L) * (v.a1 * t.cos + v.h * t.sin)
  {
  }

  /** For c > 0, c x >= 0 exactly when x >= 0. */
  lemma SignOfProduct(c: real, x: real)
    requires c > 0.0
    ensures c * x >= 0.0 <==> x >= 0.0
  {
  }

  /** The default configuration of the tool (a Chevrolet Onix Plus 2026:
      1117 kg, 2.60 m wheelbase, 0.54 m CG height, 1.508 m track, 60 % of
      the weight on the front axle) on level ground and at rest. */
  lemma OnixPlusLevelLoads()
    ensures LongitudinalLoads(NewVehicle(1117.0, 2.60, 0.54, 1.508, 60.0), 0.0, Level)
         == AxleLoads(3287.331, 2191.554)
  {
    var v := NewVehicle(1117.0, 2.60, 0.54, 1.508, 60.0);
    LevelStaticSplit(v);
  }

  // ---------------------------------------------------------------------
  // Lateral loads: banked road
  // ---------------------------------------------------------------------

  /** Load on a low-side wheel before clamping. */
  function LowSide(v: Vehicle, t: Trig): real
    requires v.Valid()
  {
    var b2 := v.w / 2.0;
    0.5 * (v.Weight() / v.w) * (b2 * t.cos + v.h * t.sin)
  }

  /** Load on a high-side wheel before clamping. */
  function HighSide(v: Vehicle, t: Trig): real
    requires v.Valid()
  {
    var b1 := v.w / 2.0;
    0.5 * (v.Weight() / v.w) * (b1 * t.cos - v.h * t.sin)
  }

  /** Low-side and high-side wheel loads on a road banked by the given
      angle, each clamped at zero; a zero high-side load means that the
      vehicle tips over, which happens exactly when the CG height term
      h sin reaches the half-track term (w/2) cos. */
  function LateralLoads(v: Vehicle, t: Trig): (r: SideLoads)
    requires v.Valid()
    ensures r.low >= 0.0 && r.high >= 0.0
    ensures r.high == 0.0 <==> (v.w / 2.0) * t.cos <= v.h * t.sin
    ensures r.low == 0.0 <==> (v.w / 2.0) * t.cos + v.h * t.sin <= 0.0
    ensures r.high > 0.0 ==> r.high == HighSide(v, t)
    ensures r.low > 0.0 ==> r.low == LowSide(v, t)
  {
    var c := 0.5 * (v.Weight() / v.w);
    assert c > 0.0 by {
      assert v.Weight() > 0.0;
    }
    SignOfProduct(c, (v.w / 2.0) * t.cos - v.h * t.sin);
    SignOfProduct(c, (v.w / 2.0) * t.cos + v.h * t.sin);
    SideLoads(Clamp(LowSide(v, t)), Clamp(HighSide(v, t)))
  }

  /** On a level road both sides carry the same load, a quarter of the
      weight per wheel. */
  lemma LevelLateralEqual(v: Vehicle)
    requires v.Valid()
    ensures LateralLoads(v, Level) == SideLoads(v.Weight() / 4.0, v.Weight() / 4.0)
  {
  }

  /** On a bank with a non-negative sine the low side never carries less
      than the high side. */
  lemma LowSideCarriesMore(v: Vehicle, t: Trig)
    requires v.Valid() && t.sin >= 0.0
    ensures LateralLoads(v, t).low >= LateralLoads(v, t).high
  {
  }

  /** While neither side has lifted, the two side loads add up to half the
      weight component normal to the road. */
  lemma LateralConservesLoad(v: Vehicle, t: Trig)
    requires v.Valid()
    requires LowSide(v, t) >= 0.0 && HighSide(v, t) >= 0.0
    ensures LateralLoads(v, t).low + LateralLoads(v, t).high == 0.5 * v.Weight() * t.cos
  {
  }
}
