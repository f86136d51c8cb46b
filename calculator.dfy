/** The ultrasound output calculator: validation of the required inputs, unit
    normalisation, the optional-input and impedance fallbacks, and the cascade
    that derives duty factor, derated pressure, mechanical index, in-situ
    estimates and intensities and writes them to the page.

    The page's input fields are read as strings (`Form`). The text of an output
    field is a sequence of `Piece`s: literal text, or a number rendered by
    toFixed with a given count of decimals; the decimal rendering itself is not
    modelled. */
module Calculator {
  import opened JsNumber

  const DEFAULT_SKULL_THICKNESS_MM: real := 7.0
  const DEFAULT_INSERTION_LOSS_DB: real := 6.0
  const WATER_MRAYL: real := 1.48
  const SOFT_TISSUE_MRAYL: real := 1.54

  /** Magnitudes below this are shown as exactly 0. */
  const FLUSH_BELOW: real := 1e-15

  /** The placeholder shown instead of a number. */
  const DASH: string := "—"
  const INPUT_ERROR: string := "Enter valid non-negative numbers (frequency must be > 0)."
  const DUTY_WARNING: string := "Warning: duty cycle > 100% (check PD and PRF)."

  /** The values of the page's input fields and unit selectors. */
  datatype Form = Form(
    fcMhz: string, zCm: string, pnpMpa: string,
    pdVal: string, pdUnit: string, prfVal: string, prfUnit: string,
    ilDb: string, skullMm: string, zPick: string, zCustom: string)

  datatype Piece = Lit(text: string) | Fixed(value: real, digits: nat)

  /** The text content of an output field. */
  type Text = seq<Piece>

  /** fmt: the placeholder for NaN and the infinities; otherwise the value, with noise
      below 1e-15 in magnitude flushed to exactly zero, at `digits` decimals. */
  function Fmt(x: Num, digits: nat): (r: Piece)
    ensures x.NonFinite? <==> r == Lit(DASH)
    ensures x.Finite? ==> r.Fixed? && r.digits == digits && Abs(r.value - x.value) < FLUSH_BELOW
    ensures x.Finite? && Abs(x.value) >= FLUSH_BELOW ==> r == Fixed(x.value, digits)
    ensures x.Finite? && Abs(x.value) < FLUSH_BELOW ==> r == Fixed(0.0, digits)
    ensures r.Fixed? ==> r.value == 0.0 || Abs(r.value) >= FLUSH_BELOW
  {
    if !x.Finite? then Lit(DASH)
    else Fixed(if Abs(x.value) < FLUSH_BELOW then 0.0 else x.value, digits)
  }

  /** isFiniteNonNeg: NaN, the infinities and negative numbers fail; zero and every
      positive finite number pass. */
  predicate IsFiniteNonNeg(x: Num): (b: bool)
    ensures x.NonFinite? ==> !b
    ensures x.Finite? && x.value < 0.0 ==> !b
    ensures x.Finite? && x.value >= 0.0 ==> b
  {
    x.Finite? && x.value >= 0.0
  }

  /** Pulse duration in seconds: "us" and "ms" are scaled, any other unit is taken as seconds. */
  function PdSeconds(value: real, unit: string): (r: real)
    ensures unit == "us" ==> r * 1000000.0 == value
    ensures unit == "ms" ==> r * 1000.0 == value
    ensures unit != "us" && unit != "ms" ==> r == value
    ensures value >= 0.0 ==> 0.0 <= r <= value
  {
    if unit == "us" then value * 1e-6
    else if unit == "ms" then value * 1e-3
    else value
  }

  /** Pulse repetition frequency in Hz: "khz" is scaled, any other unit is taken as Hz. */
  function PrfHz(value: real, unit: string): (r: real)
    ensures unit == "khz" ==> r == 1000.0 * value
    ensures unit != "khz" ==> r == value
    ensures value >= 0.0 ==> r >= value
  {
    if unit == "khz" then value * 1e3 else value
  }

  /** Duty factor: pulse duration in seconds times repetition frequency in Hz. */
  function DutyFactor(pdv: real, pdUnit: string, prfv: real, prfUnit: string): real {
    PdSeconds(pdv, pdUnit) * PrfHz(prfv, prfUnit)
  }

  /** getOptionalNumber: a blank field, or one that does not read as a finite number,
      gives the default; any finite number is taken as it is, negative ones included. */
  function GetOptionalNumber(text: string, default: real, rt: Runtime): (r: real)
    ensures Trim(text) == [] ==> r == default
    ensures Trim(text) != [] && ToNumber(text, rt).NonFinite? ==> r == default
    ensures Trim(text) != [] && ToNumber(text, rt).Finite? ==> r == ToNumber(text, rt).value
  {
    var raw := Trim(text);
    if raw == [] then default
    else
      var v := ToNumber(raw, rt);
      ToNumberOfTrimmed(text, rt);
      if !v.Finite? then default else v.value
  }

  /** getImpedanceMRayl: water, soft tissue, or a finite positive custom value,
      falling back to water's 1.48 MRayl; always strictly positive. */
  function GetImpedanceMRayl(pick: string, custom: string, rt: Runtime): (r: real)
    ensures r > 0.0
    ensures pick == "water" ==> r == WATER_MRAYL
    ensures pick == "soft" ==> r == SOFT_TISSUE_MRAYL
    ensures pick != "water" && pick != "soft" ==>
      if ToNumber(custom, rt).Finite? && ToNumber(custom, rt).value > 0.0
      then r == ToNumber(custom, rt).value
      else r == WATER_MRAYL
  {
    if pick == "water" then WATER_MRAYL
    else if pick == "soft" then SOFT_TISSUE_MRAYL
    else
      var v := ToNumber(custom, rt);
      if v.Finite? && v.value > 0.0 then v.value else WATER_MRAYL
  }

  /** deratePressure03: 0.3 dB/cm/MHz of attenuation applied to pressure amplitude. The
      result is finite exactly when the runtime's power of ten is; when that power lies in
      (0, 1] a non-negative pressure is never increased and never made negative; and with
      no attenuation (zero frequency or depth) the pressure passes unchanged. */
  function DeratePressure03(pMpa: real, fMhz: real, zCm: real, rt: Runtime): (r: Num)
    ensures r.Finite? <==> rt.pow10(-(0.3 * fMhz * zCm) / 20.0).Finite?
    ensures var g := rt.pow10(-(0.3 * fMhz * zCm) / 20.0);
      pMpa >= 0.0 && g.Finite? && 0.0 < g.value <= 1.0 ==> r.Finite? && 0.0 <= r.value <= pMpa
    ensures fMhz * zCm == 0.0 && rt.pow10(0.0) == Finite(1.0) ==> r == Finite(pMpa)
  {
    var dB := 0.3 * fMhz * zCm;
    Mul(Finite(pMpa), rt.pow10(-dB / 20.0))
  }

  /** applyInsertionLoss: `ilDb` decibels of attenuation applied to pressure amplitude. A
      non-finite pressure stays non-finite; when the runtime's power of ten lies in (0, 1] a
      finite non-negative pressure is never increased and never made negative; and a zero
      loss leaves the pressure as it is. */
  function ApplyInsertionLoss(pMpa: Num, ilDb: real, rt: Runtime): (r: Num)
    ensures r.Finite? <==> pMpa.Finite? && rt.pow10(-ilDb / 20.0).Finite?
    ensures var g := rt.pow10(-ilDb / 20.0);
      IsFiniteNonNeg(pMpa) && g.Finite? && 0.0 < g.value <= 1.0
      ==> r.Finite? && 0.0 <= r.value <= pMpa.value
    ensures ilDb == 0.0 && rt.pow10(0.0) == Finite(1.0) ==> r == pMpa
  {
    Mul(pMpa, rt.pow10(-ilDb / 20.0))
  }

  /** Spatial-peak pulse-average intensity in W/cm² from the peak negative pressure in
      MPa, the impedance in MRayl and the runtime's value of Math.sqrt(2), assuming a
      sinusoid: p_rms = p / sqrt(2), I = p_rms² / Z in W/m², then divided by 1e4. */
  function Isppa(pnpMpa: real, zMRayl: real, sqrt2: real): (r: Num)
    ensures r.Finite? <==> sqrt2 != 0.0 && zMRayl != 0.0
    ensures r.Finite? && zMRayl > 0.0 ==> r.value >= 0.0
  {
    var pRmsPa := Div(Finite(pnpMpa * 1e6), sqrt2);
    Div(Div(Mul(pRmsPa, pRmsPa), zMRayl * 1e6), 1e4)
  }

  /** Over the reals, with sqrt(2)² = 2, the intensity is 50·pnp²/Z, and it is never negative. */
  lemma IsppaClosedForm(pnpMpa: real, zMRayl: real, sqrt2: real)
    requires zMRayl > 0.0 && sqrt2 * sqrt2 == 2.0
    ensures Isppa(pnpMpa, zMRayl, sqrt2) == Finite(50.0 * pnpMpa * pnpMpa / zMRayl)
    ensures 50.0 * pnpMpa * pnpMpa / zMRayl >= 0.0
  {
    assert sqrt2 != 0.0;
    var q := pnpMpa * 1e6 / sqrt2;
    assert q * q == pnpMpa * pnpMpa * 1e12 / 2.0 by {
      assert q * sqrt2 == pnpMpa * 1e6;
      assert (q * sqrt2) * (q * sqrt2) == (q * q) * (sqrt2 * sqrt2);
    }
    assert pnpMpa * pnpMpa >= 0.0;
  }

  /** Everything the calculator derives on the valid path. */
  datatype Metrics = Metrics(
    df: real, pr3: Num, mi: Num, ilDb: real, skullMm: real,
    pTc: Num, mitc: Num, isppa: Num, ispta: Num)

  datatype Outcome = Rejected | Accepted(m: Metrics)

  /** The required inputs as the calculator demands them: frequency finite and positive,
      depth, pressure, pulse duration and repetition frequency finite and non-negative. */
  predicate RequiredInputsValid(form: Form, rt: Runtime) {
    var fc := ToNumber(form.fcMhz, rt);
    var z := ToNumber(form.zCm, rt);
    var pnp := ToNumber(form.pnpMpa, rt);
    var pdv := ToNumber(form.pdVal, rt);
    var prfv := ToNumber(form.prfVal, rt);
    && fc.Finite? && fc.value > 0.0
    && z.Finite? && z.value >= 0.0
    && pnp.Finite? && pnp.value >= 0.0
    && pdv.Finite? && pdv.value >= 0.0
    && prfv.Finite? && prfv.value >= 0.0
  }

  /** What updateAll computes from the form: the validation gate, then the cascade. */
  function Derive(form: Form, rt: Runtime): (r: Outcome)
    ensures r.Rejected? <==> !RequiredInputsValid(form, rt)
  {
    var fc := ToNumber(form.fcMhz, rt);
    var z := ToNumber(form.zCm, rt);
    var pnp := ToNumber(form.pnpMpa, rt);
    var pdv := ToNumber(form.pdVal, rt);
    var prfv := ToNumber(form.prfVal, rt);
    if !IsFiniteNonNeg(fc) || fc == Finite(0.0) || !IsFiniteNonNeg(z) || !IsFiniteNonNeg(pnp)
       || !IsFiniteNonNeg(pdv) || !IsFiniteNonNeg(prfv)
    then Rejected
    else Accepted(Cascade(fc.value, z.value, pnp.value, pdv.value, prfv.value, form, rt))
  }

  /** The formula cascade on validated, parsed inputs. The duty factor comes from the
      timing fields, the derated pressure from pressure, frequency and depth, the
      insertion loss and skull thickness from their optional fields, and ISPPA from the
      pressure and the impedance. Each mechanical index is its pressure over the square
      root of the frequency, the in-situ pressure is the derated pressure after the
      insertion loss, ISPTA is ISPPA times the duty factor, and non-negative pulse timing
      gives a non-negative duty factor. */
  function Cascade(fc: real, z: real, pnp: real, pdv: real, prfv: real, form: Form, rt: Runtime): (r: Metrics)
    ensures r.df == DutyFactor(pdv, form.pdUnit, prfv, form.prfUnit)
    ensures r.pr3 == DeratePressure03(pnp, fc, z, rt)
    ensures r.ilDb == GetOptionalNumber(form.ilDb, DEFAULT_INSERTION_LOSS_DB, rt)
    ensures r.skullMm == GetOptionalNumber(form.skullMm, DEFAULT_SKULL_THICKNESS_MM, rt)
    ensures r.isppa == Isppa(pnp, GetImpedanceMRayl(form.zPick, form.zCustom, rt), rt.sqrt(2.0))
    ensures r.mi == Div(r.pr3, rt.sqrt(fc)) && r.mitc == Div(r.pTc, rt.sqrt(fc))
    ensures r.pTc == ApplyInsertionLoss(r.pr3, r.ilDb, rt)
    ensures r.ispta == Mul(r.isppa, Finite(r.df))
    ensures pdv >= 0.0 && prfv >= 0.0 ==> r.df >= 0.0
  {
    var df := DutyFactor(pdv, form.pdUnit, prfv, form.prfUnit);
    var pr3 := DeratePressure03(pnp, fc, z, rt);
    var ilDb := GetOptionalNumber(form.ilDb, DEFAULT_INSERTION_LOSS_DB, rt);
    var skullMm := GetOptionalNumber(form.skullMm, DEFAULT_SKULL_THICKNESS_MM, rt);
    var pTc := ApplyInsertionLoss(pr3, ilDb, rt);
    var isppa := Isppa(pnp, GetImpedanceMRayl(form.zPick, form.zCustom, rt), rt.sqrt(2.0));
    Metrics(df, pr3, Div(pr3, rt.sqrt(fc)), ilDb, skullMm,
            pTc, Div(pTc, rt.sqrt(fc)), isppa, Mul(isppa, Finite(df)))
  }

  /** An accepted form's outcome is the cascade on its five parsed required fields. */
  lemma DeriveAccepted(form: Form, rt: Runtime)
    requires RequiredInputsValid(form, rt)
    ensures Derive(form, rt) == Accepted(Cascade(
      ToNumber(form.fcMhz, rt).value, ToNumber(form.zCm, rt).value, ToNumber(form.pnpMpa, rt).value,
      ToNumber(form.pdVal, rt).value, ToNumber(form.prfVal, rt).value, form, rt))
  {
  }

  /** A message area: its text and whether it is displayed. */
  datatype MsgView = MsgView(text: string, shown: bool)

  /** What setMsg leaves in a message area. */
  function ShownMsg(text: string): MsgView {
    MsgView(text, text != "")
  }

  /** Everything updateAll writes on the page. */
  datatype PageView = PageView(
    inputMsg: MsgView, warnMsg: MsgView, copyMsg: MsgView,
    outDf: Text, outPr3: Text, outMi: Text, outSkullLine: Text,
    outPnpTc: Text, outMitc: Text, outIsppa: Text, outIspta: Text)

  function DutyText(df: real): Text {
    [Fixed(df * 100.0, 3), Lit("%  (f="), Fmt(Finite(df), 6), Lit(")")]
  }

  function PressureText(pMpa: Num): Text {
    [Fmt(pMpa, 4), Lit(" MPa")]
  }

  function IntensityText(iWcm2: Num): Text {
    [Fmt(iWcm2, 6), Lit(" W/cm²")]
  }

  function SkullText(ilDb: real, skullMm: real): Text {
    [Fmt(Finite(ilDb), 2), Lit(" dB  •  "), Fmt(Finite(skullMm), 2), Lit(" mm")]
  }

  /** The page as updateAll leaves it for a given outcome: the input error is shown exactly
      on rejection, the warning exactly when an accepted duty factor exceeds 1, and the copy
      message never. */
  function Render(o: Outcome): (r: PageView)
    ensures r.inputMsg.shown <==> o.Rejected?
    ensures r.warnMsg.shown <==> o.Accepted? && o.m.df > 1.0
    ensures !r.copyMsg.shown
  {
    match o
    case Rejected =>
      var dash := [Lit(DASH)];
      PageView(MsgView(INPUT_ERROR, true), MsgView("", false), MsgView("", false),
               dash, dash, dash, dash, dash, dash, dash, dash)
    case Accepted(m) =>
      PageView(MsgView("", false),
               if m.df > 1.0 then MsgView(DUTY_WARNING, true) else MsgView("", false),
               MsgView("", false),
               DutyText(m.df), PressureText(m.pr3), [Fmt(m.mi, 4)],
               SkullText(m.ilDb, m.skullMm),
               PressureText(m.pTc), [Fmt(m.mitc, 4)],
               IntensityText(m.isppa), IntensityText(m.ispta))
  }

  /** A page whose fields each hold the text Render gives for the metrics `m` is Render's page. */
  lemma ShowsMetrics(v: PageView, m: Metrics)
    requires v.inputMsg == MsgView("", false) && v.copyMsg == MsgView("", false)
    requires v.warnMsg == (if m.df > 1.0 then MsgView(DUTY_WARNING, true) else MsgView("", false))
    requires v.outDf == DutyText(m.df) && v.outPr3 == PressureText(m.pr3) && v.outMi == [Fmt(m.mi, 4)]
    requires v.outSkullLine == SkullText(m.ilDb, m.skullMm)
    requires v.outPnpTc == PressureText(m.pTc) && v.outMitc == [Fmt(m.mitc, 4)]
    requires v.outIsppa == IntensityText(m.isppa) && v.outIspta == IntensityText(m.ispta)
    ensures v == Render(Accepted(m))
  {
  }

  /** On invalid input the error message is shown, the warning and copy messages are
      cleared, and all eight outputs show the placeholder. */
  lemma RejectedInputsBlankOutputs(form: Form, rt: Runtime)
    requires !RequiredInputsValid(form, rt)
    ensures var v := Render(Derive(form, rt));
      && v.inputMsg == MsgView(INPUT_ERROR, true)
      && v.warnMsg == MsgView("", false) && v.copyMsg == MsgView("", false)
      && v.outDf == v.outPr3 == v.outMi == v.outSkullLine == [Lit(DASH)]
      && v.outPnpTc == v.outMitc == v.outIsppa == v.outIspta == [Lit(DASH)]
  {
  }

  /** On valid input the duty factor is the product of the normalised pulse duration
      and repetition frequency, never negative; the warning is shown exactly when it
      exceeds 1, and computation carries on regardless: every output still shows its
      metric. */
  lemma DutyFactorWarning(form: Form, rt: Runtime)
    requires RequiredInputsValid(form, rt)
    ensures Derive(form, rt).Accepted?
    ensures var df := Derive(form, rt).m.df;
      && df == PdSeconds(ToNumber(form.pdVal, rt).value, form.pdUnit)
               * PrfHz(ToNumber(form.prfVal, rt).value, form.prfUnit)
      && df >= 0.0
      && (Render(Derive(form, rt)).warnMsg.shown <==> df > 1.0)
      && (df > 1.0 ==> Render(Derive(form, rt)).warnMsg.text == DUTY_WARNING)
      && Render(Derive(form, rt)).inputMsg == MsgView("", false)
      && Render(Derive(form, rt)).outDf == DutyText(df)
    ensures var v, m := Render(Derive(form, rt)), Derive(form, rt).m;
      && v.outPr3 == PressureText(m.pr3) && v.outMi == [Fmt(m.mi, 4)]
      && v.outSkullLine == SkullText(m.ilDb, m.skullMm)
      && v.outPnpTc == PressureText(m.pTc) && v.outMitc == [Fmt(m.mitc, 4)]
      && v.outIsppa == IntensityText(m.isppa) && v.outIspta == IntensityText(m.ispta)
  {
    DeriveAccepted(form, rt);
  }

  /** A form for the worked duty-cycle scenarios: 1 MHz at the surface, 1 MPa, the given
      pulse duration at 1 kHz, optional fields blank, water as the medium. */
  function ScenarioForm(pd: string, pdUnit: string): Form {
    Form("1", "0", "1", pd, pdUnit, "1", "khz", "", "", "water", "")
  }

  /** A scenario form whose pulse duration reads as a non-negative number is accepted, and
      its outcome is the cascade on 1 MHz, 0 cm, 1 MPa and 1 kHz. */
  lemma ScenarioAccepted(pd: string, pdUnit: string, pdv: real, rt: Runtime)
    requires rt.numberLiteral("0") == Finite(0.0) && rt.numberLiteral("1") == Finite(1.0)
    requires pd != [] && !IsJsSpace(pd[0]) && !IsJsSpace(pd[|pd| - 1])
    requires rt.numberLiteral(pd) == Finite(pdv) && pdv >= 0.0
    ensures Derive(ScenarioForm(pd, pdUnit), rt)
         == Accepted(Cascade(1.0, 0.0, 1.0, pdv, 1.0, ScenarioForm(pd, pdUnit), rt))
  {
    TrimmedIsFixed("0");
    TrimmedIsFixed("1");
    TrimmedIsFixed(pd);
  }

  /** 2 µs at 1 kHz, on a runtime that reads "0", "1" and "2" as those numbers: a duty
      factor of 0.002 (0.2%), with no warning. */
  lemma LowDutyScenario(rt: Runtime)
    requires rt.numberLiteral("0") == Finite(0.0) && rt.numberLiteral("1") == Finite(1.0)
    requires rt.numberLiteral("2") == Finite(2.0)
    ensures var v := Render(Derive(ScenarioForm("2", "us"), rt));
      && v.inputMsg == MsgView("", false) && v.warnMsg == MsgView("", false)
      && v.outDf == DutyText(0.002)
  {
    ScenarioAccepted("2", "us", 2.0, rt);
    assert PdSeconds(2.0, "us") * PrfHz(1.0, "khz") == 0.002;
  }

  /** 1.5 ms at 1 kHz, on a runtime that reads "0", "1" and "1.5" as those numbers and whose
      sqrt(2) squares to 2: a duty factor of 1.5 raises the warning, and every output is
      still written, the summary line with the default 6 dB and 7 mm and the intensities
      for water. */
  lemma OverfullDutyScenario(rt: Runtime)
    requires rt.numberLiteral("0") == Finite(0.0) && rt.numberLiteral("1") == Finite(1.0)
    requires rt.numberLiteral("1.5") == Finite(1.5)
    requires rt.sqrt(2.0) * rt.sqrt(2.0) == 2.0
    ensures var v := Render(Derive(ScenarioForm("1.5", "ms"), rt));
      && v.inputMsg == MsgView("", false) && v.warnMsg == MsgView(DUTY_WARNING, true)
      && v.outDf == DutyText(1.5)
      && v.outSkullLine == SkullText(6.0, 7.0)
      && v.outIsppa == IntensityText(Finite(50.0 / 1.48))
      && v.outIspta == IntensityText(Finite(50.0 / 1.48 * 1.5))
  {
    var form := ScenarioForm("1.5", "ms");
    ScenarioAccepted("1.5", "ms", 1.5, rt);
    assert PdSeconds(1.5, "ms") * PrfHz(1.0, "khz") == 1.5;
    CascadeIntensity(1.0, 0.0, 1.0, 1.5, 1.0, form, rt);
  }

  /** The intensities in closed form: ISPPA is 50·pnp²/Z and never negative, ISPTA is
      ISPPA times the duty factor, and ISPTA is 0 when the duty factor is 0. */
  predicate ClosedFormIntensities(m: Metrics, pnp: real, zr: real) {
    && zr > 0.0
    && m.isppa == Finite(50.0 * pnp * pnp / zr)
    && m.isppa.value >= 0.0
    && m.ispta == Finite(m.isppa.value * m.df)
    && (m.df == 0.0 ==> m.ispta == Finite(0.0))
  }

  /** On valid input, with sqrt(2)² = 2, the page's intensities are in closed form:
      ISPPA is 50·pnp²/Z and non-negative, ISPTA is ISPPA times the duty factor, and
      ISPTA is 0 when the duty factor is 0. */
  lemma IntensityOnValidPath(form: Form, rt: Runtime)
    requires RequiredInputsValid(form, rt)
    requires rt.sqrt(2.0) * rt.sqrt(2.0) == 2.0
    ensures Derive(form, rt).Accepted?
    ensures ClosedFormIntensities(Derive(form, rt).m, ToNumber(form.pnpMpa, rt).value,
                                  GetImpedanceMRayl(form.zPick, form.zCustom, rt))
  {
    DeriveAccepted(form, rt);
    MetricsIntensity(Derive(form, rt).m, ToNumber(form.pnpMpa, rt).value,
                     GetImpedanceMRayl(form.zPick, form.zCustom, rt), rt);
  }

  /** The intensity part of the cascade, on any parsed inputs. */
  lemma CascadeIntensity(fc: real, z: real, pnp: real, pdv: real, prfv: real, form: Form, rt: Runtime)
    requires rt.sqrt(2.0) * rt.sqrt(2.0) == 2.0
    ensures ClosedFormIntensities(Cascade(fc, z, pnp, pdv, prfv, form, rt), pnp,
                                  GetImpedanceMRayl(form.zPick, form.zCustom, rt))
  {
    MetricsIntensity(Cascade(fc, z, pnp, pdv, prfv, form, rt), pnp,
                     GetImpedanceMRayl(form.zPick, form.zCustom, rt), rt);
  }

  /** Any metrics whose ISPPA and ISPTA follow the cascade's chain have closed-form
      intensities. */
  lemma MetricsIntensity(m: Metrics, pnp: real, zr: real, rt: Runtime)
    requires rt.sqrt(2.0) * rt.sqrt(2.0) == 2.0 && zr > 0.0
    requires m.isppa == Isppa(pnp, zr, rt.sqrt(2.0)) && m.ispta == Mul(m.isppa, Finite(m.df))
    ensures ClosedFormIntensities(m, pnp, zr)
  {
    IsppaClosedForm(pnp, zr, rt.sqrt(2.0));
  }

  /** The intensity path does not depend on derating: two valid runs that read the same
      pressure and impedance fields with the same number parser and square root give the
      same ISPPA, whatever frequency, depth, insertion loss, skull thickness, pulse timing
      and power function they use. */
  lemma IntensityIgnoresDerating(f1: Form, f2: Form, rt1: Runtime, rt2: Runtime)
    requires RequiredInputsValid(f1, rt1) && RequiredInputsValid(f2, rt2)
    requires rt1.numberLiteral == rt2.numberLiteral && rt1.sqrt == rt2.sqrt
    requires f1.pnpMpa == f2.pnpMpa && f1.zPick == f2.zPick && f1.zCustom == f2.zCustom
    ensures Derive(f1, rt1).m.isppa == Derive(f2, rt2).m.isppa
  {
    assert ToNumber(f1.pnpMpa, rt1) == ToNumber(f2.pnpMpa, rt2);
    assert ToNumber(f1.zCustom, rt1) == ToNumber(f2.zCustom, rt2);
  }

  /** The derating path does not depend on the optional fields or the impedance: two valid
      runs that read the same frequency, depth and pressure with the same runtime give the
      same derated pressure and mechanical index. */
  lemma DeratingIgnoresOptionalFields(f1: Form, f2: Form, rt: Runtime)
    requires RequiredInputsValid(f1, rt) && RequiredInputsValid(f2, rt)
    requires f1.fcMhz == f2.fcMhz && f1.zCm == f2.zCm && f1.pnpMpa == f2.pnpMpa
    ensures Derive(f1, rt).m.pr3 == Derive(f2, rt).m.pr3
    ensures Derive(f1, rt).m.mi == Derive(f2, rt).m.mi
  {
  }

  /** The in-situ path depends only on frequency, depth, pressure and insertion loss: two
      valid runs that read those fields alike with the same runtime give the same in-situ
      pressure and mechanical index, whatever their skull thickness, timing or impedance. */
  lemma InSituIgnoresOtherFields(f1: Form, f2: Form, rt: Runtime)
    requires RequiredInputsValid(f1, rt) && RequiredInputsValid(f2, rt)
    requires f1.fcMhz == f2.fcMhz && f1.zCm == f2.zCm && f1.pnpMpa == f2.pnpMpa && f1.ilDb == f2.ilDb
    ensures Derive(f1, rt).m.pTc == Derive(f2, rt).m.pTc
    ensures Derive(f1, rt).m.mitc == Derive(f2, rt).m.mitc
  {
  }

  /** Skull thickness is for display only: two forms that differ in nothing but that field
      leave pages that differ in nothing but the summary line. */
  lemma SkullOnlyInSummary(f1: Form, f2: Form, rt: Runtime)
    requires f2 == f1.(skullMm := f2.skullMm)
    ensures Derive(f1, rt).Rejected? <==> Derive(f2, rt).Rejected?
    ensures Render(Derive(f1, rt)).(outSkullLine := []) == Render(Derive(f2, rt)).(outSkullLine := [])
  {
  }

  /** A blank optional field takes its documented default and never causes rejection. */
  lemma BlankOptionalFieldsTakeDefaults(form: Form, rt: Runtime)
    requires RequiredInputsValid(form, rt)
    requires Trim(form.ilDb) == [] && Trim(form.skullMm) == []
    ensures Derive(form, rt).Accepted?
    ensures Derive(form, rt).m.ilDb == DEFAULT_INSERTION_LOSS_DB
    ensures Derive(form, rt).m.skullMm == DEFAULT_SKULL_THICKNESS_MM
  {
  }

  /** A blank frequency field is always rejected, but blank depth, pressure, pulse duration
      and repetition frequency fields read as 0 and are accepted, giving a zero duty factor. */
  lemma BlankRequiredFields(form: Form, rt: Runtime)
    ensures Trim(form.fcMhz) == [] ==> Derive(form, rt).Rejected?
    ensures var fc := ToNumber(form.fcMhz, rt);
      fc.Finite? && fc.value > 0.0 && Trim(form.zCm) == [] && Trim(form.pnpMpa) == []
      && Trim(form.pdVal) == [] && Trim(form.prfVal) == []
      ==> Derive(form, rt).Accepted? && Derive(form, rt).m.df == 0.0
  {
  }

  /** A message node of the page. */
  class MessageArea {
    var text: string
    var shown: bool

    constructor ()
      ensures text == "" && !shown
    {
      text := "";
      shown := false;
    }
  }

  /** setMsg: the node holds `text` and is displayed exactly when `text` is non-empty. */
  method SetMsg(node: MessageArea, text: string)
    modifies node
    ensures node.text == text && node.shown == (text != "")
    ensures MsgView(node.text, node.shown) == ShownMsg(text)
  {
    node.text := text;
    node.shown := text != "";
  }

  /** The output side of the page: three message areas and eight result fields. */
  class Page {
    const inputMsg: MessageArea
    const warnMsg: MessageArea
    const copyMsg: MessageArea
    var outDf: Text
    var outPr3: Text
    var outMi: Text
    var outSkullLine: Text
    var outPnpTc: Text
    var outMitc: Text
    var outIsppa: Text
    var outIspta: Text

    ghost predicate Valid()
      reads this
    {
      inputMsg != warnMsg && inputMsg != copyMsg && warnMsg != copyMsg
    }

    function View(): PageView
      reads this, inputMsg, warnMsg, copyMsg
    {
      PageView(MsgView(inputMsg.text, inputMsg.shown), MsgView(warnMsg.text, warnMsg.shown),
               MsgView(copyMsg.text, copyMsg.shown),
               outDf, outPr3, outMi, outSkullLine, outPnpTc, outMitc, outIsppa, outIspta)
    }

    constructor ()
      ensures Valid() && fresh(inputMsg) && fresh(warnMsg) && fresh(copyMsg)
      ensures View() == PageView(MsgView("", false), MsgView("", false), MsgView("", false),
                                 [], [], [], [], [], [], [], [])
    {
      inputMsg := new MessageArea();
      warnMsg := new MessageArea();
      copyMsg := new MessageArea();
      outDf, outPr3, outMi, outSkullLine := [], [], [], [];
      outPnpTc, outMitc, outIsppa, outIspta := [], [], [], [];
    }

    /** updateAll: clear the messages, validate, then either blank every output or
        compute and write the cascade. The page it leaves depends on the form alone. */
    method UpdateAll(form: Form, rt: Runtime)
      requires Valid()
      modifies this, inputMsg, warnMsg, copyMsg
      ensures Valid()
      ensures View() == Render(Derive(form, rt))
    {
      SetMsg(inputMsg, "");
      SetMsg(warnMsg, "");
      SetMsg(copyMsg, "");

      var fc := ToNumber(form.fcMhz, rt);
      var z := ToNumber(form.zCm, rt);
      var pnp := ToNumber(form.pnpMpa, rt);
      var pdv := ToNumber(form.pdVal, rt);
      var prfv := ToNumber(form.prfVal, rt);

      if !IsFiniteNonNeg(fc) || fc == Finite(0.0) || !IsFiniteNonNeg(z) || !IsFiniteNonNeg(pnp)
         || !IsFiniteNonNeg(pdv) || !IsFiniteNonNeg(prfv)
      {
        SetMsg(inputMsg, INPUT_ERROR);
        outDf := [Lit(DASH)];
        outPr3 := [Lit(DASH)];
        outMi := [Lit(DASH)];
        outPnpTc := [Lit(DASH)];
        outMitc := [Lit(DASH)];
        outIsppa := [Lit(DASH)];
        outIspta := [Lit(DASH)];
        outSkullLine := [Lit(DASH)];
        assert Derive(form, rt) == Rejected;
        return;
      }

      WriteCascade(fc.value, z.value, pnp.value, pdv.value, prfv.value, form, rt);
      assert Derive(form, rt) == Accepted(Cascade(fc.value, z.value, pnp.value, pdv.value, prfv.value, form, rt));
    }

    /** The valid path of updateAll on the parsed required inputs: each result is computed
        and written in turn, with the duty-cycle warning raised when the duty factor
        exceeds 1. */
    method WriteCascade(fc: real, z: real, pnp: real, pdv: real, prfv: real, form: Form, rt: Runtime)
      requires Valid()
      requires MsgView(inputMsg.text, inputMsg.shown) == MsgView("", false)
      requires MsgView(warnMsg.text, warnMsg.shown) == MsgView("", false)
      requires MsgView(copyMsg.text, copyMsg.shown) == MsgView("", false)
      modifies this, warnMsg
      ensures Valid()
      ensures View() == Render(Accepted(Cascade(fc, z, pnp, pdv, prfv, form, rt)))
    {
      // Duty factor
      var df := DutyFactor(pdv, form.pdUnit, prfv, form.prfUnit);
      outDf := DutyText(df);
      if df > 1.0 {
        SetMsg(warnMsg, DUTY_WARNING);
      }

      // Derated pressure and MI
      var pr3 := DeratePressure03(pnp, fc, z, rt);
      outPr3 := PressureText(pr3);
      var mi := Div(pr3, rt.sqrt(fc));
      outMi := [Fmt(mi, 4)];

      // Optional fields with their defaults
      var ilDb := GetOptionalNumber(form.ilDb, DEFAULT_INSERTION_LOSS_DB, rt);
      var skullMm := GetOptionalNumber(form.skullMm, DEFAULT_SKULL_THICKNESS_MM, rt);
      outSkullLine := SkullText(ilDb, skullMm);

      // In-situ estimate and its MI
      var pTc := ApplyInsertionLoss(pr3, ilDb, rt);
      outPnpTc := PressureText(pTc);
      var mitc := Div(pTc, rt.sqrt(fc));
      outMitc := [Fmt(mitc, 4)];

      // ISPPA and ISPTA from the peak pressure, assuming a sinusoid
      var zMRayl := GetImpedanceMRayl(form.zPick, form.zCustom, rt);
      var iWcm2 := Isppa(pnp, zMRayl, rt.sqrt(2.0));
      outIsppa := IntensityText(iWcm2);
      outIspta := IntensityText(Mul(iWcm2, Finite(df)));

      ShowsMetrics(View(), Metrics(df, pr3, mi, ilDb, skullMm, pTc, mitc, iWcm2, Mul(iWcm2, Finite(df))));
    }
  }
}
