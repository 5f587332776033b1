/** Sensor acquisition and air-quality classification of the node:
    the MQ-135 warm-up clock, the DHT22 validity check, the ADC-to-ppm
    remap of the gas reading and the five-state priority classifier.
    Hardware reads (millis(), the DHT22 driver, analogRead) are inputs. */
module Sensores {
  import opened Config

  // ------------------------------------------------------------------
  //  32-bit unsigned time (unsigned long on the ESP32)
  // ------------------------------------------------------------------

  const ULONG_MODULUS: int := 0x1_0000_0000

  /** A value of type `unsigned long`, such as a millis() reading. */
  type ULong = x: int | 0 <= x < 0x1_0000_0000

  /** C's unsigned subtraction a - b: the difference taken modulo 2^32. */
  function SubULong(a: ULong, b: ULong): (r: ULong)
    ensures a >= b ==> r == a - b
    ensures a < b ==> r == a - b + ULONG_MODULUS
  {
    (a - b) % ULONG_MODULUS
  }

  /** Adding e milliseconds to a start time on a wrapping 32-bit clock and
      subtracting the start time again gives back e, whether or not the
      clock wrapped in between. */
  lemma ElapsedAcrossWrap(inicio: ULong, e: ULong)
    ensures SubULong((inicio + e) % ULONG_MODULUS, inicio) == e
  {
    if inicio + e < ULONG_MODULUS {
      assert (inicio + e) % ULONG_MODULUS == inicio + e;
    } else {
      assert (inicio + e) % ULONG_MODULUS == inicio + e - ULONG_MODULUS;
    }
  }

  // ------------------------------------------------------------------
  //  Warm-up clock: the global start time of the sensor subsystem
  // ------------------------------------------------------------------

  /** The sensor subsystem's only state: the millis() value recorded when
      it was initialised (a global initialised to 0 in sensores.h). */
  class Aquisicao {
    var tempoInicioSistema: ULong

    constructor ()
      ensures tempoInicioSistema == 0
    {
      tempoInicioSistema := 0;
    }

    /** Called once from setup(); `agora` is the millis() value at the call.
        The DHT22 driver start-up is hardware and is not modelled. */
    method InicializarSensores(agora: ULong)
      modifies this
      ensures tempoInicioSistema == agora
      ensures !SensorAquecido(agora)
    {
      tempoInicioSistema := agora;
    }

    /** The MQ-135 has heated up: at least WARMUP_MQ135 ms have passed on the
        wrapping 32-bit clock since initialisation; `agora` is millis(). */
    function SensorAquecido(agora: ULong): (r: bool)
      reads this
      ensures r <==> (agora - tempoInicioSistema) % ULONG_MODULUS >= WARMUP_MQ135
      ensures agora >= tempoInicioSistema ==> (r <==> agora - tempoInicioSistema >= WARMUP_MQ135)
    {
      SubULong(agora, tempoInicioSistema) >= WARMUP_MQ135
    }
  }

  /** e milliseconds after initialisation the sensor counts as warm exactly
      when e >= WARMUP_MQ135, also when millis() wrapped around meanwhile. */
  lemma WarmAfterElapsed(s: Aquisicao, e: ULong)
    ensures s.SensorAquecido((s.tempoInicioSistema + e) % ULONG_MODULUS) <==> e >= WARMUP_MQ135
  {
    ElapsedAcrossWrap(s.tempoInicioSistema, e);
  }

  /** The warm-up boundary: still cold after 29999 ms, warm after 30000 ms. */
  lemma WarmupBoundary(s: Aquisicao)
    ensures !s.SensorAquecido((s.tempoInicioSistema + WARMUP_MQ135 - 1) % ULONG_MODULUS)
    ensures s.SensorAquecido((s.tempoInicioSistema + WARMUP_MQ135) % ULONG_MODULUS)
  {
    WarmAfterElapsed(s, WARMUP_MQ135 - 1);
    WarmAfterElapsed(s, WARMUP_MQ135);
  }

  // ------------------------------------------------------------------
  //  DHT22: temperature and humidity with a NaN check
  // ------------------------------------------------------------------

  /** A float reported by the DHT22 driver: NaN on a failed read. */
  datatype Float = NaN | Num(value: real)

  /** `t` and `u` are what the driver returned; `temperatura` and `umidade`
      are the caller's variables before the call (passed by reference in the
      source), `temperaturaLida` and `umidadeLida` the same variables after it. */
  method LerDHT22(t: Float, u: Float, temperatura: real, umidade: real)
    returns (ok: bool, temperaturaLida: real, umidadeLida: real)
    ensures ok <==> t.Num? && u.Num?
    ensures ok ==> temperaturaLida == t.value && umidadeLida == u.value
    ensures !ok ==> temperaturaLida == temperatura && umidadeLida == umidade
  {
    temperaturaLida, umidadeLida := temperatura, umidade;
    if t.NaN? || u.NaN? {
      return false, temperaturaLida, umidadeLida;
    }
    temperaturaLida := t.value;
    umidadeLida := u.value;
    ok := true;
  }

  // ------------------------------------------------------------------
  //  MQ-135: 12-bit ADC reading remapped onto a ppm range
  // ------------------------------------------------------------------

  function Abs(x: int): nat
  {
    if x < 0 then -x else x
  }

  /** C's integer division: the quotient truncated toward zero, so the
      remainder is smaller than the divisor and has the dividend's sign. */
  function TruncDiv(a: int, b: int): (q: int)
    requires b != 0
    ensures Abs(a - q * b) < Abs(b)
    ensures a - q * b == 0 || (a - q * b < 0 <==> a < 0)
  {
    var m := Abs(a) / Abs(b);
    if (a < 0) == (b < 0) then m else -m
  }

  /** Arduino's map(x, inMin, inMax, outMin, outMax), taken to be
      (x - inMin) * (outMax - outMin) / (inMax - inMin) + outMin with C's
      truncating division. The ends of the input range map onto the ends of
      the output range. */
  function ArduinoMap(x: int, inMin: int, inMax: int, outMin: int, outMax: int): (r: int)
    requires inMin != inMax
    ensures x == inMin ==> r == outMin
    ensures x == inMax ==> r == outMax
  {
    var run, rise := inMax - inMin, outMax - outMin;
    var p := (x - inMin) * rise;
    var r := TruncDiv(p, run) + outMin;
    if x == inMin then
      assert p == 0 * run;
      MulDivCancel(0, run);
      r
    else if x == inMax then
      assert p == rise * run;
      MulDivCancel(rise, run);
      r
    else
      r
  }

  /** Multiplying by a non-zero d and truncating-dividing by d gives k back. */
  lemma MulDivCancel(k: int, d: int)
    requires d != 0
    ensures TruncDiv(k * d, d) == k
  {
    var q := TruncDiv(k * d, d);
    assert k * d - q * d == (k - q) * d;
    AbsMul(k - q, d);
    SmallFactor(Abs(k - q), Abs(d));
  }

  lemma AbsMul(x: int, y: int)
    ensures Abs(x * y) == Abs(x) * Abs(y)
  {
  }

  lemma SmallFactor(a: nat, b: nat)
    requires b > 0 && a * b < b
    ensures a == 0
  {
  }

  /** A raw reading of the ESP32's 12-bit ADC (analogRead). */
  type Adc12 = x: int | 0 <= x < 4096

  /** The estimated CO2 concentration in ppm for the ADC reading `adc`: the
      exact linear interpolation of ADC_MIN..ADC_MAX onto
      MQ135_PPM_MIN..MQ135_PPM_MAX, rounded down. */
  function LerMQ135(adc: Adc12): (ppm: int)
    ensures MQ135_PPM_MIN <= ppm <= MQ135_PPM_MAX
    ensures adc == ADC_MIN ==> ppm == MQ135_PPM_MIN
    ensures adc == ADC_MAX ==> ppm == MQ135_PPM_MAX
    ensures (ppm - MQ135_PPM_MIN) * (ADC_MAX - ADC_MIN)
            <= (adc - ADC_MIN) * (MQ135_PPM_MAX - MQ135_PPM_MIN)
            < (ppm - MQ135_PPM_MIN + 1) * (ADC_MAX - ADC_MIN)
  {
    RangesProper();
    ArduinoMap(adc, ADC_MIN, ADC_MAX, MQ135_PPM_MIN, MQ135_PPM_MAX)
  }

  /** A higher ADC reading never gives a lower ppm estimate. */
  lemma MQ135Monotone(a: Adc12, b: Adc12)
    requires a <= b
    ensures LerMQ135(a) <= LerMQ135(b)
  {
  }

  /** The intermediate product of the remap stays within a 32-bit `long`
      for every 12-bit reading, so the C arithmetic does not overflow. */
  lemma MQ135NoOverflow(adc: Adc12)
    ensures 0 <= (adc - ADC_MIN) * (MQ135_PPM_MAX - MQ135_PPM_MIN) < 0x8000_0000
  {
  }

  // ------------------------------------------------------------------
  //  Air-quality classification
  // ------------------------------------------------------------------

  /** The five environmental states, highest priority first. */
  datatype Estado = CRITICO | ATENCAO | CALOR | SECO | NORMAL

  /** The text label the source passes around for a state. */
  function Rotulo(e: Estado): (r: string)
    ensures 4 <= |r| <= 7
    ensures forall i :: 0 <= i < |r| ==> 'A' <= r[i] <= 'Z'
    ensures r == "NORMAL" <==> e == NORMAL
  {
    match e
    case CRITICO => "CRITICO"
    case ATENCAO => "ATENCAO"
    case CALOR => "CALOR"
    case SECO => "SECO"
    case NORMAL => "NORMAL"
  }

  /** Distinct states have distinct labels. */
  lemma RotuloInjective(a: Estado, b: Estado)
    requires Rotulo(a) == Rotulo(b)
    ensures a == b
  {
  }

  /** The classifier: the first of four threshold tests that fires decides
      the state; when none fires the state is NORMAL. Each state is stated
      here as the band of inputs it covers. */
  function AnalisarQualidade(temperatura: real, umidade: real, co2: int): (e: Estado)
    ensures e == CRITICO <==> co2 > CO2_CRITICO
    ensures e == ATENCAO <==> CO2_ATENCAO < co2 <= CO2_CRITICO
    ensures e == CALOR <==> co2 <= CO2_ATENCAO && temperatura > TEMP_LIMITE
    ensures e == SECO <==>
              co2 <= CO2_ATENCAO && temperatura <= TEMP_LIMITE && umidade < UMIDADE_MINIMA
    ensures e == NORMAL <==>
              co2 <= CO2_ATENCAO && temperatura <= TEMP_LIMITE && umidade >= UMIDADE_MINIMA
  {
    if co2 > CO2_CRITICO then CRITICO
    else if co2 > CO2_ATENCAO then ATENCAO
    else if temperatura > TEMP_LIMITE then CALOR
    else if umidade < UMIDADE_MINIMA then SECO
    else NORMAL
  }

  /** Evaluation priority of a state: CRITICO > ATENCAO > CALOR > SECO > NORMAL. */
  function Prioridade(e: Estado): nat
  {
    match e
    case CRITICO => 4
    case ATENCAO => 3
    case CALOR => 2
    case SECO => 1
    case NORMAL => 0
  }

  /** The threshold test that selects state `e`, taken on its own
      (NORMAL's test always fires: it is the fallback). */
  predicate Dispara(e: Estado, temperatura: real, umidade: real, co2: int)
  {
    match e
    case CRITICO => co2 > CO2_CRITICO
    case ATENCAO => co2 > CO2_ATENCAO
    case CALOR => temperatura > TEMP_LIMITE
    case SECO => umidade < UMIDADE_MINIMA
    case NORMAL => true
  }

  /** First match wins: the classifier returns a state whose test fires, and
      no state of higher priority has a test that fires. */
  lemma FirstMatchWins(temperatura: real, umidade: real, co2: int)
    ensures Dispara(AnalisarQualidade(temperatura, umidade, co2), temperatura, umidade, co2)
    ensures forall e :: Prioridade(e) > Prioridade(AnalisarQualidade(temperatura, umidade, co2))
                        ==> !Dispara(e, temperatura, umidade, co2)
  {
    var r := AnalisarQualidade(temperatura, umidade, co2);
    forall e | Prioridade(e) > Prioridade(r)
      ensures !Dispara(e, temperatura, umidade, co2)
    {
      match e
      case CRITICO =>
      case ATENCAO =>
      case CALOR =>
      case SECO =>
      case NORMAL =>
    }
  }

  /** The highest-priority state whose test fires is unique, so the first-match
      rule determines the classification completely: any state that fires and
      dominates every other firing state is the one the classifier returns. */
  lemma FirstMatchDetermines(temperatura: real, umidade: real, co2: int, e: Estado)
    requires Dispara(e, temperatura, umidade, co2)
    requires forall d :: Prioridade(d) > Prioridade(e) ==> !Dispara(d, temperatura, umidade, co2)
    ensures e == AnalisarQualidade(temperatura, umidade, co2)
  {
    FirstMatchWins(temperatura, umidade, co2);
  }

  /** CO2 dominates: above the critical level the result is CRITICO whatever
      the temperature and humidity are. */
  lemma Co2Dominates(t1: real, u1: real, t2: real, u2: real, co2: int)
    requires co2 > CO2_ATENCAO
    ensures AnalisarQualidade(t1, u1, co2) == AnalisarQualidade(t2, u2, co2)
    ensures co2 > CO2_CRITICO ==> AnalisarQualidade(t1, u1, co2) == CRITICO
  {
  }

  /** More CO2 never lowers the priority of the classification. */
  lemma PriorityMonotoneInCo2(temperatura: real, umidade: real, c1: int, c2: int)
    requires c1 <= c2
    ensures Prioridade(AnalisarQualidade(temperatura, umidade, c1))
            <= Prioridade(AnalisarQualidade(temperatura, umidade, c2))
  {
  }

  /** The comparisons are strict: a reading exactly at a threshold falls
      through to the next test. */
  lemma StrictThresholds(temperatura: real, umidade: real, co2: int)
    ensures AnalisarQualidade(temperatura, umidade, CO2_CRITICO) != CRITICO
    ensures AnalisarQualidade(temperatura, umidade, CO2_CRITICO + 1) == CRITICO
    ensures AnalisarQualidade(temperatura, umidade, CO2_ATENCAO) != ATENCAO
    ensures AnalisarQualidade(temperatura, umidade, CO2_ATENCAO + 1) == ATENCAO
    ensures AnalisarQualidade(TEMP_LIMITE, umidade, co2) != CALOR
    ensures AnalisarQualidade(temperatura, UMIDADE_MINIMA, co2) != SECO
  {
  }

  /** Worked readings with the default thresholds. */
  lemma ClassificationScenarios()
    ensures AnalisarQualidade(27.5, 38.2, 1120) == ATENCAO
    ensures AnalisarQualidade(30.0, 50.0, 500) == CALOR
    ensures AnalisarQualidade(25.0, 35.0, 500) == SECO
    ensures AnalisarQualidade(25.0, 50.0, 1600) == CRITICO
    ensures AnalisarQualidade(25.0, 50.0, 500) == NORMAL
  {
  }
}
