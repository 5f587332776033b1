/** Central configuration of the air-quality node: pin assignment, alert
    thresholds, timing and the ADC-to-ppm range of the MQ-135 gas sensor.
    Every constant keeps the name of the macro it models. */
module Config {

  // ---- ESP32 pins ----
  const PINO_DHT22: int := 4     // DHT22 data line (input)
  const PINO_MQ135: int := 34    // MQ-135 analog output (input)
  const PINO_RELE1: int := 26    // relay 1: exhaust fan
  const PINO_RELE2: int := 27    // relay 2: humidifier
  const PINO_LED: int := 2       // status LED
  const PINO_BUZZER: int := 25   // alert buzzer

  // ---- alert thresholds ----
  const CO2_ATENCAO: int := 1000   // ppm, warning level
  const CO2_CRITICO: int := 1500   // ppm, critical level
  const TEMP_LIMITE: real := 28.0  // degrees C, highest tolerated temperature
  const UMIDADE_MINIMA: real := 40.0  // %RH, lowest healthy humidity

  // ---- timing ----
  const INTERVALO_LEITURA: nat := 5000  // ms between two readings
  const WARMUP_MQ135: nat := 30000      // ms the MQ-135 needs to heat up

  // ---- MQ-135 mapping: 12-bit ADC onto a CO2 ppm range ----
  const MQ135_PPM_MIN: int := 400
  const MQ135_PPM_MAX: int := 2000
  const ADC_MIN: int := 0
  const ADC_MAX: int := 4095

  /** The four output pins, in the order the actuator code drives them. */
  const OUTPUT_PINS: seq<int> := [PINO_RELE1, PINO_RELE2, PINO_BUZZER, PINO_LED]

  /** The warning band (CO2_ATENCAO, CO2_CRITICO] is not empty. */
  lemma ThresholdsOrdered()
    ensures CO2_ATENCAO < CO2_CRITICO
    ensures CO2_ATENCAO + 1 <= CO2_CRITICO
  {
  }

  /** Both ranges of the MQ-135 remap are proper intervals, so the divisor
      ADC_MAX - ADC_MIN of the remap is not zero. */
  lemma RangesProper()
    ensures ADC_MIN < ADC_MAX && ADC_MAX - ADC_MIN != 0
    ensures MQ135_PPM_MIN < MQ135_PPM_MAX
  {
  }

  /** The four output pins are pairwise distinct, and none of them is a sensor
      input pin: writing one output never changes another. */
  lemma OutputPinsDistinct()
    ensures forall i, j :: 0 <= i < j < |OUTPUT_PINS| ==> OUTPUT_PINS[i] != OUTPUT_PINS[j]
    ensures PINO_DHT22 !in OUTPUT_PINS && PINO_MQ135 !in OUTPUT_PINS
  {
  }

  /** The temperature and humidity limits and the timing constants. */
  lemma TimingAndLimits()
    ensures TEMP_LIMITE == 28.0 && UMIDADE_MINIMA == 40.0
    ensures WARMUP_MQ135 == 30000 && INTERVALO_LEITURA == 5000
  {
  }
}
