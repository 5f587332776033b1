# Air-quality node: sensing, classification and actuation

A model of the decision logic of an ESP32 air-quality monitor. The node reads
temperature and humidity from a DHT22 and a CO2 proxy from an MQ-135 on the
12-bit ADC. It classifies the reading into one of five states (CRITICO,
ATENCAO, CALOR, SECO, NORMAL) and drives two active-low relays (exhaust fan and
humidifier), a status LED and a buzzer from the state label.

Three modules follow the three core source files:

- `config.dfy` (`Config`): the pin, threshold, timing and ADC/ppm constants,
  with lemmas for the relations the other modules rely on.
- `sensores.dfy` (`Sensores`):
  - the warm-up clock: class `Aquisicao` holds the start time, on a wrapping
    32-bit `unsigned long` clock;
  - the DHT22 NaN check (`LerDHT22`);
  - the ADC-to-ppm remap (`LerMQ135`, built on a model of Arduino's `map`);
  - the priority classifier `AnalisarQualidade`, with an independent
    "first test that fires wins" characterisation (`Dispara`, `Prioridade`).
- `atuadores.dfy` (`Atuadores`):
  - class `Placa` is the board: a map from pin number to level, the trace of
    every `digitalWrite`, and the total time spent in `delay`;
  - its methods are the source's actuator routines;
  - the table from label to outputs is the pure function `ComandoPara`, and
    `Aplicar` gives the pin levels a command leaves;
  - `Reproduzir` replays a write trace over a pin map. The lemmas tie the
    trace a method writes to the pins it leaves (`ReproduzirComando`,
    `PiscaEfeito`, `ReproduzirInicializacao`).

Inputs of the model: the `millis()` value (`agora`), the two values from the
DHT22 driver (`Float`, NaN or a number) and the raw `analogRead` value
(`Adc12`, 0..4095).

Decisions where the sources leave room:

- `acionarAtuadores` takes a text label, as the source does. The states are a
  datatype (`Estado`) and `Rotulo` gives each state's label. Any string that is
  not one of the four alert labels takes the NORMAL branch.
- The doc comment of `acionarAtuadores` (src/atuadores.h:81) says NORMAL blinks
  the LED once. The code (src/atuadores.h:117-124) writes the LED LOW with no
  blink and no delay. The model follows the code.
- The warm-up predicate is computed but the classifier never consults it
  (src/sensores.h:104-133). The model adds no warm-up suppression rule.
- Arduino's `map` is not in the model's sources. The model assumes
  `map(x, inMin, inMax, outMin, outMax) = (x - inMin) * (outMax - outMin) / (inMax - inMin) + outMin`,
  with C's division truncated toward zero (`TruncDiv`).
- `delay` takes a `uint32_t` on the ESP32. The `int` argument of `piscarLED`
  is converted modulo 2^32 (`Placa.Delay`).

## Model

| member | source | states |
|---|---|---|
| Config.ThresholdsOrdered | src/config.h:46-47 | CO2_ATENCAO < CO2_CRITICO, so the warning band is not empty |
| Config.RangesProper | src/config.h:63-66 | ADC_MIN < ADC_MAX (the remap divisor is non-zero) and MQ135_PPM_MIN < MQ135_PPM_MAX |
| Config.OutputPinsDistinct | src/config.h:30-35 | the four output pins 26, 27, 25, 2 are pairwise distinct and differ from the sensor pins |
| Config.TimingAndLimits | src/config.h:48-55 | TEMP_LIMITE = 28.0, UMIDADE_MINIMA = 40.0, WARMUP_MQ135 = 30000 ms, INTERVALO_LEITURA = 5000 ms |
| Sensores.SubULong | src/sensores.h:41-43 | unsigned subtraction of two millis() values: the plain difference when no wrap occurred, otherwise the difference plus 2^32 |
| Sensores.ElapsedAcrossWrap | src/sensores.h:41-43 | e ms after a start time on the wrapping 32-bit clock, the unsigned difference is exactly e |
| Sensores.Aquisicao.constructor | src/sensores.h:22 | the start time is 0 before initialisation |
| Sensores.Aquisicao.InicializarSensores | src/sensores.h:29-34 | records the millis() value of the call as start time; right after it the sensor is not warm |
| Sensores.Aquisicao.SensorAquecido | src/sensores.h:41-43 | warm exactly when the start time and millis() differ by at least 30000 ms modulo 2^32; without a wrap, exactly when the plain difference is at least 30000 ms |
| Sensores.WarmAfterElapsed | src/sensores.h:41-43 | e ms after initialisation the sensor is warm exactly when e >= 30000, also across a millis() wrap-around |
| Sensores.WarmupBoundary | src/sensores.h:41-43 | not warm at 29999 ms elapsed, warm at 30000 ms |
| Sensores.LerDHT22 | src/sensores.h:51-73 | returns true exactly when neither value is NaN; then both outputs are the read values; otherwise both caller variables are unchanged |
| Sensores.TruncDiv | src/sensores.h:87 | C division: the remainder is smaller than the divisor in magnitude and has the dividend's sign |
| Sensores.ArduinoMap | src/sensores.h:87 | the assumed `map` sends inMin to outMin and inMax to outMax |
| Sensores.MulDivCancel | src/sensores.h:87 | truncating division undoes multiplication by the same non-zero divisor |
| Sensores.LerMQ135 | src/sensores.h:81-96 | every 12-bit reading gives a ppm in 400..2000; 0 gives 400, 4095 gives 2000; the ppm is the exact linear interpolation rounded down |
| Sensores.MQ135Monotone | src/sensores.h:87 | a higher ADC reading never gives a lower ppm |
| Sensores.MQ135NoOverflow | src/sensores.h:87 | the intermediate product of the remap fits in a 32-bit `long` for every 12-bit reading |
| Sensores.Rotulo | src/sensores.h:109-132 | the label of a state is a 4- to 7-letter upper-case word, and it is "NORMAL" exactly for the NORMAL state |
| Sensores.RotuloInjective | src/sensores.h:104-133 | the five state labels are pairwise different strings |
| Sensores.AnalisarQualidade | src/sensores.h:104-133 | the band of each state: CRITICO iff co2 > 1500; ATENCAO iff 1000 < co2 <= 1500; CALOR iff co2 <= 1000 and t > 28; SECO iff also t <= 28 and u < 40; NORMAL iff none of the four tests fires |
| Sensores.FirstMatchWins | src/sensores.h:104-133 | the returned state's test fires and no test of a higher-priority state fires |
| Sensores.FirstMatchDetermines | src/sensores.h:104-133 | a firing state that dominates every firing state is exactly the classifier's result |
| Sensores.Co2Dominates | src/sensores.h:106-116 | above the warning level the result does not depend on temperature or humidity; above the critical level it is CRITICO |
| Sensores.PriorityMonotoneInCo2 | src/sensores.h:104-133 | more CO2 never lowers the priority of the result |
| Sensores.StrictThresholds | src/sensores.h:107-125 | co2 = 1500 is not CRITICO but 1501 is; co2 = 1000 is not ATENCAO but 1001 is; t = 28.0 is not CALOR; u = 40.0 is not SECO |
| Sensores.ClassificationScenarios | src/sensores.h:104-133 | worked readings: (27.5, 38.2, 1120) is ATENCAO, (30, 50, 500) CALOR, (25, 35, 500) SECO, (25, 50, 1600) CRITICO, (25, 50, 500) NORMAL |
| Atuadores.NivelRele | src/atuadores.h:42-45 | active-low relay drive: the pin is LOW exactly when the relay is switched on |
| Atuadores.NivelDireto | src/atuadores.h:51-53 | direct drive: the pin is HIGH exactly when the output is switched on |
| Atuadores.ReproduzirFrame | src/atuadores.h:44 | after a write trace every written pin has a level, the last write decides its pin, non-written pins keep their level |
| Atuadores.ReproduzirSnoc | src/atuadores.h:44 | one more digitalWrite updates exactly its own pin |
| Atuadores.ReproduzirAppend | src/atuadores.h:83-125 | replaying two traces one after the other equals replaying their concatenation |
| Atuadores.PiscaAlterna | src/atuadores.h:62-69 | n blinks are 2n LED writes alternating HIGH, LOW, starting with HIGH |
| Atuadores.PiscaEfeito | src/atuadores.h:62-69 | n > 0 blinks leave the LED LOW and every other pin unchanged; 0 blinks change nothing |
| Atuadores.ComandoPara | src/atuadores.h:85-124 | the buzzer is on only for "CRITICO", together with both relays and 3 blinks at 200 ms; relay 1 is on for CRITICO, ATENCAO and CALOR; relay 2 for CRITICO and SECO; the LED stays on for ATENCAO, CALOR and SECO; any other label gets everything off |
| Atuadores.ReproduzirComando | src/atuadores.h:83-125 | the pins a command's writes replay to are the command's effect `Aplicar` |
| Atuadores.ReproduzirInicializacao | src/atuadores.h:27-30 | the start-up writes set both relays HIGH, LED and buzzer LOW, and nothing else |
| Atuadores.AcionamentoLogico | src/atuadores.h:83-125 | whatever the previous pin levels, the outputs read off the pins (relay on = LOW) are the command's logical outputs; pins other than the four outputs keep their level |
| Atuadores.SaidaSoDoRotulo | src/atuadores.h:83-125 | the final levels of the four outputs depend only on the label, not on the previous levels |
| Atuadores.AcionarIdempotente | src/atuadores.h:83-125 | acting on the same label twice leaves the same pins as acting once |
| Atuadores.TabelaDeEstados | src/atuadores.h:85-124 | the outputs per state: CRITICO all on with the LED blinking 3 times and ending off, 1200 ms wait; ATENCAO and CALOR relay 1 and LED on; SECO relay 2 and LED on; NORMAL all off; only CRITICO waits |
| Atuadores.AtencaoComoCalor | src/atuadores.h:93-108 | ATENCAO and CALOR produce the same writes and the same wait |
| Atuadores.RotuloDesconhecido | src/atuadores.h:117-124 | any label other than the four alert labels gets the NORMAL writes (relays HIGH, buzzer LOW, LED LOW) and no wait |
| Atuadores.CicloScenarios | src/atuadores.h:83-125 | reading (27.5, 38.2, 1120) ends with relay 1 and LED on; reading (25, 50, 1600) ends with both relays and the buzzer on after 3 blinks at 200 ms |
| Atuadores.Placa.DigitalWrite | src/atuadores.h:44 | sets one pin and appends one write to the trace |
| Atuadores.Placa.Delay | src/atuadores.h:65-68 | adds the `uint32_t` conversion of its argument to the elapsed time; pins and trace unchanged |
| Atuadores.Placa.InicializarAtuadores | src/atuadores.h:18-33 | writes both relays HIGH, LED LOW, buzzer LOW, in that order; afterwards every logical output is off |
| Atuadores.Placa.SetRele | src/atuadores.h:42-45 | one write: LOW to switch the relay on, HIGH to switch it off; no other pin changes |
| Atuadores.Placa.SetBuzzer | src/atuadores.h:51-53 | one write to the buzzer pin: HIGH exactly when switching on; no other pin changes |
| Atuadores.Placa.PiscarLED | src/atuadores.h:62-69 | appends the writes of max(n, 0) blinks; adds 2 * max(n, 0) * ms to the elapsed time; leaves the LED LOW if n > 0, the pins unchanged otherwise |
| Atuadores.Placa.AcionarAtuadores | src/atuadores.h:83-125 | appends exactly the writes of the label's command, waits exactly its blink time, and leaves the pins at the command's effect, whose logical reading is the command |

## Left out

- src/mqtt_client.h is not part of this model. It covers Wi-Fi association, the broker session, JSON payload building and publishing; all of it is network I/O and foreign libraries.
- The sketch that calls these routines, with its control loop and its 5000 ms cadence, is not part of this model. The sketch is not modelled.
- `Serial` logging in every routine is left out. It does not affect any decision.
- `pinMode` in `inicializarAtuadores` and `dht.begin()` in `inicializarSensores` are left out. They are hardware set-up with no logical effect.
- `millis()`, the DHT22 driver reads and `analogRead` are inputs of the model, not behaviour.
- IEEE floats are not modelled. Temperature and humidity are reals, and a driver value is NaN or a number (`Float`). Infinities are not modelled.
- Sensores.LerDHT22: the caller's variables are reals, so their value before the call cannot itself be NaN.
- Sensores.AnalisarQualidade: its inputs are reals. A NaN temperature or humidity, which the source would let all comparisons reject, is not covered.
- Sensores.LerMQ135: its input is limited to the 12-bit range 0..4095 that analogRead returns at the default ADC width. Arduino's `map` is an assumption, not verified code.
- Atuadores.Placa.PiscarLED: the counter `i` and `vezes` are unbounded integers. They cannot overflow here because `i < vezes` bounds `i`.
- The board's pin map starts from arbitrary levels. Pins whose level the hardware does not define before set-up are simply absent from the map.
