/** Actuator control of the node: the two relays (active-low), the status
    LED and the buzzer, driven from the state label the classifier produces.
    The board is modelled as the level of each pin, the trace of every
    digitalWrite in order, and the total time spent in delay(). */
module Atuadores {
  import opened Config
  import opened Sensores

  /** Level of a digital output pin. */
  datatype Nivel = LOW | HIGH

  /** One digitalWrite(pino, nivel). */
  datatype Escrita = Escrita(pino: int, nivel: Nivel)

  const UINT32_MODULUS: int := 0x1_0000_0000

  /** The CRITICO alert blinks the LED three times, 200 ms per half period. */
  const PISCADAS_CRITICO: Positivo := 3
  const INTERVALO_PISCA_MS: nat := 200

  // ------------------------------------------------------------------
  //  Pin levels as the replay of a write trace
  // ------------------------------------------------------------------

  /** The pins that the writes `ws` touch. */
  function Tocados(ws: seq<Escrita>): set<int>
  {
    set w | w in ws :: w.pino
  }

  /** The pin levels after performing the writes `ws`, in order, on a board
      whose pins were at `m` (lemma ReproduzirFrame says what that means). */
  function Reproduzir(m: map<int, Nivel>, ws: seq<Escrita>): map<int, Nivel>
    decreases |ws|
  {
    if ws == [] then m
    else
      var ultima := ws[|ws| - 1];
      var prefixo := ws[..|ws| - 1];
      Reproduzir(m, prefixo)[ultima.pino := ultima.nivel]
  }

  /** Replaying a trace: every written pin now has a level, the last write of
      the trace decides its pin's level, and a pin no write touches keeps its
      level. */
  lemma {:induction false} ReproduzirFrame(m: map<int, Nivel>, ws: seq<Escrita>)
    ensures Reproduzir(m, ws).Keys == m.Keys + Tocados(ws)
    ensures forall p :: p in m && p !in Tocados(ws) ==> Reproduzir(m, ws)[p] == m[p]
    ensures ws != [] ==> Reproduzir(m, ws)[ws[|ws| - 1].pino] == ws[|ws| - 1].nivel
    decreases |ws|
  {
    if ws != [] {
      var ultima := ws[|ws| - 1];
      var prefixo := ws[..|ws| - 1];
      assert ws == prefixo + [ultima];
      assert Tocados(ws) == Tocados(prefixo) + {ultima.pino};
      ReproduzirFrame(m, prefixo);
    }
  }

  /** One more write at the end of a trace updates one pin. */
  lemma ReproduzirSnoc(m: map<int, Nivel>, s: seq<Escrita>, w: Escrita)
    ensures Reproduzir(m, s + [w]) == Reproduzir(m, s)[w.pino := w.nivel]
  {
    assert (s + [w])[..|s|] == s;
  }

  /** Replaying two traces one after the other is replaying their concatenation. */
  lemma {:induction false} ReproduzirAppend(m: map<int, Nivel>, a: seq<Escrita>, b: seq<Escrita>)
    ensures Reproduzir(m, a + b) == Reproduzir(Reproduzir(m, a), b)
    decreases |b|
  {
    if b == [] {
      assert a + b == a;
    } else {
      var ultima := b[|b| - 1];
      var prefixo := b[..|b| - 1];
      assert (a + b)[..|a + b| - 1] == a + prefixo;
      ReproduzirAppend(m, a, prefixo);
    }
  }

  // ------------------------------------------------------------------
  //  Drive conventions and the LED blink pattern
  // ------------------------------------------------------------------

  /** Active-low relay drive: switching a relay on pulls its pin LOW. */
  function NivelRele(ligar: bool): (n: Nivel)
    ensures n == LOW <==> ligar
  {
    if ligar then LOW else HIGH
  }

  /** Direct drive (buzzer, LED): on is HIGH. */
  function NivelDireto(ligar: bool): (n: Nivel)
    ensures n == HIGH <==> ligar
  {
    if ligar then HIGH else LOW
  }

  /** How often `for (int i = 0; i < vezes; i++)` runs its body. */
  function Repeticoes(vezes: int): nat
  {
    if vezes < 0 then 0 else vezes
  }

  /** The writes of n blinks of the LED: HIGH then LOW, n times. */
  function PiscaEscritas(n: nat): seq<Escrita>
  {
    if n == 0 then []
    else PiscaEscritas(n - 1) + [Escrita(PINO_LED, HIGH), Escrita(PINO_LED, LOW)]
  }

  /** n blinks are 2n writes, all to the LED, alternating HIGH and LOW and
      starting with HIGH. */
  lemma {:induction false} PiscaAlterna(n: nat)
    ensures |PiscaEscritas(n)| == 2 * n
    ensures forall k :: 0 <= k < 2 * n ==>
              PiscaEscritas(n)[k] == Escrita(PINO_LED, if k % 2 == 0 then HIGH else LOW)
  {
    if n > 0 {
      PiscaAlterna(n - 1);
      var s := PiscaEscritas(n);
      forall k | 0 <= k < 2 * n
        ensures s[k] == Escrita(PINO_LED, if k % 2 == 0 then HIGH else LOW)
      {
        if k < 2 * (n - 1) {
          assert s[k] == PiscaEscritas(n - 1)[k];
        }
      }
    }
  }

  /** After n > 0 blinks the LED is LOW and no other pin changed; zero
      blinks change nothing. */
  lemma {:induction false} PiscaEfeito(m: map<int, Nivel>, n: nat)
    ensures Reproduzir(m, PiscaEscritas(n)) == if n == 0 then m else m[PINO_LED := LOW]
  {
    if n > 0 {
      var anterior := PiscaEscritas(n - 1);
      var par := [Escrita(PINO_LED, HIGH), Escrita(PINO_LED, LOW)];
      PiscaEfeito(m, n - 1);
      assert PiscaEscritas(n) == anterior + [par[0]] + [par[1]];
      ReproduzirSnoc(m, anterior, par[0]);
      ReproduzirSnoc(m, anterior + [par[0]], par[1]);
      var r := Reproduzir(m, anterior);
      assert r[PINO_LED := HIGH][PINO_LED := LOW] == r[PINO_LED := LOW];
    }
  }

  // ------------------------------------------------------------------
  //  The state-to-actuator table
  // ------------------------------------------------------------------

  /** A blink count of at least one. */
  type Positivo = n: nat | n > 0 witness 1

  /** What the LED does: off, on, or blink `vezes` (at least once) times with
      `intervaloMs` milliseconds per half period. */
  datatype LedModo = Apagado | Aceso | Pisca(vezes: Positivo, intervaloMs: nat)

  /** The logical command for the four outputs (true = on). */
  datatype Comando = Comando(rele1: bool, rele2: bool, buzzer: bool, led: LedModo)

  /** The command selected for a state label. The labels are compared as
      text, and any label that is not one of the four alert labels falls into
      the NORMAL branch. */
  function ComandoPara(estado: string): (c: Comando)
    ensures c.buzzer <==> estado == "CRITICO"
    ensures c.buzzer ==> c.rele1 && c.rele2 && c.led == Pisca(3, 200)
    ensures c.rele1 <==> estado in ["CRITICO", "ATENCAO", "CALOR"]
    ensures c.rele2 <==> estado in ["CRITICO", "SECO"]
    ensures c.led == Aceso <==> estado in ["ATENCAO", "CALOR", "SECO"]
    ensures estado !in ["CRITICO", "ATENCAO", "CALOR", "SECO"] ==>
              c == Comando(false, false, false, Apagado)
  {
    if estado == "CRITICO" then Comando(true, true, true, Pisca(PISCADAS_CRITICO, INTERVALO_PISCA_MS))
    else if estado == "ATENCAO" then Comando(true, false, false, Aceso)
    else if estado == "CALOR" then Comando(true, false, false, Aceso)
    else if estado == "SECO" then Comando(false, true, false, Aceso)
    else Comando(false, false, false, Apagado)
  }

  /** The LED writes of a LED mode. */
  function LedEscritas(l: LedModo): seq<Escrita>
  {
    match l
    case Apagado => [Escrita(PINO_LED, LOW)]
    case Aceso => [Escrita(PINO_LED, HIGH)]
    case Pisca(n, _) => PiscaEscritas(n)
  }

  /** The writes that carry out a command, in the order the source does them:
      relay 1, relay 2, buzzer, then the LED. */
  function EscritasDe(c: Comando): seq<Escrita>
  {
    [Escrita(PINO_RELE1, NivelRele(c.rele1)),
     Escrita(PINO_RELE2, NivelRele(c.rele2)),
     Escrita(PINO_BUZZER, NivelDireto(c.buzzer))] + LedEscritas(c.led)
  }

  /** The time a command spends blocked in delay(): only a blink waits,
      twice per blink. */
  function EsperaDe(c: Comando): nat
  {
    match c.led
    case Pisca(n, ms) => 2 * n * ms
    case _ => 0
  }

  /** The pin levels a command leaves, on a board that was at `m`. */
  function Aplicar(m: map<int, Nivel>, c: Comando): map<int, Nivel>
  {
    var m3 := m[PINO_RELE1 := NivelRele(c.rele1)]
               [PINO_RELE2 := NivelRele(c.rele2)]
               [PINO_BUZZER := NivelDireto(c.buzzer)];
    match c.led
    case Apagado => m3[PINO_LED := LOW]
    case Aceso => m3[PINO_LED := HIGH]
    case Pisca(_, _) => m3[PINO_LED := LOW]
  }

  /** Performing a command's writes leaves exactly the levels `Aplicar` gives. */
  lemma ReproduzirComando(m: map<int, Nivel>, c: Comando)
    ensures Reproduzir(m, EscritasDe(c)) == Aplicar(m, c)
  {
    var rs := [Escrita(PINO_RELE1, NivelRele(c.rele1)),
               Escrita(PINO_RELE2, NivelRele(c.rele2)),
               Escrita(PINO_BUZZER, NivelDireto(c.buzzer))];
    var m3 := m[PINO_RELE1 := NivelRele(c.rele1)]
               [PINO_RELE2 := NivelRele(c.rele2)]
               [PINO_BUZZER := NivelDireto(c.buzzer)];
    assert Reproduzir(m, rs) == m3 by {
      assert rs == [] + [rs[0]] + [rs[1]] + [rs[2]];
      ReproduzirSnoc(m, [], rs[0]);
      ReproduzirSnoc(m, [rs[0]], rs[1]);
      ReproduzirSnoc(m, [rs[0], rs[1]], rs[2]);
      assert [] + [rs[0]] == [rs[0]];
      assert [rs[0]] + [rs[1]] == [rs[0], rs[1]];
    }
    ReproduzirAppend(m, rs, LedEscritas(c.led));
    match c.led
    case Apagado =>
      ReproduzirSnoc(m3, [], Escrita(PINO_LED, LOW));
    case Aceso =>
      ReproduzirSnoc(m3, [], Escrita(PINO_LED, HIGH));
    case Pisca(n, _) =>
      PiscaEfeito(m3, n);
  }

  /** Three single writes followed by a trace, appended one at a time, form
      the same trace as appended at once. */
  lemma AppendTres(s: seq<Escrita>, a: Escrita, b: Escrita, c: Escrita, resto: seq<Escrita>)
    ensures s + [a] + [b] + [c] + resto == s + ([a, b, c] + resto)
  {
    assert [a] + [b] + [c] == [a, b, c];
  }

  /** The writes of the start-up routine: relays released, LED and buzzer off. */
  const INICIALIZACAO: seq<Escrita> :=
    [Escrita(PINO_RELE1, HIGH), Escrita(PINO_RELE2, HIGH),
     Escrita(PINO_LED, LOW), Escrita(PINO_BUZZER, LOW)]

  /** Replaying the start-up writes sets the four outputs to their safe levels
      and leaves every other pin alone. */
  lemma ReproduzirInicializacao(m: map<int, Nivel>)
    ensures Reproduzir(m, INICIALIZACAO)
            == m[PINO_RELE1 := HIGH][PINO_RELE2 := HIGH][PINO_LED := LOW][PINO_BUZZER := LOW]
  {
    var w := INICIALIZACAO;
    assert w == [] + [w[0]] + [w[1]] + [w[2]] + [w[3]];
    ReproduzirSnoc(m, [], w[0]);
    ReproduzirSnoc(m, [w[0]], w[1]);
    ReproduzirSnoc(m, [w[0], w[1]], w[2]);
    ReproduzirSnoc(m, [w[0], w[1], w[2]], w[3]);
    assert [] + [w[0]] == [w[0]];
    assert [w[0]] + [w[1]] == [w[0], w[1]];
    assert [w[0], w[1]] + [w[2]] == [w[0], w[1], w[2]];
  }

  /** The logical outputs read off the pins: a relay is on when its pin is
      LOW, the buzzer and the LED when theirs is HIGH. */
  datatype Saidas = Saidas(rele1: bool, rele2: bool, buzzer: bool, led: bool)

  function Logico(m: map<int, Nivel>): Saidas
  {
    Saidas(PINO_RELE1 in m && m[PINO_RELE1] == LOW,
           PINO_RELE2 in m && m[PINO_RELE2] == LOW,
           PINO_BUZZER in m && m[PINO_BUZZER] == HIGH,
           PINO_LED in m && m[PINO_LED] == HIGH)
  }

  /** The logical outputs a command promises once it has finished: a blink,
      which is always at least one, ends with the LED off. */
  function SaidasDe(c: Comando): Saidas
  {
    Saidas(c.rele1, c.rele2, c.buzzer, c.led == Aceso)
  }

  /** The table, read off the pins: whatever the board showed before, the
      pins afterwards show the logical outputs of the command for `estado`,
      and every pin other than the four outputs keeps its level. */
  lemma AcionamentoLogico(m: map<int, Nivel>, estado: string)
    ensures Logico(Aplicar(m, ComandoPara(estado))) == SaidasDe(ComandoPara(estado))
    ensures forall p :: p in m && p !in OUTPUT_PINS ==>
              p in Aplicar(m, ComandoPara(estado)) && Aplicar(m, ComandoPara(estado))[p] == m[p]
  {
  }

  /** The final levels of the four outputs depend only on the label, not on
      what the pins showed before. */
  lemma SaidaSoDoRotulo(m1: map<int, Nivel>, m2: map<int, Nivel>, estado: string)
    ensures forall p :: p in OUTPUT_PINS ==>
              p in Aplicar(m1, ComandoPara(estado)) && p in Aplicar(m2, ComandoPara(estado)) &&
              Aplicar(m1, ComandoPara(estado))[p] == Aplicar(m2, ComandoPara(estado))[p]
  {
  }

  /** Acting on the same label twice leaves the same pins as acting once. */
  lemma AcionarIdempotente(m: map<int, Nivel>, estado: string)
    ensures Aplicar(Aplicar(m, ComandoPara(estado)), ComandoPara(estado))
            == Aplicar(m, ComandoPara(estado))
  {
  }

  /** The outputs per state: relay 1, relay 2, buzzer and LED, plus the
      blocking time. */
  lemma TabelaDeEstados(m: map<int, Nivel>)
    ensures Logico(Aplicar(m, ComandoPara(Rotulo(CRITICO)))) == Saidas(true, true, true, false)
    ensures Logico(Aplicar(m, ComandoPara(Rotulo(ATENCAO)))) == Saidas(true, false, false, true)
    ensures Logico(Aplicar(m, ComandoPara(Rotulo(CALOR)))) == Saidas(true, false, false, true)
    ensures Logico(Aplicar(m, ComandoPara(Rotulo(SECO)))) == Saidas(false, true, false, true)
    ensures Logico(Aplicar(m, ComandoPara(Rotulo(NORMAL)))) == Saidas(false, false, false, false)
    ensures EsperaDe(ComandoPara(Rotulo(CRITICO))) == 1200
    ensures forall e :: e != CRITICO ==> EsperaDe(ComandoPara(Rotulo(e))) == 0
    ensures EscritasDe(ComandoPara(Rotulo(CRITICO)))[3..] == PiscaEscritas(PISCADAS_CRITICO)
  {
  }

  /** ATENCAO and CALOR drive the outputs identically. */
  lemma AtencaoComoCalor()
    ensures EscritasDe(ComandoPara(Rotulo(ATENCAO))) == EscritasDe(ComandoPara(Rotulo(CALOR)))
    ensures EsperaDe(ComandoPara(Rotulo(ATENCAO))) == EsperaDe(ComandoPara(Rotulo(CALOR)))
  {
  }

  /** A label that is none of the four alert labels (a typo, an empty string,
      "NORMAL" itself) is acted on as NORMAL: everything off, no blink, no wait. */
  lemma RotuloDesconhecido(estado: string)
    requires forall e :: e != NORMAL ==> estado != Rotulo(e)
    ensures ComandoPara(estado) == ComandoPara(Rotulo(NORMAL))
    ensures EscritasDe(ComandoPara(estado)) ==
              [Escrita(PINO_RELE1, HIGH), Escrita(PINO_RELE2, HIGH),
               Escrita(PINO_BUZZER, LOW), Escrita(PINO_LED, LOW)]
    ensures EsperaDe(ComandoPara(estado)) == 0
  {
    assert estado != Rotulo(CRITICO) && estado != Rotulo(ATENCAO);
    assert estado != Rotulo(CALOR) && estado != Rotulo(SECO);
  }

  /** Worked readings with the default thresholds, from the reading to the
      logical outputs. */
  lemma CicloScenarios(m: map<int, Nivel>)
    ensures Logico(Aplicar(m, ComandoPara(Rotulo(AnalisarQualidade(27.5, 38.2, 1120)))))
            == Saidas(true, false, false, true)
    ensures Logico(Aplicar(m, ComandoPara(Rotulo(AnalisarQualidade(25.0, 50.0, 1600)))))
            == Saidas(true, true, true, false)
    ensures ComandoPara(Rotulo(AnalisarQualidade(25.0, 50.0, 1600))).led == Pisca(3, 200)
  {
  }

  // ------------------------------------------------------------------
  //  The board: pin levels, write trace and elapsed delay
  // ------------------------------------------------------------------

  class Placa {
    /** Current level of every pin that has a level. */
    var pinos: map<int, Nivel>
    /** Every digitalWrite so far, oldest first. */
    var escritas: seq<Escrita>
    /** Total milliseconds spent in delay(). */
    var decorrido: nat

    /** A board whose pins are at `pinosIniciais`, before any write. */
    constructor (pinosIniciais: map<int, Nivel>)
      ensures pinos == pinosIniciais && escritas == [] && decorrido == 0
    {
      pinos := pinosIniciais;
      escritas := [];
      decorrido := 0;
    }

    /** digitalWrite(pino, nivel). */
    method DigitalWrite(pino: int, nivel: Nivel)
      modifies this
      ensures pinos == old(pinos)[pino := nivel]
      ensures escritas == old(escritas) + [Escrita(pino, nivel)]
      ensures decorrido == old(decorrido)
    {
      pinos := pinos[pino := nivel];
      escritas := escritas + [Escrita(pino, nivel)];
    }

    /** delay(ms): the argument is converted to `uint32_t`, as on the ESP32. */
    method Delay(ms: int)
      modifies this
      ensures decorrido == old(decorrido) + ms % UINT32_MODULUS
      ensures pinos == old(pinos) && escritas == old(escritas)
    {
      decorrido := decorrido + ms % UINT32_MODULUS;
    }

    /** Safe start-up state: both relays released (HIGH under active-low),
        LED and buzzer off. */
    method InicializarAtuadores()
      modifies this
      ensures escritas == old(escritas) + INICIALIZACAO
      ensures pinos == Reproduzir(old(pinos), INICIALIZACAO)
      ensures pinos == old(pinos)[PINO_RELE1 := HIGH][PINO_RELE2 := HIGH]
                                 [PINO_LED := LOW][PINO_BUZZER := LOW]
      ensures Logico(pinos) == Saidas(false, false, false, false)
      ensures decorrido == old(decorrido)
    {
      DigitalWrite(PINO_RELE1, HIGH);
      DigitalWrite(PINO_RELE2, HIGH);
      DigitalWrite(PINO_LED, LOW);
      DigitalWrite(PINO_BUZZER, LOW);
      ReproduzirInicializacao(old(pinos));
    }

    /** Switches a relay on or off through its active-low input. */
    method SetRele(pino: int, ligar: bool)
      modifies this
      ensures escritas == old(escritas) + [Escrita(pino, NivelRele(ligar))]
      ensures pinos == old(pinos)[pino := NivelRele(ligar)]
      ensures decorrido == old(decorrido)
    {
      DigitalWrite(pino, NivelRele(ligar));
    }

    /** Switches the buzzer on or off. */
    method SetBuzzer(ligar: bool)
      modifies this
      ensures escritas == old(escritas) + [Escrita(PINO_BUZZER, NivelDireto(ligar))]
      ensures pinos == old(pinos)[PINO_BUZZER := NivelDireto(ligar)]
      ensures decorrido == old(decorrido)
    {
      DigitalWrite(PINO_BUZZER, NivelDireto(ligar));
    }

    /** Blinks the LED `vezes` times (none when `vezes` <= 0), waiting
        `intervaloMs` after each edge; this blocks the caller. The writes it
        adds alternate HIGH and LOW on the LED (lemma PiscaAlterna) and replay
        to the final pins (lemma PiscaEfeito). */
    method PiscarLED(vezes: int, intervaloMs: int)
      modifies this
      ensures escritas == old(escritas) + PiscaEscritas(Repeticoes(vezes))
      ensures decorrido == old(decorrido) + 2 * Repeticoes(vezes) * (intervaloMs % UINT32_MODULUS)
      ensures pinos == if vezes <= 0 then old(pinos) else old(pinos)[PINO_LED := LOW]
    {
      ghost var passo := intervaloMs % UINT32_MODULUS;
      var i := 0;
      while i < vezes
        invariant 0 <= i <= Repeticoes(vezes)
        invariant escritas == old(escritas) + PiscaEscritas(i)
        invariant decorrido == old(decorrido) + 2 * i * passo
        invariant pinos == if i == 0 then old(pinos) else old(pinos)[PINO_LED := LOW]
      {
        ghost var antes := escritas;
        DigitalWrite(PINO_LED, HIGH);
        Delay(intervaloMs);
        DigitalWrite(PINO_LED, LOW);
        Delay(intervaloMs);
        assert escritas == antes + [Escrita(PINO_LED, HIGH), Escrita(PINO_LED, LOW)];
        assert 2 * (i + 1) * passo == 2 * i * passo + passo + passo;
        i := i + 1;
      }
    }

    /** Drives the four outputs for the state label `estado`. Every branch
        writes all four outputs, so the result does not depend on the
        previous pin levels; only CRITICO waits (3 blinks of 200 ms). */
    method AcionarAtuadores(estado: string)
      modifies this
      ensures escritas == old(escritas) + EscritasDe(ComandoPara(estado))
      ensures decorrido == old(decorrido) + EsperaDe(ComandoPara(estado))
      ensures pinos == Aplicar(old(pinos), ComandoPara(estado))
      ensures pinos == Reproduzir(old(pinos), EscritasDe(ComandoPara(estado)))
      ensures Logico(pinos) == SaidasDe(ComandoPara(estado))
    {
      ghost var c := ComandoPara(estado);
      if estado == "CRITICO" {
        SetRele(PINO_RELE1, true);
        SetRele(PINO_RELE2, true);
        SetBuzzer(true);
        PiscarLED(PISCADAS_CRITICO, INTERVALO_PISCA_MS);
        assert c == Comando(true, true, true, Pisca(PISCADAS_CRITICO, INTERVALO_PISCA_MS));
        AppendTres(old(escritas), Escrita(PINO_RELE1, LOW), Escrita(PINO_RELE2, LOW),
                   Escrita(PINO_BUZZER, HIGH), LedEscritas(c.led));
      } else if estado == "ATENCAO" {
        SetRele(PINO_RELE1, true);
        SetRele(PINO_RELE2, false);
        SetBuzzer(false);
        DigitalWrite(PINO_LED, HIGH);
        assert c == Comando(true, false, false, Aceso);
        AppendTres(old(escritas), Escrita(PINO_RELE1, LOW), Escrita(PINO_RELE2, HIGH),
                   Escrita(PINO_BUZZER, LOW), LedEscritas(c.led));
      } else if estado == "CALOR" {
        SetRele(PINO_RELE1, true);
        SetRele(PINO_RELE2, false);
        SetBuzzer(false);
        DigitalWrite(PINO_LED, HIGH);
        assert c == Comando(true, false, false, Aceso);
        AppendTres(old(escritas), Escrita(PINO_RELE1, LOW), Escrita(PINO_RELE2, HIGH),
                   Escrita(PINO_BUZZER, LOW), LedEscritas(c.led));
      } else if estado == "SECO" {
        SetRele(PINO_RELE1, false);
        SetRele(PINO_RELE2, true);
        SetBuzzer(false);
        DigitalWrite(PINO_LED, HIGH);
        assert c == Comando(false, true, false, Aceso);
        AppendTres(old(escritas), Escrita(PINO_RELE1, HIGH), Escrita(PINO_RELE2, LOW),
                   Escrita(PINO_BUZZER, LOW), LedEscritas(c.led));
      } else {
        SetRele(PINO_RELE1, false);
        SetRele(PINO_RELE2, false);
        SetBuzzer(false);
        DigitalWrite(PINO_LED, LOW);
        assert c == Comando(false, false, false, Apagado);
        AppendTres(old(escritas), Escrita(PINO_RELE1, HIGH), Escrita(PINO_RELE2, HIGH),
                   Escrita(PINO_BUZZER, LOW), LedEscritas(c.led));
      }
      ReproduzirComando(old(pinos), c);
      AcionamentoLogico(old(pinos), estado);
    }
  }
}
