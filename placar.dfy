/** The session record of the typing game (EstadoJogo) and the arithmetic the
    component does on it: points per success, level-up, level progress and the
    rounded mean reaction time. */
module Placar {

  const VELOCIDADE_INICIAL: nat := 30000
  const VELOCIDADE_MINIMA: nat := 5000
  const REDUCAO_VELOCIDADE: nat := 500
  const VIDAS_INICIAIS: int := 3
  /** A level-up happens on every fifth completed challenge. */
  const DESAFIOS_POR_NIVEL: nat := 5

  /** EstadoJogo: score, level, the time allowed per challenge (ms), completed
      challenges, lives left and the reaction time (ms) of every success. */
  datatype EstadoJogo = EstadoJogo(
    pontuacao: nat,
    nivel: nat,
    velocidade: nat,
    desafiosCompletos: nat,
    vidas: int,
    tempoReacao: seq<nat>)

  /** The record resetarEstado installs (and the field initialiser). */
  function EstadoInicial(): (e: EstadoJogo)
    ensures Coerente(e) && e.vidas == VIDAS_INICIAIS && e.tempoReacao == []
  {
    EstadoJogo(0, 1, VELOCIDADE_INICIAL, 0, VIDAS_INICIAIS, [])
  }

  /** Math.round on a non-negative value: the nearest integer, halves rounded up. */
  function Arredondar(x: real): int {
    (x + 0.5).Floor
  }

  /** Math.max(0, velocidade - tempoReacao). */
  function Bonus(velocidade: int, tempoReacao: int): nat {
    if velocidade > tempoReacao then velocidade - tempoReacao else 0
  }

  /** Points for one success: Math.round(100 + bonus / 10), computed in integers. */
  function Pontos(velocidade: int, tempoReacao: int): (p: nat)
    ensures p == Arredondar(100.0 + Bonus(velocidade, tempoReacao) as real / 10.0)
    ensures 100 <= p <= 100 + (Bonus(velocidade, tempoReacao) + 5) / 10
  {
    var b := Bonus(velocidade, tempoReacao);
    ArredondarQuociente(1000 + b, 10);
    assert (1000 + b) as real / 10.0 == 100.0 + b as real / 10.0;
    assert (2 * (1000 + b) + 10) / 20 == 100 + (b + 5) / 10;
    100 + (b + 5) / 10
  }

  /** Math.round(a / n) for non-negative integers equals (2a + n) / (2n). */
  lemma ArredondarQuociente(a: nat, n: nat)
    requires n > 0
    ensures Arredondar(a as real / n as real) == (2 * a + n) / (2 * n)
  {
    var d := 2 * n;
    var q := (2 * a + n) / d;
    assert q * d <= 2 * a + n < (q + 1) * d;
    var x := a as real / n as real + 0.5;
    assert x * d as real == (2 * a + n) as real by {
      assert (a as real / n as real) * n as real == a as real;
    }
    PisoPorProduto(x, q, d as real);
  }

  /** x lies in [q, q + 1) when x * m does in [q * m, (q + 1) * m), for m > 0. */
  lemma PisoPorProduto(x: real, q: int, m: real)
    requires m > 0.0 && q as real * m <= x * m < (q + 1) as real * m
    ensures x.Floor == q
  {
  }

  /** 30000 ms allowed and a 5000 ms answer score 2600 points. */
  lemma PontosExemplo()
    ensures Pontos(30000, 5000) == 2600
  {
  }

  /** subirNivel's speed rule: Math.max(5000, velocidade - 500). */
  function ReduzirVelocidade(v: nat): (r: nat)
    ensures r >= VELOCIDADE_MINIMA
    ensures v >= VELOCIDADE_MINIMA + REDUCAO_VELOCIDADE ==> r == v - REDUCAO_VELOCIDADE
    ensures v < VELOCIDADE_MINIMA + REDUCAO_VELOCIDADE ==> r == VELOCIDADE_MINIMA
  {
    if v - REDUCAO_VELOCIDADE > VELOCIDADE_MINIMA then v - REDUCAO_VELOCIDADE else VELOCIDADE_MINIMA
  }

  /** The speed the level rule gives at a level, starting from 30000 at level 1. */
  function VelocidadeDoNivel(nivel: nat): (v: nat)
    requires nivel >= 1
    ensures VELOCIDADE_MINIMA <= v <= VELOCIDADE_INICIAL
  {
    if nivel == 1 then VELOCIDADE_INICIAL else ReduzirVelocidade(VelocidadeDoNivel(nivel - 1))
  }

  /** The speed at a level in closed form. */
  lemma {:induction false} VelocidadeDoNivelFechada(nivel: nat)
    requires nivel >= 1
    ensures VelocidadeDoNivel(nivel) ==
      if 30000 - 500 * (nivel - 1) > 5000 then 30000 - 500 * (nivel - 1) else 5000
  {
    if nivel > 1 {
      VelocidadeDoNivelFechada(nivel - 1);
    }
  }

  /** The relations a session record keeps from a fresh start: the level counts
      the completed challenges in fives, the speed is the level's, one reaction
      time per success, at least 100 points per success, at most 3 lives. */
  predicate Coerente(e: EstadoJogo) {
    e.nivel == 1 + e.desafiosCompletos / DESAFIOS_POR_NIVEL
    && e.velocidade == VelocidadeDoNivel(e.nivel)
    && |e.tempoReacao| == e.desafiosCompletos
    && e.pontuacao >= 100 * e.desafiosCompletos
    && 0 <= e.vidas <= VIDAS_INICIAIS
  }

  /** subirNivel on the record. */
  function EstadoAposSubida(e: EstadoJogo): (r: EstadoJogo)
    ensures r.nivel == e.nivel + 1
    ensures r.velocidade == ReduzirVelocidade(e.velocidade)
    ensures r.(nivel := e.nivel, velocidade := e.velocidade) == e
  {
    e.(nivel := e.nivel + 1, velocidade := ReduzirVelocidade(e.velocidade))
  }

  /** acertouDesafio on the record: the reaction time is appended, the points
      (computed with the speed before any level-up) are added, the count grows by
      one, and a level-up follows on every fifth success. */
  function EstadoAposAcerto(e: EstadoJogo, tempoReacao: nat): (r: EstadoJogo)
    ensures r.tempoReacao == e.tempoReacao + [tempoReacao]
    ensures r.desafiosCompletos == e.desafiosCompletos + 1
    ensures r.pontuacao == e.pontuacao + Pontos(e.velocidade, tempoReacao)
    ensures r.pontuacao >= e.pontuacao + 100
    ensures r.vidas == e.vidas
    ensures r.nivel == (if r.desafiosCompletos % DESAFIOS_POR_NIVEL == 0 then e.nivel + 1 else e.nivel)
    ensures e.velocidade >= VELOCIDADE_MINIMA ==> VELOCIDADE_MINIMA <= r.velocidade <= e.velocidade
  {
    var e1 := e.(
      tempoReacao := e.tempoReacao + [tempoReacao],
      pontuacao := e.pontuacao + Pontos(e.velocidade, tempoReacao),
      desafiosCompletos := e.desafiosCompletos + 1);
    if e1.desafiosCompletos % DESAFIOS_POR_NIVEL == 0 then EstadoAposSubida(e1) else e1
  }

  /** errouDesafio on the record: one life less, nothing else changes. */
  function EstadoAposErro(e: EstadoJogo): (r: EstadoJogo)
    ensures r.vidas == e.vidas - 1
    ensures r.(vidas := e.vidas) == e
  {
    e.(vidas := e.vidas - 1)
  }

  /** A success keeps the record coherent. */
  lemma AcertoPreservaCoerencia(e: EstadoJogo, tempoReacao: nat)
    requires Coerente(e)
    ensures Coerente(EstadoAposAcerto(e, tempoReacao))
  {
  }

  /** An error keeps the record coherent while a life is left to lose. */
  lemma ErroPreservaCoerencia(e: EstadoJogo)
    requires Coerente(e) && e.vidas > 0
    ensures Coerente(EstadoAposErro(e))
  {
  }

  /** The level progress bar: (desafiosCompletos % 5) * 20. */
  function ProgressoNivel(e: EstadoJogo): (p: nat)
    ensures p in {0, 20, 40, 60, 80}
    ensures p == 0 <==> e.desafiosCompletos % DESAFIOS_POR_NIVEL == 0
  {
    (e.desafiosCompletos % DESAFIOS_POR_NIVEL) * 20
  }

  /** The reduce((a, b) => a + b, 0) of the reaction times. */
  function Soma(ts: seq<nat>): nat {
    if ts == [] then 0 else Soma(ts[..|ts| - 1]) + ts[|ts| - 1]
  }

  /** tempoMedioReacao: Math.round(sum / length), or 0 with no reaction time. */
  function TempoMedioReacao(ts: seq<nat>): (m: nat)
    ensures ts == [] ==> m == 0
    ensures ts != [] ==> m == Arredondar(Soma(ts) as real / |ts| as real)
  {
    if ts == [] then 0
    else
      ArredondarQuociente(Soma(ts), |ts|);
      (2 * Soma(ts) + |ts|) / (2 * |ts|)
  }

  function Minimo(ts: seq<nat>): (m: nat)
    requires ts != []
    ensures m in ts && forall i :: 0 <= i < |ts| ==> m <= ts[i]
  {
    if |ts| == 1 then ts[0]
    else
      var m := Minimo(ts[1..]);
      assert forall i :: 1 <= i < |ts| ==> ts[i] == ts[1..][i - 1];
      if ts[0] <= m then ts[0] else m
  }

  function Maximo(ts: seq<nat>): (m: nat)
    requires ts != []
    ensures m in ts && forall i :: 0 <= i < |ts| ==> ts[i] <= m
  {
    if |ts| == 1 then ts[0]
    else
      var m := Maximo(ts[1..]);
      assert forall i :: 1 <= i < |ts| ==> ts[i] == ts[1..][i - 1];
      if ts[0] >= m then ts[0] else m
  }

  lemma {:induction false} SomaEntre(ts: seq<nat>, lo: nat, hi: nat)
    requires forall i :: 0 <= i < |ts| ==> lo <= ts[i] <= hi
    ensures lo * |ts| <= Soma(ts) <= hi * |ts|
  {
    if ts != [] {
      var n := |ts| - 1;
      SomaEntre(ts[..n], lo, hi);
      assert lo * |ts| == lo * n + lo;
      assert hi * |ts| == hi * n + hi;
    }
  }

  lemma MenorPorFator(x: int, y: int, d: int)
    requires d > 0 && x * d < y * d
    ensures x < y
  {
  }

  lemma DivisaoMonotona(a: int, b: int, d: int)
    requires 0 <= a <= b && d > 0
    ensures a / d <= b / d
  {
    assert (a / d) * d <= a && b < (b / d + 1) * d;
    MenorPorFator(a / d, b / d + 1, d);
  }

  lemma DivisaoExata(q: int, r: int, d: int)
    requires d > 0 && 0 <= r < d
    ensures (q * d + r) / d == q
  {
    var x := q * d + r;
    assert (x / d) * d <= x < (x / d + 1) * d;
    MenorPorFator(q, x / d + 1, d);
    MenorPorFator(x / d, q + 1, d);
  }

  /** The rounded quotient (2s + n) / (2n) stays within [lo, hi] when s does
      within [lo * n, hi * n]. */
  lemma QuocienteEntre(s: nat, n: nat, lo: nat, hi: nat)
    requires n > 0 && lo * n <= s <= hi * n
    ensures lo <= (2 * s + n) / (2 * n) <= hi
  {
    var d := 2 * n;
    assert 2 * (lo * n) + n == lo * d + n;
    DivisaoExata(lo, n, d);
    DivisaoMonotona(lo * d + n, 2 * s + n, d);
    assert 2 * (hi * n) + n == hi * d + n;
    DivisaoExata(hi, n, d);
    DivisaoMonotona(2 * s + n, hi * d + n, d);
  }

  /** The mean lies between the smallest and the largest recorded time. */
  lemma TempoMedioEntreMinimoEMaximo(ts: seq<nat>)
    requires ts != []
    ensures Minimo(ts) <= TempoMedioReacao(ts) <= Maximo(ts)
  {
    SomaEntre(ts, Minimo(ts), Maximo(ts));
    QuocienteEntre(Soma(ts), |ts|, Minimo(ts), Maximo(ts));
  }
}
