/** The game component (JogoDigitacaoComponent): a state machine over the session
    record, the lifecycle flags, the current challenge and the pending timers.

    The transitions are first given as functions on a value, Sessao, and proved
    about there; the class JogoDigitacao then performs them step by step on its
    fields, and each of its methods is proved to leave the fields equal to the
    function of the old ones. Time is a parameter `agora` (Date.now); a timer
    callback is a method the environment calls once the callback is due. */
module Jogo {
  import opened Desafios
  import opened Placar

  /** Delay before the next challenge after a success, and after an error. */
  const PAUSA_ACERTO: nat := 500
  const PAUSA_ERRO: nat := 1000

  /** A proximoDesafio callback queued by setTimeout after a success or an error,
      with the time it is due. No handle is kept for it, so nothing cancels it. */
  datatype Pendente = ProximoAposAcerto(prazo: nat) | ProximoAposErro(prazo: nat)

  /** The component's state: estado, jogoAtivo, jogoPausado, jogoTerminado,
      desafioAtual, tempoInicio, the armed expiry (timeoutId) by its due time,
      and the untracked follow-up callbacks. */
  datatype Sessao = Sessao(
    estado: EstadoJogo,
    ativo: bool,
    pausado: bool,
    terminado: bool,
    desafio: Option<Desafio>,
    inicio: nat,
    expiracao: Option<nat>,
    agendados: multiset<Pendente>)

  /** What holds in every reachable state: the record is coherent, an armed
      expiry belongs to a running game with a challenge, a running game has a
      life left, an ended game is not running, and the challenge is well formed. */
  predicate Invariante(s: Sessao) {
    Coerente(s.estado)
    && (s.expiracao.Some? ==> s.ativo && !s.pausado && s.desafio.Some?)
    && (s.ativo ==> s.estado.vidas > 0)
    && (s.terminado ==> !s.ativo)
    && (s.desafio.Some? ==> DesafioValido(s.desafio.value))
  }

  /** The field initialisers of the component. */
  function SessaoInicial(): (s: Sessao)
    ensures Invariante(s) && !s.ativo && !s.terminado && s.desafio.None?
  {
    Sessao(EstadoInicial(), false, false, false, None, 0, None, multiset{})
  }

  /** clearTimeouts: the armed expiry is cancelled; the queued follow-ups are not. */
  function SemTimeouts(s: Sessao): (r: Sessao)
    ensures r.expiracao.None?
    ensures r.agendados == s.agendados
    ensures r.(expiracao := s.expiracao) == s
  {
    s.(expiracao := None)
  }

  /** proximoDesafio: nothing unless the game runs unpaused; then a new challenge,
      its start time, and one expiry due after the current speed. */
  function AposProximo(s: Sessao, agora: nat, sorteio: Sorteio): (r: Sessao)
    requires SorteioValido(sorteio)
    ensures !s.ativo || s.pausado ==> r == s
    ensures s.ativo && !s.pausado ==>
      r.desafio == Some(GerarDesafio(sorteio))
      && r.inicio == agora && r.expiracao == Some(agora + s.estado.velocidade)
    ensures r.estado == s.estado && r.agendados == s.agendados
    ensures r.ativo == s.ativo && r.pausado == s.pausado && r.terminado == s.terminado
  {
    if !s.ativo || s.pausado then s
    else
      SemTimeouts(s).(
        desafio := Some(GerarDesafio(sorteio)),
        inicio := agora,
        expiracao := Some(agora + s.estado.velocidade))
  }

  /** iniciarJogo: the record is reset and the challenge dropped, whatever the state
      was, the game runs and is not ended, and a first challenge is drawn unless
      the game is paused. Queued follow-ups of an earlier game stay queued. */
  function AposIniciar(s: Sessao, agora: nat, sorteio: Sorteio): (r: Sessao)
    requires SorteioValido(sorteio)
    ensures r.estado == EstadoInicial()
    ensures r.ativo && !r.terminado && r.pausado == s.pausado
    ensures s.pausado ==> r.desafio.None? && r.expiracao == s.expiracao
    ensures !s.pausado ==>
      r.desafio == Some(GerarDesafio(sorteio)) && r.inicio == agora
      && r.expiracao == Some(agora + VELOCIDADE_INICIAL)
    ensures r.agendados == s.agendados
  {
    AposProximo(s.(estado := EstadoInicial(), desafio := None, ativo := true, terminado := false), agora, sorteio)
  }

  /** pausarJogo: the pause flag flips; pausing cancels the expiry and keeps the
      challenge, unpausing draws a new challenge. */
  function AposPausar(s: Sessao, agora: nat, sorteio: Sorteio): (r: Sessao)
    requires SorteioValido(sorteio)
    ensures r.pausado == !s.pausado
    ensures r.pausado ==> r.expiracao.None? && r.desafio == s.desafio && r.inicio == s.inicio
    ensures !r.pausado && s.ativo ==>
      r.desafio == Some(GerarDesafio(sorteio)) && r.inicio == agora
      && r.expiracao == Some(agora + s.estado.velocidade)
    ensures !r.pausado && !s.ativo ==> r == s.(pausado := false)
    ensures r.estado == s.estado && r.ativo == s.ativo && r.terminado == s.terminado
    ensures r.agendados == s.agendados
  {
    var p := s.(pausado := !s.pausado);
    if p.pausado then SemTimeouts(p) else AposProximo(p, agora, sorteio)
  }

  /** The "Continuar" action of the pause notification: unpause and draw. */
  function AposContinuar(s: Sessao, agora: nat, sorteio: Sorteio): (r: Sessao)
    requires SorteioValido(sorteio)
    ensures !r.pausado
    ensures s.ativo ==>
      r.desafio == Some(GerarDesafio(sorteio)) && r.inicio == agora
      && r.expiracao == Some(agora + s.estado.velocidade)
    ensures !s.ativo ==> r == s.(pausado := false)
    ensures r.estado == s.estado && r.ativo == s.ativo && r.terminado == s.terminado
    ensures r.agendados == s.agendados
  {
    AposProximo(s.(pausado := false), agora, sorteio)
  }

  /** pararJogo: the game stops running and the expiry is cancelled. */
  function AposParar(s: Sessao): (r: Sessao)
    ensures !r.ativo && r.expiracao.None?
    ensures r.(ativo := s.ativo, expiracao := s.expiracao) == s
  {
    SemTimeouts(s.(ativo := false))
  }

  /** terminarJogo: the game stops running, is marked ended, the expiry is cancelled. */
  function AposTerminar(s: Sessao): (r: Sessao)
    ensures !r.ativo && r.terminado && r.expiracao.None?
    ensures r.(ativo := s.ativo, terminado := s.terminado, expiracao := s.expiracao) == s
  {
    SemTimeouts(s.(ativo := false, terminado := true))
  }

  /** acertouDesafio: the success is recorded with reaction time agora - inicio and
      the next challenge is queued 500 ms later. The challenge and the armed expiry
      are left as they are. */
  function AposAcerto(s: Sessao, agora: nat): (r: Sessao)
    requires s.inicio <= agora
    ensures r.estado == EstadoAposAcerto(s.estado, agora - s.inicio)
    ensures r.agendados == s.agendados + multiset{ProximoAposAcerto(agora + PAUSA_ACERTO)}
    ensures r.(estado := s.estado, agendados := s.agendados) == s
  {
    s.(estado := EstadoAposAcerto(s.estado, agora - s.inicio),
       agendados := s.agendados + multiset{ProximoAposAcerto(agora + PAUSA_ACERTO)})
  }

  /** errouDesafio: one life less; with none left the game ends, otherwise the next
      challenge is queued 1000 ms later. The challenge is left as it is. */
  function AposErro(s: Sessao, agora: nat): (r: Sessao)
    ensures r.estado == EstadoAposErro(s.estado)
    ensures r.desafio == s.desafio && r.inicio == s.inicio && r.pausado == s.pausado
    ensures s.estado.vidas <= 1 ==>
      !r.ativo && r.terminado && r.expiracao.None? && r.agendados == s.agendados
    ensures s.estado.vidas > 1 ==>
      r.ativo == s.ativo && r.terminado == s.terminado && r.expiracao == s.expiracao
      && r.agendados == s.agendados + multiset{ProximoAposErro(agora + PAUSA_ERRO)}
  {
    var e := s.(estado := EstadoAposErro(s.estado));
    if e.estado.vidas <= 0 then AposTerminar(e)
    else e.(agendados := e.agendados + multiset{ProximoAposErro(agora + PAUSA_ERRO)})
  }

  /** Whether onKeyDown looks at a key at all. */
  predicate AceitaTecla(s: Sessao) {
    s.ativo && !s.pausado && s.desafio.Some?
  }

  /** onKeyDown: ignored unless the game runs unpaused with a challenge; a letter
      or digit challenge is answered by the matching key and failed by any other;
      a click challenge ignores keys. The challenge itself is never replaced. */
  function AposTecla(s: Sessao, agora: nat, tecla: string): (r: Sessao)
    requires s.inicio <= agora
    ensures r.desafio == s.desafio
    ensures !AceitaTecla(s) || s.desafio.value.tipo == Clique ==> r == s
    ensures r.estado.desafiosCompletos == s.estado.desafiosCompletos + 1
      <==> AceitaTecla(s) && TeclaCorreta(s.desafio.value, tecla)
    ensures r.estado.vidas == s.estado.vidas - 1
      <==> AceitaTecla(s) && s.desafio.value.tipo != Clique && !TeclaCorreta(s.desafio.value, tecla)
    ensures AceitaTecla(s) && TeclaCorreta(s.desafio.value, tecla) ==> r == AposAcerto(s, agora)
    ensures AceitaTecla(s) && s.desafio.value.tipo != Clique && !TeclaCorreta(s.desafio.value, tecla)
      ==> r == AposErro(s, agora)
  {
    if !AceitaTecla(s) then s
    else if TeclaCorreta(s.desafio.value, tecla) then AposAcerto(s, agora)
    else if s.desafio.value.tipo != Clique then AposErro(s, agora)
    else s
  }

  /** Whether a click on the element with this id answers the current challenge. */
  predicate CliqueCorreto(s: Sessao, id: string) {
    s.desafio.Some? && s.desafio.value.tipo == Clique && s.desafio.value.id == id
  }

  /** onElementoClicado: a success exactly when the current challenge is a click
      challenge with this id (whether or not the game runs); otherwise nothing.
      A click never costs a life. */
  function AposClique(s: Sessao, agora: nat, id: string): (r: Sessao)
    requires s.inicio <= agora
    ensures r.estado.vidas == s.estado.vidas && r.desafio == s.desafio
    ensures CliqueCorreto(s, id) ==> r.estado.desafiosCompletos == s.estado.desafiosCompletos + 1
    ensures CliqueCorreto(s, id) ==> r == AposAcerto(s, agora)
    ensures !CliqueCorreto(s, id) ==> r == s
  {
    if CliqueCorreto(s, id) then AposAcerto(s, agora) else s
  }

  /** The expiry callback: the timer is spent, and with a challenge present it
      counts as an error. */
  function AposExpirar(s: Sessao, agora: nat): (r: Sessao)
    ensures r.expiracao.None?
    ensures r.desafio == s.desafio && r.inicio == s.inicio && r.pausado == s.pausado
    ensures s.desafio.Some? ==> r == AposErro(SemTimeouts(s), agora)
    ensures s.desafio.Some? ==> r.estado == EstadoAposErro(s.estado)
    ensures s.desafio.Some? && s.estado.vidas <= 1 ==>
      !r.ativo && r.terminado && r.agendados == s.agendados
    ensures s.desafio.Some? && s.estado.vidas > 1 ==>
      r.ativo == s.ativo && r.terminado == s.terminado && r.pausado == s.pausado
      && r.agendados == s.agendados + multiset{ProximoAposErro(agora + PAUSA_ERRO)}
    ensures s.desafio.None? ==> r == SemTimeouts(s)
  {
    var e := SemTimeouts(s);
    if e.desafio.Some? then AposErro(e, agora) else e
  }

  /** A queued follow-up fires: it leaves the queue and runs proximoDesafio, which
      only the running/paused flags gate. */
  function AposPendente(s: Sessao, p: Pendente, agora: nat, sorteio: Sorteio): (r: Sessao)
    requires p in s.agendados && SorteioValido(sorteio)
    ensures r.agendados == s.agendados - multiset{p}
    ensures !s.ativo || s.pausado ==> r == s.(agendados := s.agendados - multiset{p})
    ensures s.ativo && !s.pausado ==>
      r.desafio == Some(GerarDesafio(sorteio)) && r.inicio == agora
      && r.expiracao == Some(agora + s.estado.velocidade)
    ensures r.estado == s.estado && r.ativo == s.ativo && r.pausado == s.pausado
      && r.terminado == s.terminado
  {
    AposProximo(s.(agendados := s.agendados - multiset{p}), agora, sorteio)
  }

  // ---- The invariant is kept by every event ----

  lemma IniciarPreservaInvariante(s: Sessao, agora: nat, sorteio: Sorteio)
    requires Invariante(s) && SorteioValido(sorteio)
    ensures Invariante(AposIniciar(s, agora, sorteio))
  {
  }

  lemma PausarPreservaInvariante(s: Sessao, agora: nat, sorteio: Sorteio)
    requires Invariante(s) && SorteioValido(sorteio)
    ensures Invariante(AposPausar(s, agora, sorteio))
  {
  }

  lemma ContinuarPreservaInvariante(s: Sessao, agora: nat, sorteio: Sorteio)
    requires Invariante(s) && SorteioValido(sorteio)
    ensures Invariante(AposContinuar(s, agora, sorteio))
  {
  }

  lemma PararPreservaInvariante(s: Sessao)
    requires Invariante(s)
    ensures Invariante(AposParar(s))
  {
  }

  lemma TeclaPreservaInvariante(s: Sessao, agora: nat, tecla: string)
    requires Invariante(s) && s.inicio <= agora
    ensures Invariante(AposTecla(s, agora, tecla))
  {
  }

  lemma CliquePreservaInvariante(s: Sessao, agora: nat, id: string)
    requires Invariante(s) && s.inicio <= agora
    ensures Invariante(AposClique(s, agora, id))
  {
  }

  lemma ExpirarPreservaInvariante(s: Sessao, agora: nat)
    requires Invariante(s) && s.expiracao.Some?
    ensures Invariante(AposExpirar(s, agora))
  {
  }

  lemma PendentePreservaInvariante(s: Sessao, p: Pendente, agora: nat, sorteio: Sorteio)
    requires Invariante(s) && p in s.agendados && SorteioValido(sorteio)
    ensures Invariante(AposPendente(s, p, agora, sorteio))
  {
  }

  // ---- Properties of the machine ----

  /** From any reachable state the level counts the successes in fives, the speed
      lies in [5000, 30000], and every success left one reaction time. */
  lemma NivelEVelocidade(s: Sessao)
    requires Invariante(s)
    ensures s.estado.nivel == 1 + s.estado.desafiosCompletos / 5
    ensures VELOCIDADE_MINIMA <= s.estado.velocidade <= VELOCIDADE_INICIAL
    ensures |s.estado.tempoReacao| == s.estado.desafiosCompletos
  {
  }

  /** Stopping twice is stopping once. */
  lemma PararIdempotente(s: Sessao)
    ensures AposParar(AposParar(s)) == AposParar(s)
  {
  }

  /** An ended game accepts no key and has no expiry left to fire. */
  lemma TerminadoIgnoraTeclas(s: Sessao, agora: nat, tecla: string)
    requires Invariante(s) && s.terminado && s.inicio <= agora
    ensures AposTecla(s, agora, tecla) == s
    ensures s.expiracao.None?
  {
  }

  /** A wrong key followed by the right one: one success, one life lost, and the
      same challenge throughout. */
  lemma ErroSeguidoDeAcerto(s: Sessao, t0: nat, t1: nat, errada: string, certa: string)
    requires Invariante(s) && AceitaTecla(s) && s.estado.vidas > 1
    requires s.inicio <= t0 <= t1
    requires s.desafio.value.tipo != Clique
    requires !TeclaCorreta(s.desafio.value, errada) && TeclaCorreta(s.desafio.value, certa)
    ensures var r := AposTecla(AposTecla(s, t0, errada), t1, certa);
      r.estado.desafiosCompletos == s.estado.desafiosCompletos + 1
      && r.estado.vidas == s.estado.vidas - 1
      && r.estado.tempoReacao == s.estado.tempoReacao + [t1 - s.inicio]
      && r.desafio == s.desafio
  {
  }

  /** As written, the challenge stays answerable after a success until the next
      one is drawn: the same key pressed again within the 500 ms pause scores a
      second success. */
  lemma AcertoRepetidoNaPausa(s: Sessao, t0: nat, t1: nat, tecla: string)
    requires AceitaTecla(s) && TeclaCorreta(s.desafio.value, tecla)
    requires s.inicio <= t0 <= t1
    ensures var r := AposTecla(AposTecla(s, t0, tecla), t1, tecla);
      r.estado.desafiosCompletos == s.estado.desafiosCompletos + 2
      && r.agendados == s.agendados
           + multiset{ProximoAposAcerto(t0 + PAUSA_ACERTO), ProximoAposAcerto(t1 + PAUSA_ACERTO)}
  {
  }

  /** As written, a success does not cancel the challenge's expiry: if it falls due
      within the 500 ms pause it still costs a life. */
  lemma ExpiracaoAposAcertoCustaVida(s: Sessao, t0: nat, t1: nat, tecla: string)
    requires Invariante(s) && AceitaTecla(s) && TeclaCorreta(s.desafio.value, tecla)
    requires s.expiracao.Some? && s.inicio <= t0
    ensures var m := AposTecla(s, t0, tecla);
      m.expiracao == s.expiracao
      && AposExpirar(m, t1).estado.vidas == s.estado.vidas - 1
      && AposExpirar(m, t1).estado.desafiosCompletos == s.estado.desafiosCompletos + 1
  {
  }

  /** Nothing bounds a recorded reaction time by the speed: an expiry with lives
      left keeps the challenge answerable until the next one is drawn 1000 ms
      later, and answering it then records a time above the speed, which earns
      only the base 100 points. */
  lemma AcertoAposExpiracaoExcedeVelocidade(s: Sessao, t: nat, tecla: string)
    requires Invariante(s) && AceitaTecla(s) && TeclaCorreta(s.desafio.value, tecla)
    requires s.estado.vidas > 1 && s.expiracao.Some? && s.expiracao.value <= t
    requires t > s.inicio + s.estado.velocidade
    ensures var r := AposTecla(AposExpirar(s, t), t, tecla);
      r.estado.tempoReacao == s.estado.tempoReacao + [t - s.inicio]
      && r.estado.pontuacao == s.estado.pontuacao + 100
      && r.estado.vidas == s.estado.vidas - 1
  {
  }

  /** As written, clearTimeouts does not cancel queued follow-ups: one left over
      from an earlier game, firing after a restart, replaces the new game's first
      challenge and restarts its clock. */
  lemma PendenteAntigoSubstituiDesafio(s: Sessao, p: Pendente, t0: nat, t1: nat, r0: Sorteio, r1: Sorteio)
    requires p in s.agendados && !s.pausado && SorteioValido(r0) && SorteioValido(r1)
    ensures var n := AposIniciar(AposParar(s), t0, r0);
      n.desafio == Some(GerarDesafio(r0)) && p in n.agendados
      && AposPendente(n, p, t1, r1).desafio == Some(GerarDesafio(r1))
      && AposPendente(n, p, t1, r1).inicio == t1
  {
  }

  /** Five quick successes from a fresh start reach level 2 at 29500 ms. */
  lemma CincoAcertos(t1: nat, t2: nat, t3: nat, t4: nat, t5: nat)
    ensures var e := EstadoAposAcerto(EstadoAposAcerto(EstadoAposAcerto(EstadoAposAcerto(
              EstadoAposAcerto(EstadoInicial(), t1), t2), t3), t4), t5);
      e.nivel == 2 && e.velocidade == 29500 && e.desafiosCompletos == 5
      && e.tempoReacao == [t1, t2, t3, t4, t5] && e.vidas == 3
  {
  }

  /** The component. Fields as in the source; `expiracao` stands for timeoutId. */
  class JogoDigitacao {
    var estado: EstadoJogo
    var jogoAtivo: bool
    var jogoPausado: bool
    var jogoTerminado: bool
    var desafioAtual: Option<Desafio>
    var tempoInicio: nat
    /** timeoutId: the armed expiry callback, by the time it is due; None once
        it is cleared or has fired. */
    var expiracao: Option<nat>
    /** The proximoDesafio callbacks queued by setTimeout without a handle. */
    ghost var agendados: multiset<Pendente>
    /** The time of the last event delivered (Date.now never goes back). */
    ghost var relogio: nat

    ghost function Atual(): Sessao
      reads this
    {
      Sessao(estado, jogoAtivo, jogoPausado, jogoTerminado, desafioAtual, tempoInicio, expiracao, agendados)
    }

    ghost predicate Valid()
      reads this
    {
      Invariante(Atual()) && tempoInicio <= relogio
    }

    constructor ()
      ensures Valid() && Atual() == SessaoInicial() && relogio == 0
    {
      estado := EstadoInicial();
      jogoAtivo, jogoPausado, jogoTerminado := false, false, false;
      desafioAtual := None;
      tempoInicio := 0;
      expiracao := None;
      agendados := multiset{};
      relogio := 0;
    }

    // ---- Events delivered from outside ----

    /** iniciarJogo (also the "Começar!" and "Jogar Novamente" actions). */
    method IniciarJogo(agora: nat, sorteio: Sorteio)
      requires Valid() && relogio <= agora && SorteioValido(sorteio)
      modifies this
      ensures Valid() && relogio == agora
      ensures Atual() == AposIniciar(old(Atual()), agora, sorteio)
    {
      IniciarPreservaInvariante(Atual(), agora, sorteio);
      relogio := agora;
      ResetarEstado();
      jogoAtivo := true;
      jogoTerminado := false;
      ProximoDesafio(agora, sorteio);
    }

    method PausarJogo(agora: nat, sorteio: Sorteio)
      requires Valid() && relogio <= agora && SorteioValido(sorteio)
      modifies this
      ensures Valid() && relogio == agora
      ensures Atual() == AposPausar(old(Atual()), agora, sorteio)
    {
      PausarPreservaInvariante(Atual(), agora, sorteio);
      relogio := agora;
      jogoPausado := !jogoPausado;
      if jogoPausado {
        ClearTimeouts();
      } else {
        ProximoDesafio(agora, sorteio);
      }
    }

    /** The "Continuar" action of the pause notification. */
    method ContinuarJogo(agora: nat, sorteio: Sorteio)
      requires Valid() && relogio <= agora && SorteioValido(sorteio)
      modifies this
      ensures Valid() && relogio == agora
      ensures Atual() == AposContinuar(old(Atual()), agora, sorteio)
    {
      ContinuarPreservaInvariante(Atual(), agora, sorteio);
      relogio := agora;
      jogoPausado := false;
      ProximoDesafio(agora, sorteio);
    }

    /** pararJogo (also what ngOnDestroy and voltarMenu do). */
    method PararJogo()
      requires Valid()
      modifies this
      ensures Valid() && relogio == old(relogio)
      ensures Atual() == AposParar(old(Atual()))
    {
      PararPreservaInvariante(Atual());
      jogoAtivo := false;
      ClearTimeouts();
    }

    method OnKeyDown(agora: nat, tecla: string)
      requires Valid() && relogio <= agora
      modifies this
      ensures Valid() && relogio == agora
      ensures Atual() == AposTecla(old(Atual()), agora, tecla)
    {
      TeclaPreservaInvariante(Atual(), agora, tecla);
      relogio := agora;
      if !jogoAtivo || jogoPausado || desafioAtual.None? {
        return;
      }
      var maiusculas := Maiusculas(tecla);
      if desafioAtual.value.tipo != Clique && maiusculas == desafioAtual.value.valor {
        AcertouDesafio(agora);
      } else if desafioAtual.value.tipo != Clique {
        ErrouDesafio(agora);
      }
    }

    method OnElementoClicado(agora: nat, id: string)
      requires Valid() && relogio <= agora
      modifies this
      ensures Valid() && relogio == agora
      ensures Atual() == AposClique(old(Atual()), agora, id)
    {
      CliquePreservaInvariante(Atual(), agora, id);
      relogio := agora;
      if desafioAtual.Some? && desafioAtual.value.tipo == Clique && desafioAtual.value.id == id {
        AcertouDesafio(agora);
      }
    }

    /** The callback proximoDesafio arms, delivered once it is due. */
    method AoExpirarDesafio(agora: nat)
      requires Valid() && relogio <= agora
      requires expiracao.Some? && expiracao.value <= agora
      modifies this
      ensures Valid() && relogio == agora
      ensures Atual() == AposExpirar(old(Atual()), agora)
    {
      ExpirarPreservaInvariante(Atual(), agora);
      relogio := agora;
      expiracao := None;
      if desafioAtual.Some? {
        ErrouDesafio(agora);
      }
    }

    /** The 500 ms follow-up acertouDesafio queues, delivered once it is due. */
    method AoFimPausaAcerto(agora: nat, p: Pendente, sorteio: Sorteio)
      requires Valid() && relogio <= agora && SorteioValido(sorteio)
      requires p in agendados && p.ProximoAposAcerto? && p.prazo <= agora
      modifies this
      ensures Valid() && relogio == agora
      ensures Atual() == AposPendente(old(Atual()), p, agora, sorteio)
    {
      PendentePreservaInvariante(Atual(), p, agora, sorteio);
      relogio := agora;
      agendados := agendados - multiset{p};
      ProximoDesafio(agora, sorteio);
    }

    /** The 1000 ms follow-up errouDesafio queues, delivered once it is due. */
    method AoFimPausaErro(agora: nat, p: Pendente, sorteio: Sorteio)
      requires Valid() && relogio <= agora && SorteioValido(sorteio)
      requires p in agendados && p.ProximoAposErro? && p.prazo <= agora
      modifies this
      ensures Valid() && relogio == agora
      ensures Atual() == AposPendente(old(Atual()), p, agora, sorteio)
    {
      PendentePreservaInvariante(Atual(), p, agora, sorteio);
      relogio := agora;
      agendados := agendados - multiset{p};
      ProximoDesafio(agora, sorteio);
    }

    // ---- The component's private steps ----

    method ResetarEstado()
      modifies this`estado, this`desafioAtual
      ensures Atual() == old(Atual()).(estado := EstadoInicial(), desafio := None)
    {
      estado := EstadoJogo(0, 1, VELOCIDADE_INICIAL, 0, VIDAS_INICIAIS, []);
      desafioAtual := None;
    }

    method ProximoDesafio(agora: nat, sorteio: Sorteio)
      requires SorteioValido(sorteio)
      modifies this`desafioAtual, this`tempoInicio, this`expiracao
      ensures Atual() == AposProximo(old(Atual()), agora, sorteio)
    {
      if !jogoAtivo || jogoPausado {
        return;
      }
      ClearTimeouts();
      desafioAtual := Some(GerarDesafio(sorteio));
      tempoInicio := agora;
      expiracao := Some(agora + estado.velocidade);
    }

    method AcertouDesafio(agora: nat)
      requires tempoInicio <= agora
      modifies this`estado, this`agendados
      ensures Atual() == AposAcerto(old(Atual()), agora)
    {
      var tempoReacao := agora - tempoInicio;
      estado := estado.(tempoReacao := estado.tempoReacao + [tempoReacao]);
      var pontos := Pontos(estado.velocidade, tempoReacao);
      estado := estado.(pontuacao := estado.pontuacao + pontos);
      estado := estado.(desafiosCompletos := estado.desafiosCompletos + 1);
      if estado.desafiosCompletos % DESAFIOS_POR_NIVEL == 0 {
        SubirNivel();
      }
      agendados := agendados + multiset{ProximoAposAcerto(agora + PAUSA_ACERTO)};
    }

    method ErrouDesafio(agora: nat)
      modifies this`estado, this`agendados, this`jogoAtivo, this`jogoTerminado, this`expiracao
      ensures Atual() == AposErro(old(Atual()), agora)
    {
      estado := estado.(vidas := estado.vidas - 1);
      if estado.vidas <= 0 {
        var _, _ := TerminarJogo();
      } else {
        agendados := agendados + multiset{ProximoAposErro(agora + PAUSA_ERRO)};
      }
    }

    method SubirNivel()
      modifies this`estado
      ensures Atual() == old(Atual()).(estado := EstadoAposSubida(old(estado)))
    {
      estado := estado.(nivel := estado.nivel + 1);
      estado := estado.(velocidade := ReduzirVelocidade(estado.velocidade));
    }

    /** terminarJogo; also returns the final score and the mean reaction time the
        end-of-game notification shows. */
    method TerminarJogo() returns (pontuacaoFinal: nat, tempoMedio: nat)
      modifies this`jogoAtivo, this`jogoTerminado, this`expiracao
      ensures Atual() == AposTerminar(old(Atual()))
      ensures pontuacaoFinal == estado.pontuacao
      ensures tempoMedio == TempoMedioReacao(estado.tempoReacao)
    {
      jogoAtivo := false;
      jogoTerminado := true;
      ClearTimeouts();
      pontuacaoFinal := estado.pontuacao;
      tempoMedio := TempoMedioReacao(estado.tempoReacao);
    }

    method ClearTimeouts()
      modifies this`expiracao
      ensures Atual() == SemTimeouts(old(Atual()))
    {
      if expiracao.Some? {
        expiracao := None;
      }
    }
  }
}
