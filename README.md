# Typing and click reaction game — a Dafny model

This project models the game engine of `JogoDigitacaoComponent`, the typing and
click reaction minigame of the jogos-eja application. The game shows one
challenge at a time. A challenge is a letter to type, a digit to type, or a
target to click. The player has `velocidade` milliseconds to answer each one.
A success scores `round(100 + max(0, velocidade - reactionTime) / 10)` points.
Every fifth success raises the level and shortens the time allowed by 500 ms,
down to 5000 ms. A wrong key or an expired challenge costs one of three lives.
With no life left the game ends.

Three modules, one per part of the component:

- `Desafios` (`desafios.dfy`) holds the challenge type and the generator
  `gerarDesafio`/`gerarPosicaoAleatoria`. The values of `Math.random` are
  passed in as a `Sorteio` of reals in [0, 1). It also models the key test of
  `onKeyDown`, which is `toUpperCase` followed by an equality check.
- `Placar` (`placar.dfy`) holds the session record `EstadoJogo` and its
  arithmetic: points, the speed rule, level progress and the mean reaction
  time. `Math.round` is written as `floor(x + 1/2)` over the reals. The
  lemmas prove that the integer formulas the model computes with equal it.
- `Jogo` (`jogo.dfy`) holds the component as a state machine. Each event is
  first a function on a state value, `Sessao`, and the lemmas are proved
  about these functions. The class `JogoDigitacao` keeps the component's
  fields and performs the same steps as the source, one field at a time.
  Each of its event methods ensures `Atual() == AposX(old(Atual()), …)`. Its
  `Valid()` is the invariant the lemmas show every event keeps.

Time and timers:
- The current time (`Date.now`) is a parameter `agora`. A ghost field
  `relogio` keeps it from going back.
- The armed expiry (`timeoutId`) is the field `expiracao`, which holds the
  expiry's due time.
- The two `setTimeout(() => this.proximoDesafio(), …)` follow-ups keep no
  handle. They are a ghost multiset `agendados` of `Pendente` values.
- Each timer callback is an event method the environment may call once the
  callback is due: `AoExpirarDesafio`, `AoFimPausaAcerto` (500 ms) and
  `AoFimPausaErro` (1000 ms).

The model follows the code as written, including these behaviours:
- A success leaves the challenge in place, so it can be answered again during
  the 500 ms pause (`AcertoRepetidoNaPausa`).
- A success also leaves the expiry armed (`ExpiracaoAposAcertoCustaVida`).
- `clearTimeouts` does not cancel the queued follow-ups. A follow-up left from
  an earlier game can replace the first challenge of a new one
  (`PendenteAntigoSubstituiDesafio`).
- Unpausing draws a new challenge.
- A click is accepted whether or not the game is running.

Further facts of the code that the model keeps:
- The speed drops by `REDUCAO_VELOCIDADE` = 500 ms per level, down to
  5000 ms. After five successes the speed is 29500 ms (`CincoAcertos`).
- A wrong key costs a life and queues a new challenge after 1000 ms.
- An expiry costs a life exactly like a wrong key; it ends the game only when
  that was the last life (`AposExpirar`).
- Nothing bounds a recorded reaction time by the speed. After an expiry with
  lives left, the challenge stays answerable until the next one is drawn, and
  answering it records a time above the speed for the base 100 points
  (`AcertoAposExpiracaoExcedeVelocidade`).

## Model

| member | source | states |
|---|---|---|
| `Desafios.Indice` | src/app/jogos/jogo-digitacao/jogo-digitacao.ts:168 | `Math.floor(Math.random() * n)` is a valid index into a list of `n` entries |
| `Desafios.GerarPosicaoAleatoria` | src/app/jogos/jogo-digitacao/jogo-digitacao.ts:198-203 | a target position lies in [15, 85) × [20, 80) percent |
| `Desafios.PosicaoSorteavel` | src/app/jogos/jogo-digitacao/jogo-digitacao.ts:198-203 | every position of that area is produced by some pair of draws (the inverse of the generator) |
| `Desafios.GerarDesafio` | src/app/jogos/jogo-digitacao/jogo-digitacao.ts:166-196 | a letter challenge's value is one character in A–Z, a digit challenge's one in 0–9, both without position; a click challenge shows the target symbol at a position in the area; the kind is `tipos[floor(r * 3)]` and the id is the drawn token |
| `Desafios.GerarDesafioCobreLetras` | src/app/jogos/jogo-digitacao/jogo-digitacao.ts:171-176 | every letter A–Z can be drawn as a letter challenge |
| `Desafios.GerarDesafioCobreNumeros` | src/app/jogos/jogo-digitacao/jogo-digitacao.ts:178-183 | every digit 0–9 can be drawn as a digit challenge |
| `Desafios.GerarDesafioCobreAlvos` | src/app/jogos/jogo-digitacao/jogo-digitacao.ts:185-191 | every position of the area can be drawn as a click challenge |
| `Desafios.Maiusculas` | src/app/jogos/jogo-digitacao/jogo-digitacao.ts:85 | an upper-cased key name holds no lower-case letter a–z |
| `Desafios.MaiusculasMantemMaiusculasEDigitos` | src/app/jogos/jogo-digitacao/jogo-digitacao.ts:85 | upper-casing keeps the length, leaves A–Z and 0–9 where they are, and is idempotent |
| `Desafios.TeclaCorretaLetra` | src/app/jogos/jogo-digitacao/jogo-digitacao.ts:85-87 | a letter challenge is answered exactly by the letter, its lower-case form, or (for I and S) the dotless i and the long s |
| `Desafios.TeclaCorretaNumero` | src/app/jogos/jogo-digitacao/jogo-digitacao.ts:85-87 | a digit challenge is answered exactly by that digit's key |
| `Placar.EstadoInicial` | src/app/jogos/jogo-digitacao/jogo-digitacao.ts:139-147 | the reset record (score 0, level 1, 30000 ms, 0 completed, 3 lives, no times) is coherent |
| `Placar.Pontos` | src/app/jogos/jogo-digitacao/jogo-digitacao.ts:214-215 | the integer points equal `Math.round(100 + max(0, velocidade - tempoReacao) / 10)` and lie between 100 and 100 + (bonus + 5) / 10 |
| `Placar.ArredondarQuociente` | src/app/jogos/jogo-digitacao/jogo-digitacao.ts:305 | `Math.round(a / n)` for non-negative integers equals `(2a + n) / (2n)` |
| `Placar.PontosExemplo` | src/app/jogos/jogo-digitacao/jogo-digitacao.ts:214-215 | 30000 ms allowed and a 5000 ms answer give 2600 points |
| `Placar.ReduzirVelocidade` | src/app/jogos/jogo-digitacao/jogo-digitacao.ts:243-246 | the new speed is at least 5000, never above the old one (from 5000 up), exactly 500 less while that stays at or above 5000, and exactly 5000 otherwise |
| `Placar.VelocidadeDoNivel` | src/app/jogos/jogo-digitacao/jogo-digitacao.ts:241-246 | the speed a level reaches from 30000 stays within [5000, 30000] |
| `Placar.VelocidadeDoNivelFechada` | src/app/jogos/jogo-digitacao/jogo-digitacao.ts:241-246 | that speed is max(5000, 30000 − 500 · (level − 1)) |
| `Placar.EstadoAposSubida` | src/app/jogos/jogo-digitacao/jogo-digitacao.ts:241-246 | a level-up adds one level, sets the speed to the reduced speed (500 less, floored at 5000), and changes nothing else |
| `Placar.EstadoAposAcerto` | src/app/jogos/jogo-digitacao/jogo-digitacao.ts:209-225 | a success appends exactly its reaction time, counts one more challenge, adds the points (at least 100), keeps the lives, levels up exactly when the new count is a multiple of 5, and never raises the speed |
| `Placar.EstadoAposErro` | src/app/jogos/jogo-digitacao/jogo-digitacao.ts:231 | an error takes one life and changes nothing else in the record |
| `Placar.AcertoPreservaCoerencia` | src/app/jogos/jogo-digitacao/jogo-digitacao.ts:209-225 | after a success the level is still 1 + completed / 5, the speed the level's, one time per success, 100 points per success |
| `Placar.ErroPreservaCoerencia` | src/app/jogos/jogo-digitacao/jogo-digitacao.ts:230-231 | an error with a life left keeps the record coherent |
| `Placar.ProgressoNivel` | src/app/jogos/jogo-digitacao/jogo-digitacao.ts:299-301 | the level progress is one of 0, 20, 40, 60, 80, and 0 exactly at a multiple of 5 |
| `Placar.TempoMedioReacao` | src/app/jogos/jogo-digitacao/jogo-digitacao.ts:303-307 | the mean is 0 with no time recorded, otherwise `Math.round(sum / length)` |
| `Placar.TempoMedioEntreMinimoEMaximo` | src/app/jogos/jogo-digitacao/jogo-digitacao.ts:303-307 | the rounded mean lies between the smallest and the largest recorded time |
| `Jogo.SessaoInicial` | src/app/jogos/jogo-digitacao/jogo-digitacao.ts:44-60 | the field initialisers satisfy the invariant: not running, not ended, no challenge |
| `Jogo.SemTimeouts` | src/app/jogos/jogo-digitacao/jogo-digitacao.ts:280-289 | clearing cancels the armed expiry, leaves the queued follow-ups, and changes nothing else |
| `Jogo.AposProximo` | src/app/jogos/jogo-digitacao/jogo-digitacao.ts:151-164 | nothing happens unless the game runs unpaused; then a well-formed new challenge, its start time `agora`, and one expiry due `velocidade` later; record and flags untouched |
| `Jogo.AposIniciar` | src/app/jogos/jogo-digitacao/jogo-digitacao.ts:107-112 | whatever the state, the record is reset, the game runs and is not ended, and a first challenge with a 30000 ms expiry is drawn unless paused |
| `Jogo.AposPausar` | src/app/jogos/jogo-digitacao/jogo-digitacao.ts:114-127 | the pause flag flips; pausing cancels the expiry and keeps the challenge; unpausing a running game draws a new challenge at `agora` and arms its expiry at `agora + velocidade`; unpausing a stopped game only clears the flag |
| `Jogo.AposContinuar` | src/app/jogos/jogo-digitacao/jogo-digitacao.ts:119-123 | the "Continuar" action unpauses and keeps the record and the running and ended flags; in a running game it draws a new challenge at `agora` and arms its expiry at `agora + velocidade`; in a stopped game it only clears the flag |
| `Jogo.AposParar` | src/app/jogos/jogo-digitacao/jogo-digitacao.ts:129-132 | stopping clears the running flag and the expiry and nothing else |
| `Jogo.AposTerminar` | src/app/jogos/jogo-digitacao/jogo-digitacao.ts:254-257 | game over: not running, ended, expiry cleared, nothing else changed |
| `Jogo.AposAcerto` | src/app/jogos/jogo-digitacao/jogo-digitacao.ts:209-228 | a success records reaction time `agora - inicio` and queues the next challenge 500 ms later; the challenge and the expiry stay |
| `Jogo.AposErro` | src/app/jogos/jogo-digitacao/jogo-digitacao.ts:230-239 | an error takes a life and keeps the challenge; with one life or fewer left the game ends with the expiry cleared; otherwise a next challenge is queued 1000 ms later |
| `Jogo.AposTecla` | src/app/jogos/jogo-digitacao/jogo-digitacao.ts:82-92 | a key never replaces the challenge; it changes nothing unless the game runs unpaused on a letter or digit challenge; it completes a challenge exactly when it matches, and costs a life exactly when it does not; an accepted matching key is a success (`AposAcerto`) and an accepted non-matching key a failure (`AposErro`) |
| `Jogo.AposClique` | src/app/jogos/jogo-digitacao/jogo-digitacao.ts:292-296 | a click never costs a life; it is a success (`AposAcerto`) when the current one is a click challenge with that id, and otherwise changes nothing |
| `Jogo.AposExpirar` | src/app/jogos/jogo-digitacao/jogo-digitacao.ts:158-163 | the expiry is spent and the challenge, its start time and the pause flag stay; with a challenge present it is exactly a failure (`AposErro`): it takes a life, with one life left it ends the game and queues nothing, and with more it keeps the game's flags and queues the next challenge 1000 ms later |
| `Jogo.AposPendente` | src/app/jogos/jogo-digitacao/jogo-digitacao.ts:227-237 | a queued follow-up leaves the queue and draws a new challenge exactly when the game runs unpaused; the record and the running, paused and ended flags never change |
| `Jogo.IniciarPreservaInvariante` | src/app/jogos/jogo-digitacao/jogo-digitacao.ts:107-112 | starting keeps the invariant |
| `Jogo.PausarPreservaInvariante` | src/app/jogos/jogo-digitacao/jogo-digitacao.ts:114-127 | pausing and unpausing keep the invariant |
| `Jogo.ContinuarPreservaInvariante` | src/app/jogos/jogo-digitacao/jogo-digitacao.ts:119-123 | the "Continuar" action keeps the invariant |
| `Jogo.PararPreservaInvariante` | src/app/jogos/jogo-digitacao/jogo-digitacao.ts:129-132 | stopping keeps the invariant |
| `Jogo.TeclaPreservaInvariante` | src/app/jogos/jogo-digitacao/jogo-digitacao.ts:82-92 | key input keeps the invariant (coherent record, lives > 0 while running) |
| `Jogo.CliquePreservaInvariante` | src/app/jogos/jogo-digitacao/jogo-digitacao.ts:292-296 | a click keeps the invariant |
| `Jogo.ExpirarPreservaInvariante` | src/app/jogos/jogo-digitacao/jogo-digitacao.ts:159-163 | an expiry keeps the invariant |
| `Jogo.PendentePreservaInvariante` | src/app/jogos/jogo-digitacao/jogo-digitacao.ts:227-237 | a follow-up firing keeps the invariant |
| `Jogo.NivelEVelocidade` | src/app/jogos/jogo-digitacao/jogo-digitacao.ts:223-225 | in every reachable state level = 1 + completed / 5, speed in [5000, 30000], one reaction time per success |
| `Jogo.PararIdempotente` | src/app/jogos/jogo-digitacao/jogo-digitacao.ts:129-132 | stopping twice is the same as stopping once |
| `Jogo.TerminadoIgnoraTeclas` | src/app/jogos/jogo-digitacao/jogo-digitacao.ts:83 | an ended game ignores every key and has no expiry armed |
| `Jogo.ErroSeguidoDeAcerto` | src/app/jogos/jogo-digitacao/jogo-digitacao.ts:82-92 | a wrong key then the right one: exactly one success with its reaction time, one life lost, the same challenge throughout |
| `Jogo.AcertoRepetidoNaPausa` | src/app/jogos/jogo-digitacao/jogo-digitacao.ts:209-227 | the same correct key pressed twice before the next challenge scores two successes and queues two follow-ups |
| `Jogo.ExpiracaoAposAcertoCustaVida` | src/app/jogos/jogo-digitacao/jogo-digitacao.ts:159-163 | a success leaves the expiry armed, and its firing afterwards still takes a life |
| `Jogo.PendenteAntigoSubstituiDesafio` | src/app/jogos/jogo-digitacao/jogo-digitacao.ts:280-289 | a follow-up queued before a stop and restart survives them and replaces the new game's challenge |
| `Jogo.AcertoAposExpiracaoExcedeVelocidade` | src/app/jogos/jogo-digitacao/jogo-digitacao.ts:158-163 | after an expiry with lives left, a matching key still succeeds, costs the one life the expiry took, and records a reaction time above the speed, which earns only the base 100 points |
| `Jogo.CincoAcertos` | src/app/jogos/jogo-digitacao/jogo-digitacao.ts:223-225 | five successes from the reset record give level 2, speed 29500, five reaction times in order, three lives |
| `Jogo.JogoDigitacao.constructor` | src/app/jogos/jogo-digitacao/jogo-digitacao.ts:44-60 | the new component holds the initial state |
| `Jogo.JogoDigitacao.IniciarJogo` | src/app/jogos/jogo-digitacao/jogo-digitacao.ts:107-112 | performs `AposIniciar` on the fields and keeps `Valid()` |
| `Jogo.JogoDigitacao.PausarJogo` | src/app/jogos/jogo-digitacao/jogo-digitacao.ts:114-127 | performs `AposPausar` and keeps `Valid()` |
| `Jogo.JogoDigitacao.ContinuarJogo` | src/app/jogos/jogo-digitacao/jogo-digitacao.ts:119-123 | performs `AposContinuar` and keeps `Valid()` |
| `Jogo.JogoDigitacao.PararJogo` | src/app/jogos/jogo-digitacao/jogo-digitacao.ts:129-132 | performs `AposParar` and keeps `Valid()` |
| `Jogo.JogoDigitacao.OnKeyDown` | src/app/jogos/jogo-digitacao/jogo-digitacao.ts:82-92 | performs `AposTecla` and keeps `Valid()` |
| `Jogo.JogoDigitacao.OnElementoClicado` | src/app/jogos/jogo-digitacao/jogo-digitacao.ts:292-296 | performs `AposClique` and keeps `Valid()` |
| `Jogo.JogoDigitacao.AoExpirarDesafio` | src/app/jogos/jogo-digitacao/jogo-digitacao.ts:159-163 | the expiry callback performs `AposExpirar` and keeps `Valid()` |
| `Jogo.JogoDigitacao.AoFimPausaAcerto` | src/app/jogos/jogo-digitacao/jogo-digitacao.ts:227 | the 500 ms follow-up performs `AposPendente` and keeps `Valid()` |
| `Jogo.JogoDigitacao.AoFimPausaErro` | src/app/jogos/jogo-digitacao/jogo-digitacao.ts:237 | the 1000 ms follow-up performs `AposPendente` and keeps `Valid()` |
| `Jogo.JogoDigitacao.ResetarEstado` | src/app/jogos/jogo-digitacao/jogo-digitacao.ts:139-149 | installs the initial record and drops the challenge, nothing else |
| `Jogo.JogoDigitacao.ProximoDesafio` | src/app/jogos/jogo-digitacao/jogo-digitacao.ts:151-164 | performs `AposProximo` on challenge, start time and expiry only |
| `Jogo.JogoDigitacao.AcertouDesafio` | src/app/jogos/jogo-digitacao/jogo-digitacao.ts:209-228 | push, add points, increment, level-up on a multiple of 5, queue the follow-up: equals `AposAcerto` |
| `Jogo.JogoDigitacao.ErrouDesafio` | src/app/jogos/jogo-digitacao/jogo-digitacao.ts:230-239 | decrement, then end the game or queue the follow-up: equals `AposErro` |
| `Jogo.JogoDigitacao.SubirNivel` | src/app/jogos/jogo-digitacao/jogo-digitacao.ts:241-246 | increments the level and applies the speed rule to the record only |
| `Jogo.JogoDigitacao.TerminarJogo` | src/app/jogos/jogo-digitacao/jogo-digitacao.ts:254-261 | performs `AposTerminar` and returns the final score and the rounded mean reaction time |
| `Jogo.JogoDigitacao.ClearTimeouts` | src/app/jogos/jogo-digitacao/jogo-digitacao.ts:280-289 | cancels the armed expiry and nothing else |

## Left out

- Angular wiring is not modelled: the decorators, `@HostListener`, `ngOnInit`, `ngOnDestroy` (which only calls `pararJogo`) and `voltarMenu`'s `Router.navigate`.
- `mostrarInstrucoes` and `mostrarFeedback` are not modelled, nor the notification texts. The "Começar!" and "Jogar Novamente" actions are plain calls to `IniciarJogo`, and "Continuar" is `ContinuarJogo`.
- `intervalId` is never set anywhere, so the interval branch of `clearTimeouts` does nothing and is left out.
- `gerarId` draws a random base-36 string. Ids are opaque strings passed in with the draws. Their uniqueness is not modelled.
- Floating point is not modelled. `Math.random` is an exact real in [0, 1), target positions are exact reals, and `Math.round` is `floor(x + 1/2)` on exact values.
- JavaScript numbers lose integer precision above 2^53. Integers here are unbounded.
- The `default` branch of `gerarDesafio`'s switch cannot be reached, since the index is always 0, 1 or 2. Dafny's `match` has no such case.
- Desafios.Maiusculas: models `toUpperCase` for a–z, the dotless i (U+0131) and the long s (U+017F) only. Every other character is kept as it is, so mappings such as é → É or ß → SS are not modelled.
- The order in which the browser delivers events is not modelled. A timer callback is an event method the caller may invoke once the callback is due. The model does not force due callbacks to run before later input.
- In the source, `timeoutId` still holds its handle after the expiry fires. The model sets `expiracao` to `None` at that point. Clearing a handle that has already fired has no effect, so nothing observable changes.
- There is no progress-bar ticker: the source never starts one, and the remaining-time display is not computed by the component.
- The class holds `estado` as a record value that its methods reassign. The source mutates one object in place. No other reference to that object is taken, except by the page template, which only reads it.
