/** Challenge generation and key matching of the typing game (gerarDesafio,
    gerarPosicaoAleatoria and the key comparison of onKeyDown). */
module Desafios {

  datatype Option<T> = None | Some(value: T)

  /** The three kinds of challenge: type a letter, type a digit, click a target. */
  datatype Tipo = Letra | Numero | Clique

  /** Position of a click target, in percent of the play area. */
  datatype Posicao = Posicao(x: real, y: real)

  /** One challenge (DesafioDigitacao). `posicao` is present on click challenges only;
      `id` is an opaque token. */
  datatype Desafio = Desafio(tipo: Tipo, valor: string, posicao: Option<Posicao>, id: string)

  /** The letters A-Z and the digits 0-9, in order, one entry per character. */
  const LETRAS: string := "ABCDEFGHIJKLMNOPQRSTUVWXYZ"
  const NUMEROS: string := "0123456789"
  const TIPOS: seq<Tipo> := [Letra, Numero, Clique]

  /** The symbol shown on a click challenge (U+1F3AF, "direct hit"). */
  const ALVO: string := "\U{1F3AF}"

  /** The random draws one challenge consumes. Each real stands for one value of
      Math.random; `id` is the token gerarId returns. */
  datatype Sorteio = Sorteio(tipo: real, valor: real, x: real, y: real, id: string)

  /** The range of Math.random. */
  predicate Aleatorio(r: real) {
    0.0 <= r < 1.0
  }

  predicate SorteioValido(s: Sorteio) {
    Aleatorio(s.tipo) && Aleatorio(s.valor) && Aleatorio(s.x) && Aleatorio(s.y)
  }

  /** Math.floor(r * n): the index a draw picks in a list of n entries. */
  function Indice(r: real, n: nat): (i: nat)
    requires Aleatorio(r) && n > 0
    ensures i < n
  {
    var p := r * n as real;
    assert 0.0 <= p < n as real by { ProdutoAbaixo(r, n as real); }
    p.Floor
  }

  lemma ProdutoAbaixo(r: real, m: real)
    requires 0.0 <= r < 1.0 && m > 0.0
    ensures 0.0 <= r * m < m
  {
  }

  /** The area a click target may occupy: [15, 85) x [20, 80). */
  predicate NaArea(p: Posicao) {
    15.0 <= p.x < 85.0 && 20.0 <= p.y < 80.0
  }

  /** gerarPosicaoAleatoria: x = rx * 70 + 15, y = ry * 60 + 20. */
  function GerarPosicaoAleatoria(rx: real, ry: real): (p: Posicao)
    requires Aleatorio(rx) && Aleatorio(ry)
    ensures NaArea(p)
  {
    Posicao(rx * 70.0 + 15.0, ry * 60.0 + 20.0)
  }

  /** Every position of the area is produced by some pair of draws. */
  lemma PosicaoSorteavel(p: Posicao)
    requires NaArea(p)
    ensures Aleatorio((p.x - 15.0) / 70.0) && Aleatorio((p.y - 20.0) / 60.0)
    ensures GerarPosicaoAleatoria((p.x - 15.0) / 70.0, (p.y - 20.0) / 60.0) == p
  {
  }

  /** What every generated challenge satisfies, per kind. */
  predicate DesafioValido(d: Desafio) {
    match d.tipo
    case Letra => |d.valor| == 1 && 'A' <= d.valor[0] <= 'Z' && d.posicao.None?
    case Numero => |d.valor| == 1 && '0' <= d.valor[0] <= '9' && d.posicao.None?
    case Clique => d.valor == ALVO && d.posicao.Some? && NaArea(d.posicao.value)
  }

  /** gerarDesafio: the kind is TIPOS[floor(r * 3)], the letter or digit is picked
      the same way, and a click target gets a random position. */
  function GerarDesafio(s: Sorteio): (d: Desafio)
    requires SorteioValido(s)
    ensures DesafioValido(d)
    ensures d.id == s.id
    ensures d.tipo == TIPOS[Indice(s.tipo, 3)]
  {
    match TIPOS[Indice(s.tipo, |TIPOS|)]
    case Letra => Desafio(Letra, [LETRAS[Indice(s.valor, |LETRAS|)]], None, s.id)
    case Numero => Desafio(Numero, [NUMEROS[Indice(s.valor, |NUMEROS|)]], None, s.id)
    case Clique => Desafio(Clique, ALVO, Some(GerarPosicaoAleatoria(s.x, s.y)), s.id)
  }

  /** Every letter, every digit and every target position can be drawn. */
  lemma GerarDesafioCobreLetras(c: char, id: string)
    requires 'A' <= c <= 'Z'
    ensures var s := Sorteio(0.0, (c as int - 65) as real / 26.0, 0.0, 0.0, id);
            SorteioValido(s) && GerarDesafio(s) == Desafio(Letra, [c], None, id)
  {
  }

  lemma GerarDesafioCobreNumeros(c: char, id: string)
    requires '0' <= c <= '9'
    ensures var s := Sorteio(0.34, (c as int - 48) as real / 10.0, 0.0, 0.0, id);
            SorteioValido(s) && GerarDesafio(s) == Desafio(Numero, [c], None, id)
  {
  }

  lemma GerarDesafioCobreAlvos(p: Posicao, id: string)
    requires NaArea(p)
    ensures var s := Sorteio(0.67, 0.0, (p.x - 15.0) / 70.0, (p.y - 20.0) / 60.0, id);
            SorteioValido(s) && GerarDesafio(s) == Desafio(Clique, ALVO, Some(p), id)
  {
  }

  /** String.prototype.toUpperCase, one character at a time: a-z map to A-Z, the
      dotless i (U+0131) to I and the long s (U+017F) to S; every other character
      is kept. */
  function MaiusculaChar(c: char): char {
    if 'a' <= c <= 'z' then (c as int - 32) as char
    else if c == '\U{0131}' then 'I'
    else if c == '\U{017F}' then 'S'
    else c
  }

  function Maiusculas(tecla: string): (r: string)
    ensures forall i :: 0 <= i < |r| ==> !('a' <= r[i] <= 'z')
  {
    seq(|tecla|, i requires 0 <= i < |tecla| => MaiusculaChar(tecla[i]))
  }

  /** Upper-casing keeps every upper-case letter and digit where it is, and
      upper-casing twice is upper-casing once. */
  lemma MaiusculasMantemMaiusculasEDigitos(tecla: string)
    ensures |Maiusculas(tecla)| == |tecla|
    ensures forall i :: 0 <= i < |tecla| && ('A' <= tecla[i] <= 'Z' || '0' <= tecla[i] <= '9')
              ==> Maiusculas(tecla)[i] == tecla[i]
    ensures Maiusculas(Maiusculas(tecla)) == Maiusculas(tecla)
  {
  }

  /** The key test of onKeyDown: a letter or digit challenge is answered by a key
      whose upper-cased name equals the challenge's value. */
  predicate TeclaCorreta(d: Desafio, tecla: string) {
    d.tipo != Clique && Maiusculas(tecla) == d.valor
  }

  /** The keys that answer a letter challenge: the letter itself, its lower-case
      form, and the two non-ASCII characters that upper-case to I and S. */
  lemma TeclaCorretaLetra(d: Desafio, tecla: string)
    requires DesafioValido(d) && d.tipo == Letra
    ensures TeclaCorreta(d, tecla) <==>
      tecla == d.valor || tecla == [(d.valor[0] as int + 32) as char]
      || (d.valor == "I" && tecla == "\U{0131}") || (d.valor == "S" && tecla == "\U{017F}")
  {
  }

  /** A digit challenge is answered by that digit's key only. */
  lemma TeclaCorretaNumero(d: Desafio, tecla: string)
    requires DesafioValido(d) && d.tipo == Numero
    ensures TeclaCorreta(d, tecla) <==> tecla == d.valor
  {
  }
}
