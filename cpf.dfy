/** The CPF format check that guards user registration (classes/banco.py:35).

    The source checks the CPF with `re.match(r"^\d{11}$", cpf)`. On a Python
    `str`, `\d` matches every Unicode decimal digit, not only '0'..'9', and `$`
    also matches just before a final newline. `CasaPadraoCpf` models that check
    as written; `CpfValido` is the intended "eleven ASCII digits" check, and it
    is the one the bank model uses. */
module Cpf {

  const TAMANHO_CPF: nat := 11

  /** A digit as a CPF is written: '0'..'9'. */
  predicate DigitoAscii(c: char) {
    '0' <= c <= '9'
  }

  /** Python's `\d` on text: any Unicode decimal digit. Only three of its
      blocks are listed here (ASCII, Arabic-Indic, Extended Arabic-Indic). */
  predicate DigitoUnicode(c: char) {
    DigitoAscii(c) || '\U{0660}' <= c <= '\U{0669}' || '\U{06F0}' <= c <= '\U{06F9}'
  }

  /** The numeric value of a decimal digit, whatever its script. */
  function ValorDigito(c: char): (d: int)
    requires DigitoUnicode(c)
    ensures 0 <= d <= 9
    ensures DigitoAscii(c) ==> c == ('0' as int + d) as char
  {
    if DigitoAscii(c) then c as int - '0' as int
    else if c <= '\U{0669}' then c as int - 0x0660
    else c as int - 0x06F0
  }

  /** The check as written: eleven `\d` characters, optionally followed by
      one newline that `$` lets through. */
  predicate CasaPadraoCpf(cpf: string) {
    (|cpf| == TAMANHO_CPF || (|cpf| == TAMANHO_CPF + 1 && cpf[TAMANHO_CPF] == '\n'))
    && forall i :: 0 <= i < TAMANHO_CPF ==> DigitoUnicode(cpf[i])
  }

  /** The check as intended: exactly eleven ASCII digits. */
  predicate CpfValido(cpf: string) {
    |cpf| == TAMANHO_CPF && forall i :: 0 <= i < |cpf| ==> DigitoAscii(cpf[i])
  }

  /** The eleven digit values a CPF accepted by the pattern stands for. */
  function NumeroCpf(cpf: string): seq<int>
    requires CasaPadraoCpf(cpf)
  {
    seq(TAMANHO_CPF, i requires 0 <= i < TAMANHO_CPF => ValorDigito(cpf[i]))
  }

  /** Every CPF the corrected check accepts, the pattern accepts too. */
  lemma CpfValidoCasaPadrao(cpf: string)
    requires CpfValido(cpf)
    ensures CasaPadraoCpf(cpf)
  {
  }

  /** The correction only matters for non-ASCII digits and the final newline:
      on text made of printable ASCII characters both checks agree. */
  lemma CorrecaoSoAfetaNaoAscii(cpf: string)
    requires forall i :: 0 <= i < |cpf| ==> ' ' <= cpf[i] <= '~'
    ensures CasaPadraoCpf(cpf) <==> CpfValido(cpf)
  {
  }

  /** As written, the same CPF number is accepted in two different spellings,
      so registering it twice gets past the duplicate check, which compares
      strings. "12345678901" and the same digits in Arabic-Indic script both
      match the pattern and denote the same number. */
  lemma MesmoNumeroDuasGrafias()
    ensures var a, b := "12345678901", "\U{0661}\U{0662}\U{0663}\U{0664}\U{0665}\U{0666}\U{0667}\U{0668}\U{0669}\U{0660}\U{0661}";
      a != b && CasaPadraoCpf(a) && CasaPadraoCpf(b) && NumeroCpf(a) == NumeroCpf(b)
      && CpfValido(a) && !CpfValido(b)
  {
  }

  /** With the corrected check a CPF string is determined by its number, so
      comparing strings (as the duplicate check does) is comparing CPFs. */
  lemma CpfValidoDeterminadoPeloNumero(a: string, b: string)
    requires CpfValido(a) && CpfValido(b)
    requires NumeroCpf(a) == NumeroCpf(b)
    ensures a == b
  {
    assert forall i :: 0 <= i < TAMANHO_CPF ==>
      NumeroCpf(a)[i] == ValorDigito(a[i]) && NumeroCpf(b)[i] == ValorDigito(b[i]);
  }
}
