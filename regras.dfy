/** The transaction rules of `Banco` (classes/banco.py): the limits, the
    amount check and what a deposit or a withdrawal does to an account's
    state. The class methods in module Banco are proved against these. */
module Regras {
  import opened Wrappers
  import opened Contas

  /** Banco.LIMITE_SAQUES: withdrawals allowed per account. */
  const LIMITE_SAQUES: nat := 3
  /** Banco.LIMITE_SAQUE_VALOR: the largest amount of one withdrawal. */
  const LIMITE_SAQUE_VALOR: real := 500.0
  /** The branch every account is opened in. */
  const AGENCIA: string := "0001"

  /** The ways an operation fails; each is one of the source's messages. */
  datatype Falha =
    | CpfInvalido
    | CpfJaCadastrado
    | UsuarioNaoEncontrado
    | ContaNaoEncontrada
    | ValorInvalido
    | SaldoInsuficiente
    | LimiteExcedido
    | SaquesExcedidos

  datatype Resultado = Ok | Erro(falha: Falha)

  /** `validar_valor`: `lido` is what `float()` made of the typed text, or
      None when it raised. Only a strictly positive number is an amount. */
  function ValidarValor(lido: Option<real>): (r: Option<real>)
    ensures r.Some? <==> lido.Some? && lido.value > 0.0
    ensures r.Some? ==> r.value == lido.value
  {
    match lido
    case Some(v) => if v > 0.0 then Some(v) else None
    case None => None
  }

  /** The three withdrawal guards, first failing one wins. */
  function FalhaDoSaque(valor: real, saldo: real, numeroSaques: nat): Option<Falha> {
    if valor > saldo then Some(SaldoInsuficiente)
    else if valor > LIMITE_SAQUE_VALOR then Some(LimiteExcedido)
    else if numeroSaques >= LIMITE_SAQUES then Some(SaquesExcedidos)
    else None
  }

  /** An account state that the bank can reach: the balance is never
      negative, at most LIMITE_SAQUES withdrawals were made, and the balance
      and the counter agree with what the statement records. */
  ghost predicate ContaConsistente(e: EstadoConta) {
    e.saldo >= 0.0
    && e.numeroSaques <= LIMITE_SAQUES
    && e.saldo == SaldoDoExtrato(e.extrato)
    && e.numeroSaques == SaquesNoExtrato(e.extrato)
  }

  /** `depositar`: a valid amount is added to the balance and logged; an
      invalid one changes nothing. */
  function Depositado(e: EstadoConta, lido: Option<real>): (r: (Resultado, EstadoConta))
    ensures r.0 == Ok <==> ValidarValor(lido).Some?
    ensures r.0.Erro? ==> r.0.falha == ValorInvalido && r.1 == e
    ensures r.0 == Ok ==> r.1 == EstadoConta(e.saldo + lido.value, e.extrato + [Deposito(lido.value)], e.numeroSaques)
    ensures ContaConsistente(e) ==> ContaConsistente(r.1)
  {
    match ValidarValor(lido)
    case None => (Erro(ValorInvalido), e)
    case Some(v) =>
      ExtratoComMaisUm(e.extrato, Deposito(v));
      (Ok, EstadoConta(e.saldo + v, e.extrato + [Deposito(v)], e.numeroSaques))
  }

  /** `sacar`: an invalid amount or the first failing guard is reported and
      changes nothing; otherwise balance, statement and counter move together. */
  function Sacado(e: EstadoConta, lido: Option<real>): (r: (Resultado, EstadoConta))
    ensures r.0 == Erro(ValorInvalido) <==> ValidarValor(lido).None?
    ensures ValidarValor(lido).Some? ==>
      match FalhaDoSaque(lido.value, e.saldo, e.numeroSaques)
      case Some(f) => r.0 == Erro(f)
      case None => r.0 == Ok
    ensures r.0.Erro? ==> r.1 == e
    ensures r.0 == Ok ==> r.1 == EstadoConta(e.saldo - lido.value, e.extrato + [Saque(lido.value)], e.numeroSaques + 1)
    ensures ContaConsistente(e) ==> ContaConsistente(r.1)
  {
    match ValidarValor(lido)
    case None => (Erro(ValorInvalido), e)
    case Some(v) =>
      match FalhaDoSaque(v, e.saldo, e.numeroSaques)
      case Some(f) => (Erro(f), e)
      case None =>
        ExtratoComMaisUm(e.extrato, Saque(v));
        (Ok, EstadoConta(e.saldo - v, e.extrato + [Saque(v)], e.numeroSaques + 1))
  }

  /** Each withdrawal guard is reported exactly when it fails and every guard
      before it passes; a withdrawal goes through exactly when none fails. */
  lemma GuardasEmOrdem(valor: real, saldo: real, numeroSaques: nat)
    ensures FalhaDoSaque(valor, saldo, numeroSaques) == Some(SaldoInsuficiente) <==> valor > saldo
    ensures FalhaDoSaque(valor, saldo, numeroSaques) == Some(LimiteExcedido)
      <==> valor <= saldo && valor > LIMITE_SAQUE_VALOR
    ensures FalhaDoSaque(valor, saldo, numeroSaques) == Some(SaquesExcedidos)
      <==> valor <= saldo && valor <= LIMITE_SAQUE_VALOR && numeroSaques >= LIMITE_SAQUES
    ensures FalhaDoSaque(valor, saldo, numeroSaques) == None
      <==> valor <= saldo && valor <= LIMITE_SAQUE_VALOR && numeroSaques < LIMITE_SAQUES
  {
  }

  /** An account operation of the session loop, with the amount as read. */
  datatype Operacao = OpDeposito(lido: Option<real>) | OpSaque(lido: Option<real>)

  function Aplicar(e: EstadoConta, op: Operacao): EstadoConta {
    match op
    case OpDeposito(lido) => Depositado(e, lido).1
    case OpSaque(lido) => Sacado(e, lido).1
  }

  /** The account state after a sequence of deposits and withdrawals on it, in order. */
  function AplicarOperacoes(e: EstadoConta, ops: seq<Operacao>): EstadoConta
    decreases ops
  {
    if ops == [] then e else AplicarOperacoes(Aplicar(e, ops[0]), ops[1..])
  }

  /** Whatever deposits and withdrawals an account goes through, its
      statement only grows and each state it reaches is consistent. */
  lemma {:induction false} AplicarOperacoesPreservaConsistencia(e: EstadoConta, ops: seq<Operacao>)
    requires ContaConsistente(e)
    decreases ops
    ensures ContaConsistente(AplicarOperacoes(e, ops))
    ensures e.extrato <= AplicarOperacoes(e, ops).extrato
  {
    if ops != [] {
      var e' := Aplicar(e, ops[0]);
      assert e.extrato <= e'.extrato;
      AplicarOperacoesPreservaConsistencia(e', ops[1..]);
    }
  }
}
