/** A bank account: fixed branch, number and owner, plus the balance, the
    statement and the withdrawal counter that the bank updates in place. */
module Contas {
  import opened Usuarios

  /** One line of the statement, without its text formatting. */
  datatype Lancamento = Deposito(valor: real) | Saque(valor: real)

  /** The part of an account that deposits and withdrawals change. */
  datatype EstadoConta = EstadoConta(saldo: real, extrato: seq<Lancamento>, numeroSaques: nat)

  /** What one statement line does to the balance. */
  function Efeito(l: Lancamento): real {
    match l
    case Deposito(v) => v
    case Saque(v) => -v
  }

  /** The balance a statement accounts for: deposits minus withdrawals. */
  function SaldoDoExtrato(extrato: seq<Lancamento>): real {
    if extrato == [] then 0.0 else Efeito(extrato[0]) + SaldoDoExtrato(extrato[1..])
  }

  /** How many withdrawals a statement records. */
  function SaquesNoExtrato(extrato: seq<Lancamento>): nat {
    if extrato == [] then 0 else (if extrato[0].Saque? then 1 else 0) + SaquesNoExtrato(extrato[1..])
  }

  /** Appending one line moves the statement's balance by that line's effect
      and its withdrawal count by one exactly when the line is a withdrawal. */
  lemma {:induction false} ExtratoComMaisUm(extrato: seq<Lancamento>, l: Lancamento)
    ensures SaldoDoExtrato(extrato + [l]) == SaldoDoExtrato(extrato) + Efeito(l)
    ensures SaquesNoExtrato(extrato + [l]) == SaquesNoExtrato(extrato) + (if l.Saque? then 1 else 0)
  {
    if extrato != [] {
      assert (extrato + [l])[1..] == extrato[1..] + [l];
      ExtratoComMaisUm(extrato[1..], l);
    }
  }

  class Conta {
    const agencia: string
    const numeroConta: int
    const usuario: Usuario
    var saldo: real
    var extrato: seq<Lancamento>
    var numeroSaques: nat

    /** A new account starts with no money, no statement lines and no withdrawals. */
    constructor (agencia: string, numeroConta: int, usuario: Usuario)
      ensures this.agencia == agencia && this.numeroConta == numeroConta && this.usuario == usuario
      ensures saldo == 0.0 && extrato == [] && numeroSaques == 0
    {
      this.agencia := agencia;
      this.numeroConta := numeroConta;
      this.usuario := usuario;
      saldo := 0.0;
      extrato := [];
      numeroSaques := 0;
    }

    function Estado(): EstadoConta
      reads this
    {
      EstadoConta(saldo, extrato, numeroSaques)
    }
  }
}
