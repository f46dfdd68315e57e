/** Clients of the bank that walk through short sessions, using only the
    contracts of module Banco: registration, account opening, deposits,
    withdrawals against each guard, and lookups of unknown accounts. */
module Cenarios {
  import opened Wrappers
  import opened Contas
  import opened Regras
  import opened Banco

  /** A bank with one user, CPF 12345678901, and that user's account number 1. */
  method BancoComUmaConta() returns (b: Banco)
    ensures fresh(b) && b.Valid()
    ensures |b.contas| == 1 && fresh(b.contas[0]) && b.contas[0].Estado() == EstadoConta(0.0, [], 0)
  {
    b := new Banco();
    var r := b.CriarUsuario("12345678901", "Ana Souza", "01-02-1990", "Rua A, 1 - Centro - Recife/PE");
    r := b.CriarConta("12345678901");
  }

  method Cadastro() {
    var b := new Banco();
    var r := b.CriarUsuario("12345678901", "Ana Souza", "01-02-1990", "Rua A, 1 - Centro - Recife/PE");
    assert r == Ok;
    r := b.CriarUsuario("12345678901", "Outra Pessoa", "03-04-1985", "Rua B, 2 - Boa Vista - Recife/PE");
    assert r == Erro(CpfJaCadastrado) && |b.usuarios| == 1;
    r := b.CriarUsuario("1234567890", "Sem Digito", "05-06-2000", "Rua C, 3 - Derby - Recife/PE");
    assert r == Erro(CpfInvalido);
    r := b.CriarConta("98765432100");
    assert r == Erro(UsuarioNaoEncontrado) && b.contas == [];
    r := b.CriarConta("12345678901");
    assert r == Ok && |b.contas| == 1 && b.contas[0].numeroConta == 1;
    r := b.CriarConta("12345678901");
    assert r == Ok && |b.contas| == 2 && b.contas[1].numeroConta == 2;
  }

  method DepositoESaque() {
    var b := BancoComUmaConta();
    var r := b.AcaoDepositar(2, Some(10.0));
    assert r == Erro(ContaNaoEncontrada);
    r := b.AcaoDepositar(1, Some(0.0));
    assert r == Erro(ValorInvalido);
    r := b.AcaoDepositar(1, None);
    assert r == Erro(ValorInvalido);
    r := b.AcaoDepositar(1, Some(100.0));
    r := b.AcaoSacar(1, Some(30.0));
    assert r == Ok;
    assert b.contas[0].saldo == 70.0 && b.contas[0].extrato == [Deposito(100.0), Saque(30.0)];
  }

  /** Over the balance and over the ceiling: the balance guard is reported. */
  method SaqueAcimaDoSaldoEDoLimite() {
    var b := BancoComUmaConta();
    var r := b.AcaoDepositar(1, Some(50.0));
    r := b.AcaoSacar(1, Some(600.0));
    assert r == Erro(SaldoInsuficiente) && b.contas[0].saldo == 50.0;
  }

  method SaqueAcimaDoLimite() {
    var b := BancoComUmaConta();
    var r := b.AcaoDepositar(1, Some(1000.0));
    r := b.AcaoSacar(1, Some(600.0));
    assert r == Erro(LimiteExcedido) && b.contas[0].saldo == 1000.0;
  }

  method QuartoSaque() {
    var b := BancoComUmaConta();
    var r := b.AcaoDepositar(1, Some(100.0));
    r := b.AcaoSacar(1, Some(10.0));
    r := b.AcaoSacar(1, Some(10.0));
    r := b.AcaoSacar(1, Some(10.0));
    assert r == Ok && b.contas[0].numeroSaques == 3;
    r := b.AcaoSacar(1, Some(10.0));
    assert r == Erro(SaquesExcedidos) && b.contas[0].saldo == 70.0;
  }
}
