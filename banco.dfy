/** The bank (classes/banco.py, class `Banco`): the user registry, the
    account registry, and the deposit and withdrawal operations on a
    selected account. What the source reads with `input()` is a parameter
    here, and what it prints is the returned `Resultado`. */
module Banco {
  import opened Wrappers
  import opened Usuarios
  import opened Contas
  import opened Cpf
  import opened Regras

  /** `filtrar_usuario`: the first registered user with this CPF, if any. */
  function FiltrarUsuario(usuarios: seq<Usuario>, cpf: string): (r: Option<Usuario>)
    ensures r.None? <==> forall i :: 0 <= i < |usuarios| ==> usuarios[i].cpf != cpf
    ensures r.Some? ==> (exists i :: 0 <= i < |usuarios| && usuarios[i] == r.value && r.value.cpf == cpf
                           && forall j :: 0 <= j < i ==> usuarios[j].cpf != cpf)
  {
    if usuarios == [] then None
    else if usuarios[0].cpf == cpf then Some(usuarios[0])
    else
      var r := FiltrarUsuario(usuarios[1..], cpf);
      assert r.Some? ==> (exists i :: 1 <= i < |usuarios| && usuarios[i] == r.value && r.value.cpf == cpf
                            && forall j :: 0 <= j < i ==> usuarios[j].cpf != cpf);
      r
  }

  /** No two registered users share a CPF. */
  ghost predicate CpfsUnicos(usuarios: seq<Usuario>) {
    forall i, j :: 0 <= i < j < |usuarios| ==> usuarios[i].cpf != usuarios[j].cpf
  }

  class Banco {
    var usuarios: seq<Usuario>
    var contas: seq<Conta>

    /** The registries as the bank's operations keep them: registered CPFs
        are well formed and unique; accounts are numbered 1..n in creation
        order, belong to the branch AGENCIA and to a registered user, and
        each one's state is consistent (balance never negative, at most
        LIMITE_SAQUES withdrawals, statement and balance agree). */
    ghost predicate Valid()
      reads this, contas
    {
      (forall i :: 0 <= i < |usuarios| ==> CpfValido(usuarios[i].cpf))
      && CpfsUnicos(usuarios)
      && (forall i :: 0 <= i < |contas| ==>
            contas[i].numeroConta == i + 1
            && contas[i].agencia == AGENCIA
            && contas[i].usuario in usuarios
            && ContaConsistente(contas[i].Estado()))
    }

    constructor ()
      ensures Valid()
      ensures usuarios == [] && contas == []
    {
      usuarios := [];
      contas := [];
    }

    /** `criar_usuario`: a malformed CPF is refused first, then one already
        registered; otherwise exactly one user is appended. */
    method CriarUsuario(cpf: string, nome: string, dataNascimento: string, endereco: string)
      returns (r: Resultado)
      requires Valid()
      modifies this
      ensures Valid()
      ensures contas == old(contas)
      ensures r == Erro(CpfInvalido) <==> !CpfValido(cpf)
      ensures r == Erro(CpfJaCadastrado) <==> CpfValido(cpf) && FiltrarUsuario(old(usuarios), cpf).Some?
      ensures r == Ok <==> CpfValido(cpf) && FiltrarUsuario(old(usuarios), cpf).None?
      ensures r.Erro? ==> usuarios == old(usuarios)
      ensures r == Ok ==> usuarios == old(usuarios) + [Usuario(nome, dataNascimento, cpf, endereco)]
    {
      if !CpfValido(cpf) {
        return Erro(CpfInvalido);
      }
      if FiltrarUsuario(usuarios, cpf).Some? {
        return Erro(CpfJaCadastrado);
      }
      usuarios := usuarios + [Usuario(nome, dataNascimento, cpf, endereco)];
      r := Ok;
    }

    /** `criar_conta`: an unknown CPF opens nothing; otherwise one fresh
        account numbered |contas| + 1 is appended for the first user with
        that CPF, with balance 0, an empty statement and no withdrawals. */
    method CriarConta(cpf: string) returns (r: Resultado)
      requires Valid()
      modifies this
      ensures Valid()
      ensures usuarios == old(usuarios)
      ensures r == Ok <==> FiltrarUsuario(usuarios, cpf).Some?
      ensures r.Erro? ==> r.falha == UsuarioNaoEncontrado && contas == old(contas)
      ensures r == Ok ==>
        |contas| == |old(contas)| + 1 && contas[..|old(contas)|] == old(contas)
        && fresh(contas[|old(contas)|])
        && contas[|old(contas)|].numeroConta == |old(contas)| + 1
        && contas[|old(contas)|].agencia == AGENCIA
        && contas[|old(contas)|].usuario == FiltrarUsuario(usuarios, cpf).value
        && contas[|old(contas)|].Estado() == EstadoConta(0.0, [], 0)
    {
      var usuario := FiltrarUsuario(usuarios, cpf);
      if usuario.None? {
        return Erro(UsuarioNaoEncontrado);
      }
      var conta := new Conta(AGENCIA, |contas| + 1, usuario.value);
      contas := contas + [conta];
      r := Ok;
    }

    /** `selecionar_conta`: the first account with this number, or null.
        In a valid bank that is account number-1 for 1 <= number <= n. */
    method SelecionarConta(numero: int) returns (c: Conta?)
      ensures c == null <==> forall i :: 0 <= i < |contas| ==> contas[i].numeroConta != numero
      ensures c != null ==> (exists i :: 0 <= i < |contas| && contas[i] == c && c.numeroConta == numero
                               && forall j :: 0 <= j < i ==> contas[j].numeroConta != numero)
      ensures Valid() ==> (c != null <==> 1 <= numero <= |contas|)
      ensures Valid() && c != null ==> c == contas[numero - 1]
    {
      var i := 0;
      while i < |contas|
        invariant 0 <= i <= |contas|
        invariant forall j :: 0 <= j < i ==> contas[j].numeroConta != numero
        invariant Valid() && 1 <= numero ==> i < numero
      {
        if contas[i].numeroConta == numero {
          return contas[i];
        }
        i := i + 1;
      }
      return null;
    }

    /** `depositar` on an account of this bank: see `Depositado`. */
    method Depositar(conta: Conta, lido: Option<real>) returns (r: Resultado)
      requires Valid()
      modifies conta
      ensures Valid()
      ensures (r, conta.Estado()) == Depositado(old(conta.Estado()), lido)
    {
      var valor := ValidarValor(lido);
      if valor.Some? {
        conta.saldo := conta.saldo + valor.value;
        conta.extrato := conta.extrato + [Deposito(valor.value)];
        r := Ok;
      } else {
        r := Erro(ValorInvalido);
      }
      // the account's new state is consistent, by the contract of Depositado
      assert conta.Estado() == Depositado(old(conta.Estado()), lido).1;
    }

    /** `sacar` on an account of this bank: see `Sacado`. */
    method Sacar(conta: Conta, lido: Option<real>) returns (r: Resultado)
      requires Valid()
      modifies conta
      ensures Valid()
      ensures (r, conta.Estado()) == Sacado(old(conta.Estado()), lido)
    {
      var valor := ValidarValor(lido);
      if valor.Some? {
        var excedeuSaldo := valor.value > conta.saldo;
        var excedeuLimite := valor.value > LIMITE_SAQUE_VALOR;
        var excedeuSaques := conta.numeroSaques >= LIMITE_SAQUES;
        if excedeuSaldo {
          r := Erro(SaldoInsuficiente);
        } else if excedeuLimite {
          r := Erro(LimiteExcedido);
        } else if excedeuSaques {
          r := Erro(SaquesExcedidos);
        } else {
          conta.saldo := conta.saldo - valor.value;
          conta.extrato := conta.extrato + [Saque(valor.value)];
          conta.numeroSaques := conta.numeroSaques + 1;
          r := Ok;
        }
      } else {
        r := Erro(ValorInvalido);
      }
      // the account's new state is consistent, by the contract of Sacado
      assert conta.Estado() == Sacado(old(conta.Estado()), lido).1;
    }

    /** `acao_depositar`: select the account by number, then deposit. An
        unknown number changes nothing; otherwise only that account changes. */
    method AcaoDepositar(numero: int, lido: Option<real>) returns (r: Resultado)
      requires Valid()
      modifies contas
      ensures Valid()
      ensures !(1 <= numero <= |contas|) ==> r == Erro(ContaNaoEncontrada) && unchanged(contas)
      ensures 1 <= numero <= |contas| ==>
        (r, contas[numero - 1].Estado()) == Depositado(old(contas[numero - 1].Estado()), lido)
        && forall i :: 0 <= i < |contas| && i != numero - 1 ==> unchanged(contas[i])
    {
      var conta := SelecionarConta(numero);
      if conta == null {
        return Erro(ContaNaoEncontrada);
      }
      r := Depositar(conta, lido);
    }

    /** `acao_sacar`: select the account by number, then withdraw. An
        unknown number changes nothing; otherwise only that account changes. */
    method AcaoSacar(numero: int, lido: Option<real>) returns (r: Resultado)
      requires Valid()
      modifies contas
      ensures Valid()
      ensures !(1 <= numero <= |contas|) ==> r == Erro(ContaNaoEncontrada) && unchanged(contas)
      ensures 1 <= numero <= |contas| ==>
        (r, contas[numero - 1].Estado()) == Sacado(old(contas[numero - 1].Estado()), lido)
        && forall i :: 0 <= i < |contas| && i != numero - 1 ==> unchanged(contas[i])
    {
      var conta := SelecionarConta(numero);
      if conta == null {
        return Erro(ContaNaoEncontrada);
      }
      r := Sacar(conta, lido);
    }
  }
}
