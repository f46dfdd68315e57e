/** A registered bank customer. The source's `Usuario` class is built once
    with four strings and never changed afterwards, so it is a value here. */
module Usuarios {

  datatype Usuario = Usuario(
    nome: string,
    dataNascimento: string,  // free-form, "dd-mm-aaaa" by convention only
    cpf: string,
    endereco: string)
}
