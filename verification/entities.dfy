/**
 The records a barbershop tenant keeps: the tenant itself (`Barbearia`), its
 employees (`Funcionario`), clients (`Cliente`), services (`Servico`) and
 appointments (`Agendamento`). Prices are integer cents; dates and
 timestamps are integers (milliseconds).
 */
module Entities {
  import opened Wrappers

  type Timestamp = int
  type Cents = int

  /** The five appointment statuses, as the strings the application stores. */
  const Agendado: string := "agendado"
  const Confirmado: string := "confirmado"
  const EmAndamento: string := "em_andamento"
  const Concluido: string := "concluido"
  const Cancelado: string := "cancelado"

  const Statuses: seq<string> := [Agendado, Confirmado, EmAndamento, Concluido, Cancelado]

  datatype Barbearia = Barbearia(
    id: string,
    contribuinte: string,
    nomeEstabelecimento: string,
    telefone: string,
    endereco: string,
    horarioAbertura: string,
    horarioFechamento: string,
    diasFuncionamento: seq<int>,
    criadoPor: string,
    ativo: bool,
    criadoEm: Timestamp,
    atualizadoEm: Timestamp)

  /** What a caller supplies to provision a tenant. */
  datatype DadosBarbearia = DadosBarbearia(
    contribuinte: string,
    nomeEstabelecimento: string,
    telefone: string,
    endereco: string,
    horarioAbertura: string,
    horarioFechamento: string,
    diasFuncionamento: seq<int>)

  /**
   A partial update of a tenant (`Partial<Barbearia>`): `Some` fields replace,
   `None` fields are kept. An `atualizadoEm` in the patch is always overwritten
   by the update's own timestamp, so it has no field here.
   */
  datatype PatchBarbearia = PatchBarbearia(
    nomeEstabelecimento: Option<string>,
    telefone: Option<string>,
    endereco: Option<string>,
    horarioAbertura: Option<string>,
    horarioFechamento: Option<string>,
    diasFuncionamento: Option<seq<int>>,
    ativo: Option<bool>,
    id: Option<string>,
    contribuinte: Option<string>,
    criadoPor: Option<string>,
    criadoEm: Option<Timestamp>)

  datatype Funcionario = Funcionario(
    id: string,
    nome: string,
    telefone: string,
    email: string,
    especialidades: seq<string>,
    horarioTrabalho: map<string, string>,
    ativo: bool,
    criadoEm: Timestamp,
    atualizadoEm: Timestamp)

  datatype DadosFuncionario = DadosFuncionario(
    nome: string,
    telefone: string,
    email: string,
    especialidades: seq<string>,
    horarioTrabalho: map<string, string>)

  /** A partial update of an employee (`Partial<Funcionario>`), read like `PatchBarbearia`. */
  datatype PatchFuncionario = PatchFuncionario(
    nome: Option<string>,
    telefone: Option<string>,
    email: Option<string>,
    especialidades: Option<seq<string>>,
    horarioTrabalho: Option<map<string, string>>,
    ativo: Option<bool>,
    id: Option<string>,
    criadoEm: Option<Timestamp>)

  datatype Cliente = Cliente(
    id: string,
    nome: string,
    telefone: string,
    email: string,
    totalVisitas: nat,
    ultimaVisita: Option<Timestamp>,
    dataNascimento: Option<Timestamp>,
    ativo: bool,
    criadoEm: Timestamp,
    atualizadoEm: Timestamp)

  datatype DadosCliente = DadosCliente(
    nome: string,
    telefone: string,
    email: string,
    ultimaVisita: Option<Timestamp>,
    dataNascimento: Option<Timestamp>)

  datatype Servico = Servico(
    id: string,
    nome: string,
    descricao: string,
    duracao: int,
    preco: Cents,
    categoria: string,
    ativo: bool,
    criadoEm: Timestamp,
    atualizadoEm: Timestamp)

  datatype Agendamento = Agendamento(
    id: string,
    clienteId: string,
    funcionarioId: string,
    servicoIds: seq<string>,
    data: Timestamp,
    horarioInicio: string,
    horarioFim: string,
    precoTotal: Cents,
    status: string,
    pago: bool,
    observacoes: string,
    ativo: bool,
    criadoEm: Timestamp,
    atualizadoEm: Timestamp)

  datatype DadosAgendamento = DadosAgendamento(
    clienteId: string,
    funcionarioId: string,
    servicoIds: seq<string>,
    data: Timestamp,
    horarioInicio: string,
    horarioFim: string,
    precoTotal: Cents,
    status: string,
    pago: bool,
    observacoes: string)
}
