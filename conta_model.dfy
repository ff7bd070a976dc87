/**
 * The bill record and the filter record. Dates and instants are `int`
 * (milliseconds since the epoch); `valor` is an amount in cents.
 */
module ContaModel {
  import opened Wrappers

  /** A bill is in exactly one of three states. */
  datatype Status = Pendente | Paga | Atrasada

  /** `dataPagamento` and `observacoes` are the only optional fields. */
  datatype Conta = Conta(
    id: string,
    userId: string,
    descricao: string,
    valor: int,
    dataVencimento: int,
    dataPagamento: Option<int>,
    status: Status,
    categoria: string,
    observacoes: Option<string>,
    createdAt: int,
    updatedAt: int)

  /** Every criterion is optional; the empty record is a valid filter. */
  datatype ContaFiltros = ContaFiltros(
    status: Option<Status>,
    categoria: Option<string>,
    dataInicial: Option<int>,
    dataFinal: Option<int>)

  const SemFiltros := ContaFiltros(None, None, None, None)

  /** What the caller supplies to create a bill: a `Conta` without id, owner, status and timestamps. */
  datatype NovaConta = NovaConta(
    descricao: string,
    valor: int,
    dataVencimento: int,
    dataPagamento: Option<int>,
    categoria: string,
    observacoes: Option<string>)

  /**
   * A `Partial<Conta>`: `None` is a key that is absent from the patch. For the
   * optional fields the patch may carry `Some(None)`, an explicit `undefined`.
   */
  datatype ContaPatch = ContaPatch(
    id: Option<string>,
    userId: Option<string>,
    descricao: Option<string>,
    valor: Option<int>,
    dataVencimento: Option<int>,
    dataPagamento: Option<Option<int>>,
    status: Option<Status>,
    categoria: Option<string>,
    observacoes: Option<Option<string>>,
    createdAt: Option<int>,
    updatedAt: Option<int>)

  const PatchVazio := ContaPatch(None, None, None, None, None, None, None, None, None, None, None)

  /** The intended invariant of a bill: its status is `paga` exactly when it has a payment date. */
  predicate PagamentoConsistente(c: Conta) {
    c.status == Paga <==> c.dataPagamento.Some?
  }
}
