/**
 * The bill ledger: one list of bills for all users, mirrored as a whole under
 * the `contas` key, with per-user queries, filters, the overdue sweep and the
 * financial summary.
 */
module Contas {
  import opened Wrappers
  import opened Seqs
  import opened ContaModel
  import opened Store
  import opened Auth

  const CONTAS_STORAGE_KEY := "contas"

  /** `storage.get('contas') || []`. */
  function ContasArmazenadas(data: map<string, Value>): (cs: seq<Conta>)
    ensures CONTAS_STORAGE_KEY !in data ==> cs == []
    ensures CONTAS_STORAGE_KEY in data && data[CONTAS_STORAGE_KEY].ContasValue? ==> cs == data[CONTAS_STORAGE_KEY].contas
  {
    if CONTAS_STORAGE_KEY in data && data[CONTAS_STORAGE_KEY].ContasValue?
    then data[CONTAS_STORAGE_KEY].contas
    else []
  }

  // ---------------------------------------------------------------------------
  // Creating and updating one bill

  /** The record `criarConta` builds: the caller's fields, a new id, the owner, `pendente`, both timestamps `now`. */
  function ContaCriada(n: NovaConta, id: string, userId: string, now: int): (c: Conta)
    ensures c.id == id && c.userId == userId && c.status == Pendente
    ensures c.createdAt == now && c.updatedAt == now
    ensures && c.descricao == n.descricao && c.valor == n.valor && c.dataVencimento == n.dataVencimento
            && c.dataPagamento == n.dataPagamento && c.categoria == n.categoria && c.observacoes == n.observacoes
    ensures PagamentoConsistente(c) <==> n.dataPagamento.None?
  {
    Conta(id, userId, n.descricao, n.valor, n.dataVencimento, n.dataPagamento, Pendente,
          n.categoria, n.observacoes, now, now)
  }

  /** `{ ...contaAtual, ...atualizacao, updatedAt: now }`. */
  function Mesclar(c: Conta, p: ContaPatch, now: int): (r: Conta)
    ensures r.updatedAt == now
    ensures p == PatchVazio ==> r == c.(updatedAt := now)
    ensures p.id.Some? ==> r.id == p.id.value
    ensures p.id.None? ==> r.id == c.id
    ensures p.userId.Some? ==> r.userId == p.userId.value
    ensures p.userId.None? ==> r.userId == c.userId
    ensures p.descricao.Some? ==> r.descricao == p.descricao.value
    ensures p.descricao.None? ==> r.descricao == c.descricao
    ensures p.valor.Some? ==> r.valor == p.valor.value
    ensures p.valor.None? ==> r.valor == c.valor
    ensures p.dataVencimento.Some? ==> r.dataVencimento == p.dataVencimento.value
    ensures p.dataVencimento.None? ==> r.dataVencimento == c.dataVencimento
    ensures p.dataPagamento.Some? ==> r.dataPagamento == p.dataPagamento.value
    ensures p.dataPagamento.None? ==> r.dataPagamento == c.dataPagamento
    ensures p.status.Some? ==> r.status == p.status.value
    ensures p.status.None? ==> r.status == c.status
    ensures p.categoria.Some? ==> r.categoria == p.categoria.value
    ensures p.categoria.None? ==> r.categoria == c.categoria
    ensures p.observacoes.Some? ==> r.observacoes == p.observacoes.value
    ensures p.observacoes.None? ==> r.observacoes == c.observacoes
    ensures p.createdAt.Some? ==> r.createdAt == p.createdAt.value
    ensures p.createdAt.None? ==> r.createdAt == c.createdAt
  {
    Conta(p.id.GetOr(c.id), p.userId.GetOr(c.userId), p.descricao.GetOr(c.descricao),
          p.valor.GetOr(c.valor), p.dataVencimento.GetOr(c.dataVencimento),
          p.dataPagamento.GetOr(c.dataPagamento), p.status.GetOr(c.status),
          p.categoria.GetOr(c.categoria), p.observacoes.GetOr(c.observacoes),
          p.createdAt.GetOr(c.createdAt), now)
  }

  /** The spread of two patches: `{ ...p, ...q }`. */
  function Sobrepor(p: ContaPatch, q: ContaPatch): ContaPatch {
    ContaPatch(
      if q.id.Some? then q.id else p.id,
      if q.userId.Some? then q.userId else p.userId,
      if q.descricao.Some? then q.descricao else p.descricao,
      if q.valor.Some? then q.valor else p.valor,
      if q.dataVencimento.Some? then q.dataVencimento else p.dataVencimento,
      if q.dataPagamento.Some? then q.dataPagamento else p.dataPagamento,
      if q.status.Some? then q.status else p.status,
      if q.categoria.Some? then q.categoria else p.categoria,
      if q.observacoes.Some? then q.observacoes else p.observacoes,
      if q.createdAt.Some? then q.createdAt else p.createdAt,
      if q.updatedAt.Some? then q.updatedAt else p.updatedAt)
  }

  /** Two updates in a row are one update with the later patch laid over the earlier. */
  lemma MesclarEmSequencia(c: Conta, p: ContaPatch, q: ContaPatch, t1: int, t2: int)
    ensures Mesclar(Mesclar(c, p, t1), q, t2) == Mesclar(c, Sobrepor(p, q), t2)
  {
  }

  /** The patch `pagarConta` sends: `{ status: 'paga', dataPagamento: now }`. */
  function PatchPagamento(now: int): (p: ContaPatch)
    ensures p.status == Some(Paga) && p.dataPagamento == Some(Some(now))
    ensures p.(status := None, dataPagamento := None) == PatchVazio
  {
    PatchVazio.(status := Some(Paga), dataPagamento := Some(Some(now)))
  }

  /** Paying sets `paga` and the payment date, keeps every other field, and leaves the bill consistent. */
  lemma PagamentoQuita(c: Conta, now: int)
    ensures var r := Mesclar(c, PatchPagamento(now), now);
            && r.status == Paga && r.dataPagamento == Some(now) && r.updatedAt == now
            && r.(status := c.status, dataPagamento := c.dataPagamento, updatedAt := c.updatedAt) == c
            && PagamentoConsistente(r)
  {
  }

  /** Paying twice has the outcome of paying once, at the later instant. */
  lemma PagarDuasVezes(c: Conta, t1: int, t2: int)
    ensures Mesclar(Mesclar(c, PatchPagamento(t1), t1), PatchPagamento(t2), t2) == Mesclar(c, PatchPagamento(t2), t2)
  {
    MesclarEmSequencia(c, PatchPagamento(t1), PatchPagamento(t2), t1, t2);
  }

  // ---------------------------------------------------------------------------
  // Lookups and filters

  /** `contas.findIndex(c => c.id === contaId)`. */
  function IndiceDe(cs: seq<Conta>, contaId: string): (r: Option<nat>)
    ensures r.Some? ==> r.value < |cs| && cs[r.value].id == contaId
    ensures r.Some? ==> forall j :: 0 <= j < r.value ==> cs[j].id != contaId
    ensures r.None? <==> forall j :: 0 <= j < |cs| ==> cs[j].id != contaId
  {
    FirstIndex(cs, (c: Conta) => c.id == contaId)
  }

  /** `contas.filter(c => c.id !== contaId)`. */
  function SemId(cs: seq<Conta>, contaId: string): (r: seq<Conta>)
    ensures IsSubsequence(r, cs)
    ensures forall i :: 0 <= i < |r| ==> r[i].id != contaId
    ensures forall c: Conta :: c.id != contaId ==> multiset(r)[c] == multiset(cs)[c]
    ensures (forall i :: 0 <= i < |cs| ==> cs[i].id != contaId) ==> r == cs
  {
    var p := (c: Conta) => c.id != contaId;
    assert (forall i :: 0 <= i < |cs| ==> p(cs[i])) ==> Filter(cs, p) == cs by {
      if forall i :: 0 <= i < |cs| ==> p(cs[i]) {
        FilterKeepsAll(cs, p);
      }
    }
    Filter(cs, p)
  }

  /** `contas.filter(c => c.userId === userId)`. */
  function DoUsuario(cs: seq<Conta>, userId: string): (r: seq<Conta>)
    ensures IsSubsequence(r, cs)
    ensures forall i :: 0 <= i < |r| ==> r[i].userId == userId
    ensures forall c: Conta :: multiset(r)[c] == if c.userId == userId then multiset(cs)[c] else 0
    ensures (forall i :: 0 <= i < |cs| ==> cs[i].userId == userId) ==> r == cs
  {
    var p := (c: Conta) => c.userId == userId;
    assert (forall i :: 0 <= i < |cs| ==> p(cs[i])) ==> Filter(cs, p) == cs by {
      if forall i :: 0 <= i < |cs| ==> p(cs[i]) {
        FilterKeepsAll(cs, p);
      }
    }
    Filter(cs, p)
  }

  /**
   * The predicate of `aplicarFiltros`. A criterion imposes something only when it is
   * truthy: an empty category is no criterion; a date, like every `Date`, always is.
   * Both date bounds are inclusive.
   */
  function AtendeFiltros(c: Conta, f: ContaFiltros): (b: bool)
    ensures f == SemFiltros || f == SemFiltros.(categoria := Some("")) ==> b
    ensures f.status.Some? && c.status != f.status.value ==> !b
    ensures f.categoria.Some? && f.categoria.value != "" && c.categoria != f.categoria.value ==> !b
    ensures f.dataInicial.Some? && c.dataVencimento < f.dataInicial.value ==> !b
    ensures f.dataFinal.Some? && f.dataFinal.value < c.dataVencimento ==> !b
    ensures (&& f.status == Some(c.status) && f.categoria.None?
             && f.dataInicial.Some? && f.dataFinal.Some?
             && f.dataInicial.value <= c.dataVencimento <= f.dataFinal.value) ==> b
  {
    && (f.status.Some? ==> c.status == f.status.value)
    && (f.categoria.Some? && f.categoria.value != "" ==> c.categoria == f.categoria.value)
    && (f.dataInicial.Some? ==> f.dataInicial.value <= c.dataVencimento)
    && (f.dataFinal.Some? ==> c.dataVencimento <= f.dataFinal.value)
  }

  /** `aplicarFiltros`: the bills meeting every present criterion, in ledger order. */
  function AplicarFiltros(cs: seq<Conta>, f: ContaFiltros): (r: seq<Conta>)
    ensures IsSubsequence(r, cs)
    ensures forall i :: 0 <= i < |r| ==> AtendeFiltros(r[i], f)
    ensures forall c: Conta :: multiset(r)[c] == if AtendeFiltros(c, f) then multiset(cs)[c] else 0
    ensures f == SemFiltros || f == SemFiltros.(categoria := Some("")) ==> r == cs
  {
    var p := (c: Conta) => AtendeFiltros(c, f);
    assert f == SemFiltros || f == SemFiltros.(categoria := Some("")) ==> Filter(cs, p) == cs by {
      if f == SemFiltros || f == SemFiltros.(categoria := Some("")) {
        FilterKeepsAll(cs, p);
      }
    }
    Filter(cs, p)
  }

  /** Whether a bill is in the view of user `userId` under `filtros`. */
  predicate Visivel(c: Conta, userId: Option<string>, filtros: Option<ContaFiltros>) {
    userId == Some(c.userId) && (filtros.None? || AtendeFiltros(c, filtros.value))
  }

  /** `contas.map(c => c.categoria)`. */
  function CategoriasDe(cs: seq<Conta>): (r: seq<string>)
    ensures |r| == |cs| && forall i :: 0 <= i < |cs| ==> r[i] == cs[i].categoria
  {
    seq(|cs|, i requires 0 <= i < |cs| => cs[i].categoria)
  }

  /** `Array.from(new Set(contas.map(c => c.categoria)))`. */
  function Categorias(cs: seq<Conta>): (r: seq<string>)
    ensures NoDuplicates(r)
    ensures forall k :: k in r <==> exists i :: 0 <= i < |cs| && cs[i].categoria == k
    ensures IsSubsequence(r, CategoriasDe(cs))
    ensures forall i, j :: 0 <= i < j < |r| ==> SeenBefore(CategoriasDe(cs), r[i], r[j])
  {
    Distinct(CategoriasDe(cs))
  }

  // ---------------------------------------------------------------------------
  // The overdue sweep

  /** A bill the sweep must move: still `pendente` with its due date before `now`. */
  predicate Vencida(c: Conta, now: int) {
    c.status == Pendente && c.dataVencimento < now
  }

  predicate AlgumaVencida(cs: seq<Conta>, now: int) {
    exists i :: 0 <= i < |cs| && Vencida(cs[i], now)
  }

  function MarcarAtrasada(c: Conta, now: int): Conta {
    if Vencida(c, now) then c.(status := Atrasada, updatedAt := now) else c
  }

  /**
   * What `verificarContasAtrasadas` makes of the ledger: stale bills become
   * `atrasada` stamped `now`, all others stay as they are, no stale bill is left,
   * and the ledger changes exactly when some bill was stale.
   */
  function MarcarAtrasadas(cs: seq<Conta>, now: int): (r: seq<Conta>)
    ensures |r| == |cs|
    ensures forall i :: 0 <= i < |cs| && Vencida(cs[i], now) ==>
              && r[i].status == Atrasada && r[i].updatedAt == now
              && r[i].(status := Pendente, updatedAt := cs[i].updatedAt) == cs[i]
    ensures forall i :: 0 <= i < |cs| && !Vencida(cs[i], now) ==> r[i] == cs[i]
    ensures !AlgumaVencida(r, now)
    ensures r == cs <==> !AlgumaVencida(cs, now)
    ensures forall i :: 0 <= i < |cs| && PagamentoConsistente(cs[i]) ==> PagamentoConsistente(r[i])
  {
    var r := seq(|cs|, i requires 0 <= i < |cs| => MarcarAtrasada(cs[i], now));
    assert AlgumaVencida(cs, now) ==> r != cs by {
      if AlgumaVencida(cs, now) {
        var i :| 0 <= i < |cs| && Vencida(cs[i], now);
        assert r[i].status != cs[i].status;
      }
    }
    r
  }

  /** A second sweep at the same instant finds nothing to do. */
  lemma VarreduraIdempotente(cs: seq<Conta>, now: int)
    ensures MarcarAtrasadas(MarcarAtrasadas(cs, now), now) == MarcarAtrasadas(cs, now)
  {
  }

  lemma MarcarAtrasadasCons(cs: seq<Conta>, now: int)
    requires cs != []
    ensures MarcarAtrasadas(cs, now) == [MarcarAtrasada(cs[0], now)] + MarcarAtrasadas(cs[1..], now)
  {
  }

  /** The sweep never moves a bill from one user to another: it commutes with the per-user view. */
  lemma {:induction false} VarreduraPorUsuario(cs: seq<Conta>, userId: string, now: int)
    ensures DoUsuario(MarcarAtrasadas(cs, now), userId) == MarcarAtrasadas(DoUsuario(cs, userId), now)
  {
    if cs == [] {
    } else {
      var p := (c: Conta) => c.userId == userId;
      MarcarAtrasadasCons(cs, now);
      var m := MarcarAtrasadas(cs, now);
      assert m[0] == MarcarAtrasada(cs[0], now) && m[1..] == MarcarAtrasadas(cs[1..], now);
      VarreduraPorUsuario(cs[1..], userId, now);
      assert DoUsuario(m, userId) == Filter(m, p);
      assert DoUsuario(cs, userId) == Filter(cs, p);
      if cs[0].userId == userId {
        assert Filter(cs, p) == [cs[0]] + Filter(cs[1..], p);
        MarcarAtrasadasCons(Filter(cs, p), now);
        assert Filter(cs, p)[1..] == Filter(cs[1..], p);
      }
    }
  }

  // ---------------------------------------------------------------------------
  // The financial summary

  datatype Resumo = Resumo(total: int, pagas: int, pendentes: int, atrasadas: int)

  const ResumoZero := Resumo(0, 0, 0, 0)

  /** One step of the `reduce`: add `valor` to the total and to the bucket of the bill's status. */
  function Acumular(acc: Resumo, c: Conta): (r: Resumo)
    ensures r.total == acc.total + c.valor
    ensures r.pagas == acc.pagas + (if c.status == Paga then c.valor else 0)
    ensures r.pendentes == acc.pendentes + (if c.status == Pendente then c.valor else 0)
    ensures r.atrasadas == acc.atrasadas + (if c.status == Atrasada then c.valor else 0)
  {
    var acc := acc.(total := acc.total + c.valor);
    match c.status
    case Paga => acc.(pagas := acc.pagas + c.valor)
    case Pendente => acc.(pendentes := acc.pendentes + c.valor)
    case Atrasada => acc.(atrasadas := acc.atrasadas + c.valor)
  }

  /** `cs.reduce(Acumular, acc)`, left to right. */
  function Reduzir(acc: Resumo, cs: seq<Conta>): (r: Resumo)
    ensures cs == [] ==> r == acc
    ensures r.total - acc.total == (r.pagas - acc.pagas) + (r.pendentes - acc.pendentes) + (r.atrasadas - acc.atrasadas)
    decreases |cs|
  {
    if cs == [] then acc else Reduzir(Acumular(acc, cs[0]), cs[1..])
  }

  /** Reference sums: every amount, and the amounts of the bills with status `s`. */
  function Soma(cs: seq<Conta>): int {
    if cs == [] then 0 else cs[0].valor + Soma(cs[1..])
  }

  function SomaStatus(cs: seq<Conta>, s: Status): int {
    if cs == [] then 0 else (if cs[0].status == s then cs[0].valor else 0) + SomaStatus(cs[1..], s)
  }

  lemma {:induction false} ReduzirSoma(acc: Resumo, cs: seq<Conta>)
    ensures Reduzir(acc, cs) == Resumo(acc.total + Soma(cs), acc.pagas + SomaStatus(cs, Paga),
                                       acc.pendentes + SomaStatus(cs, Pendente),
                                       acc.atrasadas + SomaStatus(cs, Atrasada))
    decreases |cs|
  {
    if cs != [] {
      ReduzirSoma(Acumular(acc, cs[0]), cs[1..]);
    }
  }

  /** Every bill is in exactly one bucket. */
  lemma {:induction false} SomaParticiona(cs: seq<Conta>)
    ensures Soma(cs) == SomaStatus(cs, Paga) + SomaStatus(cs, Pendente) + SomaStatus(cs, Atrasada)
  {
    if cs != [] {
      SomaParticiona(cs[1..]);
    }
  }

  /** `getResumoFinanceiro`'s fold: the total is the sum of the three buckets, each the sum of its bills. */
  function Resumir(cs: seq<Conta>): (r: Resumo)
    ensures r.total == r.pagas + r.pendentes + r.atrasadas
    ensures r.total == Soma(cs)
    ensures r.pagas == SomaStatus(cs, Paga)
    ensures r.pendentes == SomaStatus(cs, Pendente)
    ensures r.atrasadas == SomaStatus(cs, Atrasada)
    ensures cs == [] ==> r == ResumoZero
  {
    ReduzirSoma(ResumoZero, cs);
    SomaParticiona(cs);
    Reduzir(ResumoZero, cs)
  }

  function Somar(a: Resumo, b: Resumo): Resumo {
    Resumo(a.total + b.total, a.pagas + b.pagas, a.pendentes + b.pendentes, a.atrasadas + b.atrasadas)
  }

  lemma {:induction false} SomaConcat(a: seq<Conta>, b: seq<Conta>)
    ensures Soma(a + b) == Soma(a) + Soma(b)
    ensures forall s :: SomaStatus(a + b, s) == SomaStatus(a, s) + SomaStatus(b, s)
  {
    if a != [] {
      SomaConcat(a[1..], b);
      assert (a + b)[1..] == a[1..] + b;
    } else {
      assert a + b == b;
    }
  }

  /** The summary of two lists is the sum of their summaries, so the order of the bills does not matter. */
  lemma ResumirConcat(a: seq<Conta>, b: seq<Conta>)
    ensures Resumir(a + b) == Somar(Resumir(a), Resumir(b))
    ensures Resumir(a + b) == Resumir(b + a)
  {
    SomaConcat(a, b);
    SomaConcat(b, a);
  }

  /** The sweep moves amounts from `pendentes` to `atrasadas` only: total and `pagas` are unchanged. */
  lemma {:induction false} VarreduraPreservaTotais(cs: seq<Conta>, now: int)
    ensures var antes, depois := Resumir(cs), Resumir(MarcarAtrasadas(cs, now));
            && depois.total == antes.total && depois.pagas == antes.pagas
            && depois.pendentes + depois.atrasadas == antes.pendentes + antes.atrasadas
  {
    if cs != [] {
      MarcarAtrasadasCons(cs, now);
      VarreduraPreservaTotais(cs[1..], now);
      var m := MarcarAtrasadas(cs, now);
      assert m[1..] == MarcarAtrasadas(cs[1..], now);
    }
  }

  // ---------------------------------------------------------------------------
  // The service

  class ContasService {
    const storage: Storage
    const auth: AuthService
    /** The published ledger (`contasSubject.value`): every user's bills. */
    var contas: seq<Conta>

    /** Until `LoadContas` runs, the ledger is empty. */
    constructor (storage: Storage, auth: AuthService)
      ensures this.storage == storage && this.auth == auth && contas == []
    {
      this.storage := storage;
      this.auth := auth;
      contas := [];
    }

    /** `loadContas`: publishes the stored list, or the empty list when nothing is stored. */
    method LoadContas()
      modifies this
      ensures contas == ContasArmazenadas(storage.data)
    {
      contas := ContasArmazenadas(storage.data);
    }

    /**
     * `criarConta`: with no current user, or when the write fails, nothing
     * changes and there is no bill (`null`); otherwise the new list, one bill
     * longer, is written and then published.
     */
    method CriarConta(conta: NovaConta, novoId: string, now: int) returns (r: Option<Conta>)
      modifies this, storage`data
      ensures auth.CurrentId().None? || !storage.writable ==>
                r.None? && contas == old(contas) && storage.data == old(storage.data)
      ensures auth.CurrentId().Some? && storage.writable ==>
                && r == Some(ContaCriada(conta, novoId, auth.CurrentId().value, now))
                && contas == old(contas) + [r.value]
                && storage.data == old(storage.data)[CONTAS_STORAGE_KEY := ContasValue(contas)]
    {
      var userId := auth.CurrentId();
      if userId.None? {
        return None;
      }
      var nova := ContaCriada(conta, novoId, userId.value, now);
      var novas := contas + [nova];
      var written := storage.Set(CONTAS_STORAGE_KEY, ContasValue(novas));
      if !written {
        return None;
      }
      contas := novas;
      return Some(nova);
    }

    /**
     * `atualizarConta`: only the first bill with the id is merged with the
     * patch. The live list is changed before the write, so a failed write leaves
     * the ledger changed and the store as it was.
     */
    method AtualizarConta(contaId: string, atualizacao: ContaPatch, now: int) returns (ok: bool)
      modifies this, storage`data
      ensures IndiceDe(old(contas), contaId).None? ==>
                !ok && contas == old(contas) && storage.data == old(storage.data)
      ensures IndiceDe(old(contas), contaId).Some? ==>
                var i := IndiceDe(old(contas), contaId).value;
                && contas == old(contas)[i := Mesclar(old(contas)[i], atualizacao, now)]
                && ok == storage.writable
                && storage.data == if ok then old(storage.data)[CONTAS_STORAGE_KEY := ContasValue(contas)]
                                   else old(storage.data)
    {
      var index := IndiceDe(contas, contaId);
      if index.None? {
        return false;
      }
      var i := index.value;
      contas := contas[i := Mesclar(contas[i], atualizacao, now)];
      ok := storage.Set(CONTAS_STORAGE_KEY, ContasValue(contas));
    }

    /** `pagarConta`: an update to `paga` with the payment date `now`. */
    method PagarConta(contaId: string, now: int) returns (ok: bool)
      modifies this, storage`data
      ensures IndiceDe(old(contas), contaId).None? ==>
                !ok && contas == old(contas) && storage.data == old(storage.data)
      ensures IndiceDe(old(contas), contaId).Some? ==>
                var i := IndiceDe(old(contas), contaId).value;
                && |contas| == |old(contas)|
                && contas[i].status == Paga && contas[i].dataPagamento == Some(now) && contas[i].updatedAt == now
                && contas[i].(status := old(contas)[i].status, dataPagamento := old(contas)[i].dataPagamento,
                              updatedAt := old(contas)[i].updatedAt) == old(contas)[i]
                && (forall j :: 0 <= j < |contas| && j != i ==> contas[j] == old(contas)[j])
                && ok == storage.writable
                && storage.data == if ok then old(storage.data)[CONTAS_STORAGE_KEY := ContasValue(contas)]
                                   else old(storage.data)
    {
      ghost var before := contas;
      ok := AtualizarConta(contaId, PatchPagamento(now), now);
      if IndiceDe(before, contaId).Some? {
        PagamentoQuita(before[IndiceDe(before, contaId).value], now);
      }
    }

    /** `deletarConta`: every bill with the id goes, the rest keep their order; an absent id is a success. */
    method DeletarConta(contaId: string) returns (ok: bool)
      modifies this, storage`data
      ensures ok == storage.writable
      ensures contas == if ok then SemId(old(contas), contaId) else old(contas)
      ensures storage.data == if ok then old(storage.data)[CONTAS_STORAGE_KEY := ContasValue(contas)]
                              else old(storage.data)
    {
      var restantes := SemId(contas, contaId);
      ok := storage.Set(CONTAS_STORAGE_KEY, ContasValue(restantes));
      if ok {
        contas := restantes;
      }
    }

    /**
     * `getContasDoUsuario`: nothing without a current user; otherwise exactly
     * that user's bills meeting the filters, in ledger order.
     */
    function GetContasDoUsuario(filtros: Option<ContaFiltros>): (r: seq<Conta>)
      reads this, auth
      ensures auth.CurrentId().None? ==> r == []
      ensures IsSubsequence(r, contas)
      ensures forall i :: 0 <= i < |r| ==> auth.CurrentId() == Some(r[i].userId)
      ensures filtros.Some? ==> forall i :: 0 <= i < |r| ==> AtendeFiltros(r[i], filtros.value)
      ensures forall c: Conta :: multiset(r)[c] == if Visivel(c, auth.CurrentId(), filtros) then multiset(contas)[c] else 0
    {
      match auth.CurrentId()
      case None => []
      case Some(userId) =>
        var doUsuario := DoUsuario(contas, userId);
        match filtros
        case None => doUsuario
        case Some(f) =>
          SubsequenceTransitive(AplicarFiltros(doUsuario, f), doUsuario, contas);
          AplicarFiltros(doUsuario, f)
    }

    /** `getContaPorId`: the first bill with the id, the one `atualizarConta` would change. */
    function GetContaPorId(contaId: string): (r: Option<Conta>)
      reads this
      ensures r.None? <==> forall i :: 0 <= i < |contas| ==> contas[i].id != contaId
      ensures r.Some? ==> IndiceDe(contas, contaId).Some? && r.value == contas[IndiceDe(contas, contaId).value]
      ensures r.Some? ==> r.value.id == contaId
    {
      match IndiceDe(contas, contaId)
      case None => None
      case Some(i) => Some(contas[i])
    }

    /**
     * `verificarContasAtrasadas`: walks the ledger in place moving stale bills
     * to `atrasada`, and writes the list only if some bill changed.
     */
    method VerificarContasAtrasadas(now: int)
      modifies this, storage`data
      ensures contas == MarcarAtrasadas(old(contas), now)
      ensures storage.data == if AlgumaVencida(old(contas), now) && storage.writable
                              then old(storage.data)[CONTAS_STORAGE_KEY := ContasValue(contas)]
                              else old(storage.data)
    {
      ghost var before := contas;
      var atualizacaoNecessaria := false;
      var i := 0;
      while i < |contas|
        invariant 0 <= i <= |contas| == |before|
        invariant forall j :: 0 <= j < i ==> contas[j] == MarcarAtrasada(before[j], now)
        invariant forall j :: i <= j < |contas| ==> contas[j] == before[j]
        invariant atualizacaoNecessaria <==> exists j :: 0 <= j < i && Vencida(before[j], now)
        invariant storage.data == old(storage.data)
      {
        if contas[i].status == Pendente && contas[i].dataVencimento < now {
          contas := contas[i := contas[i].(status := Atrasada, updatedAt := now)];
          atualizacaoNecessaria := true;
        }
        i := i + 1;
      }
      assert contas == MarcarAtrasadas(before, now);
      if atualizacaoNecessaria {
        var written := storage.Set(CONTAS_STORAGE_KEY, ContasValue(contas));
      }
    }

    /** `getCategorias`: each category of the current user's bills exactly once, in order of first use. */
    function GetCategorias(): (r: seq<string>)
      reads this, auth
      ensures NoDuplicates(r)
      ensures forall k :: k in r <==> exists i :: 0 <= i < |contas| && auth.CurrentId() == Some(contas[i].userId) && contas[i].categoria == k
      ensures forall i, j :: 0 <= i < j < |r| ==> SeenBefore(CategoriasDe(GetContasDoUsuario(None)), r[i], r[j])
    {
      var doUsuario := GetContasDoUsuario(None);
      assert forall c :: c in doUsuario <==> c in contas && auth.CurrentId() == Some(c.userId) by {
        forall c ensures c in doUsuario <==> c in contas && auth.CurrentId() == Some(c.userId) {
          assert c in doUsuario <==> multiset(doUsuario)[c] > 0;
          assert c in contas <==> multiset(contas)[c] > 0;
        }
      }
      Categorias(doUsuario)
    }

    /** `getResumoFinanceiro` over the current user's bills; all zero with no user. */
    function GetResumoFinanceiro(): (r: Resumo)
      reads this, auth
      ensures r.total == r.pagas + r.pendentes + r.atrasadas
      ensures r.pagas == SomaStatus(GetContasDoUsuario(None), Paga)
      ensures r.pendentes == SomaStatus(GetContasDoUsuario(None), Pendente)
      ensures r.atrasadas == SomaStatus(GetContasDoUsuario(None), Atrasada)
      ensures auth.CurrentId().None? ==> r == ResumoZero
    {
      Resumir(GetContasDoUsuario(None))
    }
  }
}
