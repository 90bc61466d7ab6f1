/**
 The tenant-catalog and directory operations of `BarbeariaService`, as
 transitions of the abstract document store. Fresh document ids (Firestore's
 auto-generated ids) and `serverTimestamp()` (`now`) are parameters; whether
 the backend answers a call is a `Link`.
 */
module BarbeariaService {
  import opened Wrappers
  import opened Ordering
  import opened Entities
  import opened DocStore
  import opened Queries

  // ===== Tenants =====

  /**
   `verificarContribuinte`: whether a tenant document exists under `key`. A
   backend that is unconfigured or does not answer is logged and reported as
   "does not exist", never as an error.
   */
  function VerificarContribuinte(s: Store, key: string, link: Link): (existe: bool)
    ensures existe <==> link.Up? && Get(s, TenantPath(key)).Some?
    ensures link.Down? ==> !existe
  {
    match link
    case Down => false
    case Up => key in s.barbearias
  }

  /** `buscarBarbearia`: the tenant as read back (id taken from the document key), or none. */
  function BuscarBarbearia(s: Store, key: string, link: Link): (r: Result<Option<Barbearia>, Erro>)
    ensures r.Failure? <==> link.Down?
    ensures r.Success? && r.value.Some? ==>
      Get(s, TenantPath(key)).Some? && r.value.value == Get(s, TenantPath(key)).value.b.(id := key)
    ensures r.Success? ==> (r.value.None? <==> Get(s, TenantPath(key)).None?)
  {
    match link
    case Down => Failure(Indisponivel)
    case Up => Success(if key in s.barbearias then Some(s.barbearias[key].(id := key)) else None)
  }

  /** The auto-generated ids of the documents provisioning creates besides the tenant. */
  datatype SeedIds = SeedIds(todos: string, corte: string, barba: string, pacote: string)

  ghost predicate DistinctSeedIds(ids: SeedIds)
  {
    ids.corte != ids.barba && ids.corte != ids.pacote && ids.barba != ids.pacote
  }

  /** The ids name no document yet, as auto-generated ids never do. */
  ghost predicate FreshSeedIds(s: Store, key: string, ids: SeedIds)
  {
    && DistinctSeedIds(ids)
    && Get(s, DocPath(key, Funcionarios, ids.todos)).None?
    && Get(s, DocPath(key, Servicos, ids.corte)).None?
    && Get(s, DocPath(key, Servicos, ids.barba)).None?
    && Get(s, DocPath(key, Servicos, ids.pacote)).None?
  }

  const NomeTodos: string := "Todos os Funcionários"

  function NovaBarbearia(dados: DadosBarbearia, criadoPor: string, now: Timestamp): Barbearia
  {
    Barbearia(
      id := dados.contribuinte, contribuinte := dados.contribuinte,
      nomeEstabelecimento := dados.nomeEstabelecimento, telefone := dados.telefone,
      endereco := dados.endereco, horarioAbertura := dados.horarioAbertura,
      horarioFechamento := dados.horarioFechamento, diasFuncionamento := dados.diasFuncionamento,
      criadoPor := criadoPor, ativo := true, criadoEm := now, atualizadoEm := now)
  }

  /** The default "all employees" employee. */
  function FuncionarioTodos(id: string, now: Timestamp): Funcionario
  {
    Funcionario(
      id := id, nome := NomeTodos, telefone := "", email := "", especialidades := [],
      horarioTrabalho := map[], ativo := true, criadoEm := now, atualizadoEm := now)
  }

  function ServicoPadrao(id: string, nome: string, descricao: string, duracao: int, preco: Cents, categoria: string, now: Timestamp): Servico
  {
    Servico(id, nome, descricao, duracao, preco, categoria, true, now, now)
  }

  /** The three seed services: a cut, a beard trim and the two together. */
  function Corte(id: string, now: Timestamp): Servico
  {
    ServicoPadrao(id, "Corte Masculino", "Corte de cabelo masculino tradicional", 30, 2500, "Corte", now)
  }

  function Barba(id: string, now: Timestamp): Servico
  {
    ServicoPadrao(id, "Barba", "Aparar e modelar barba", 20, 1500, "Barba", now)
  }

  function Pacote(id: string, now: Timestamp): Servico
  {
    ServicoPadrao(id, "Corte + Barba", "Pacote completo corte e barba", 45, 3500, "Pacote", now)
  }

  /** The five writes of the provisioning batch, in the order they are queued. */
  function LoteProvisionamento(dados: DadosBarbearia, criadoPor: string, now: Timestamp, ids: SeedIds): (ws: seq<Write>)
    requires DistinctSeedIds(ids)
    ensures |ws| == 5
    ensures WellFormed(ws) && DistinctPaths(ws)
  {
    var key := dados.contribuinte;
    [ Write(TenantPath(key), BarbeariaDoc(NovaBarbearia(dados, criadoPor, now))),
      Write(DocPath(key, Funcionarios, ids.todos), FuncionarioDoc(FuncionarioTodos(ids.todos, now))),
      Write(DocPath(key, Servicos, ids.corte), ServicoDoc(Corte(ids.corte, now))),
      Write(DocPath(key, Servicos, ids.barba), ServicoDoc(Barba(ids.barba, now))),
      Write(DocPath(key, Servicos, ids.pacote), ServicoDoc(Pacote(ids.pacote, now))) ]
  }

  /** The five documents provisioning writes. */
  ghost predicate SeedPath(key: string, ids: SeedIds, q: Path)
  {
    || q == TenantPath(key)
    || q == DocPath(key, Funcionarios, ids.todos)
    || q == DocPath(key, Servicos, ids.corte)
    || q == DocPath(key, Servicos, ids.barba)
    || q == DocPath(key, Servicos, ids.pacote)
  }

  /** The store holds the tenant and its seed catalog exactly as provisioning writes them. */
  ghost predicate Provisioned(s: Store, dados: DadosBarbearia, criadoPor: string, now: Timestamp, ids: SeedIds)
  {
    var key := dados.contribuinte;
    && key in s.barbearias
    && var b := s.barbearias[key];
    && b.id == key && b.contribuinte == key && b.ativo && b.criadoPor == criadoPor
    && b.nomeEstabelecimento == dados.nomeEstabelecimento && b.telefone == dados.telefone
    && b.endereco == dados.endereco && b.horarioAbertura == dados.horarioAbertura
    && b.horarioFechamento == dados.horarioFechamento && b.diasFuncionamento == dados.diasFuncionamento
    && b.criadoEm == now && b.atualizadoEm == now
    && ids.todos in Of(s, key).funcionarios
    && var f := Of(s, key).funcionarios[ids.todos];
    && f.id == ids.todos && f.nome == "Todos os Funcionários" && f.especialidades == [] && f.ativo
    && SeedService(s, key, ids.corte, "Corte Masculino", 30, 2500, "Corte")
    && SeedService(s, key, ids.barba, "Barba", 20, 1500, "Barba")
    && SeedService(s, key, ids.pacote, "Corte + Barba", 45, 3500, "Pacote")
  }

  ghost predicate SeedService(s: Store, key: string, id: string, nome: string, duracao: int, preco: Cents, categoria: string)
  {
    && id in Of(s, key).servicos
    && var sv := Of(s, key).servicos[id];
    && sv.id == id && sv.nome == nome && sv.duracao == duracao && sv.preco == preco
    && sv.categoria == categoria && sv.ativo
  }

  /**
   `criarBarbearia`: refuses a key the existence check reports as taken;
   otherwise commits the tenant, the "all employees" employee and the three
   seed services in one batch, which takes effect entirely or not at all.
   */
  function CriarBarbearia(
    s: Store, dados: DadosBarbearia, criadoPor: string, now: Timestamp, ids: SeedIds,
    lookup: Link, commit: Link): (r: Result<Store, Erro>)
    requires DistinctSeedIds(ids)
    ensures VerificarContribuinte(s, dados.contribuinte, lookup) ==> r == Failure(JaCadastrado)
    ensures !VerificarContribuinte(s, dados.contribuinte, lookup) && commit.Down? ==> r == Failure(Indisponivel)
    ensures r.Success? <==> !VerificarContribuinte(s, dados.contribuinte, lookup) && commit.Up?
    ensures r.Success? ==> Provisioned(r.value, dados, criadoPor, now, ids)
    ensures r.Success? ==> forall q :: !SeedPath(dados.contribuinte, ids, q) ==> Get(r.value, q) == Get(s, q)
  {
    if VerificarContribuinte(s, dados.contribuinte, lookup) then Failure(JaCadastrado)
    else
      var ws := LoteProvisionamento(dados, criadoPor, now, ids);
      var r := Commit(s, ws, commit);
      if r.Success? then
        assert forall q :: !SeedPath(dados.contribuinte, ids, q) ==> !Targets(ws, q);
        assert Get(r.value, ws[0].path) == Some(ws[0].doc);
        assert Get(r.value, ws[1].path) == Some(ws[1].doc);
        assert Get(r.value, ws[2].path) == Some(ws[2].doc);
        assert Get(r.value, ws[3].path) == Some(ws[3].doc);
        assert Get(r.value, ws[4].path) == Some(ws[4].doc);
        r
      else r
  }

  /** The store after a call that returns a new store on success and throws otherwise. */
  function After(s: Store, r: Result<Store, Erro>): Store
  {
    if r.Success? then r.value else s
  }

  /**
   Provisioning is all-or-nothing: for a new key, afterwards either all five
   documents exist or none of them does.
   */
  lemma ProvisioningAllOrNothing(
    s: Store, dados: DadosBarbearia, criadoPor: string, now: Timestamp, ids: SeedIds, lookup: Link, commit: Link)
    requires FreshSeedIds(s, dados.contribuinte, ids)
    requires dados.contribuinte !in s.barbearias
    ensures var t := After(s, CriarBarbearia(s, dados, criadoPor, now, ids, lookup, commit));
      var key := dados.contribuinte;
      (forall q :: SeedPath(key, ids, q) ==> Get(t, q).Some?) ||
      (forall q :: SeedPath(key, ids, q) ==> Get(t, q).None?)
  {
    var r := CriarBarbearia(s, dados, criadoPor, now, ids, lookup, commit);
    if r.Success? {
      var key := dados.contribuinte;
      assert Provisioned(r.value, dados, criadoPor, now, ids);
      forall q | SeedPath(key, ids, q) ensures Get(r.value, q).Some? {
      }
    }
  }

  /**
   For a new key and fresh ids, a successful provisioning adds exactly five
   documents: each of the five paths was empty and is now filled, and every
   other document is as it was.
   */
  lemma ProvisioningAddsFiveDocuments(
    s: Store, dados: DadosBarbearia, criadoPor: string, now: Timestamp, ids: SeedIds, lookup: Link)
    requires FreshSeedIds(s, dados.contribuinte, ids)
    requires dados.contribuinte !in s.barbearias
    ensures var r := CriarBarbearia(s, dados, criadoPor, now, ids, lookup, Up);
      && r.Success?
      && (forall q :: SeedPath(dados.contribuinte, ids, q) ==> Get(s, q).None? && Get(r.value, q).Some?)
      && (forall q :: !SeedPath(dados.contribuinte, ids, q) ==> Get(r.value, q) == Get(s, q))
  {
    var r := CriarBarbearia(s, dados, criadoPor, now, ids, lookup, Up);
    assert Provisioned(r.value, dados, criadoPor, now, ids);
  }

  /**
   Provisioning the same key twice in a row: the second call is refused and
   the first call's documents are untouched.
   */
  lemma ProvisioningTwiceRefused(
    s: Store, dados: DadosBarbearia, criadoPor: string, now: Timestamp, ids: SeedIds,
    criadoPor2: string, now2: Timestamp, ids2: SeedIds)
    requires DistinctSeedIds(ids) && DistinctSeedIds(ids2)
    requires CriarBarbearia(s, dados, criadoPor, now, ids, Up, Up).Success?
    ensures var t := CriarBarbearia(s, dados, criadoPor, now, ids, Up, Up).value;
      && CriarBarbearia(t, dados, criadoPor2, now2, ids2, Up, Up) == Failure(JaCadastrado)
      && Provisioned(After(t, CriarBarbearia(t, dados, criadoPor2, now2, ids2, Up, Up)), dados, criadoPor, now, ids)
  {
    var t := CriarBarbearia(s, dados, criadoPor, now, ids, Up, Up).value;
    assert Provisioned(t, dados, criadoPor, now, ids);
  }

  /**
   The existence check swallows backend failures: when the lookup fails but
   the commit goes through, an existing tenant document is replaced by a
   freshly provisioned one.
   */
  lemma FailedLookupReprovisions(
    s: Store, dados: DadosBarbearia, criadoPor: string, now: Timestamp, ids: SeedIds)
    requires DistinctSeedIds(ids)
    requires dados.contribuinte in s.barbearias
    ensures CriarBarbearia(s, dados, criadoPor, now, ids, Up, Up) == Failure(JaCadastrado)
    ensures var r := CriarBarbearia(s, dados, criadoPor, now, ids, Down, Up);
      r.Success? && r.value.barbearias[dados.contribuinte] == NovaBarbearia(dados, criadoPor, now)
  {
    var r := CriarBarbearia(s, dados, criadoPor, now, ids, Down, Up);
    assert Provisioned(r.value, dados, criadoPor, now, ids);
  }

  /** After a successful provisioning the existence check finds the tenant. */
  lemma ProvisionedTenantExists(
    s: Store, dados: DadosBarbearia, criadoPor: string, now: Timestamp, ids: SeedIds, lookup: Link)
    requires DistinctSeedIds(ids)
    requires CriarBarbearia(s, dados, criadoPor, now, ids, lookup, Up).Success?
    ensures VerificarContribuinte(CriarBarbearia(s, dados, criadoPor, now, ids, lookup, Up).value, dados.contribuinte, Up)
  {
    assert Provisioned(CriarBarbearia(s, dados, criadoPor, now, ids, lookup, Up).value, dados, criadoPor, now, ids);
  }

  // ===== Partial updates =====

  /**
   The field-by-field meaning of an employee patch: the fields it names are
   replaced, the others stay, and `atualizadoEm` is the update's time.
   */
  ghost predicate PatchedFuncionario(f: Funcionario, p: PatchFuncionario, now: Timestamp, g: Funcionario)
  {
    && g.atualizadoEm == now
    && (if p.id.Some? then g.id == p.id.value else g.id == f.id)
    && (if p.criadoEm.Some? then g.criadoEm == p.criadoEm.value else g.criadoEm == f.criadoEm)
    && (if p.nome.Some? then g.nome == p.nome.value else g.nome == f.nome)
    && (if p.telefone.Some? then g.telefone == p.telefone.value else g.telefone == f.telefone)
    && (if p.email.Some? then g.email == p.email.value else g.email == f.email)
    && (if p.especialidades.Some? then g.especialidades == p.especialidades.value else g.especialidades == f.especialidades)
    && (if p.horarioTrabalho.Some? then g.horarioTrabalho == p.horarioTrabalho.value else g.horarioTrabalho == f.horarioTrabalho)
    && (if p.ativo.Some? then g.ativo == p.ativo.value else g.ativo == f.ativo)
  }

  /** The field-by-field meaning of a tenant patch, as for employees. */
  ghost predicate PatchedBarbearia(b: Barbearia, p: PatchBarbearia, now: Timestamp, c: Barbearia)
  {
    && c.atualizadoEm == now
    && (if p.id.Some? then c.id == p.id.value else c.id == b.id)
    && (if p.contribuinte.Some? then c.contribuinte == p.contribuinte.value else c.contribuinte == b.contribuinte)
    && (if p.criadoPor.Some? then c.criadoPor == p.criadoPor.value else c.criadoPor == b.criadoPor)
    && (if p.criadoEm.Some? then c.criadoEm == p.criadoEm.value else c.criadoEm == b.criadoEm)
    && (if p.nomeEstabelecimento.Some? then c.nomeEstabelecimento == p.nomeEstabelecimento.value else c.nomeEstabelecimento == b.nomeEstabelecimento)
    && (if p.telefone.Some? then c.telefone == p.telefone.value else c.telefone == b.telefone)
    && (if p.endereco.Some? then c.endereco == p.endereco.value else c.endereco == b.endereco)
    && (if p.horarioAbertura.Some? then c.horarioAbertura == p.horarioAbertura.value else c.horarioAbertura == b.horarioAbertura)
    && (if p.horarioFechamento.Some? then c.horarioFechamento == p.horarioFechamento.value else c.horarioFechamento == b.horarioFechamento)
    && (if p.diasFuncionamento.Some? then c.diasFuncionamento == p.diasFuncionamento.value else c.diasFuncionamento == b.diasFuncionamento)
    && (if p.ativo.Some? then c.ativo == p.ativo.value else c.ativo == b.ativo)
  }

  /**
   `updateDoc(ref, {...updates, atualizadoEm})` on a tenant: the patch's
   fields are spread over the stored ones and the timestamp comes last.
   */
  function MergeBarbearia(b: Barbearia, p: PatchBarbearia, now: Timestamp): (c: Barbearia)
    ensures PatchedBarbearia(b, p, now, c)
  {
    b.(nomeEstabelecimento := p.nomeEstabelecimento.GetOr(b.nomeEstabelecimento),
       telefone := p.telefone.GetOr(b.telefone),
       endereco := p.endereco.GetOr(b.endereco),
       horarioAbertura := p.horarioAbertura.GetOr(b.horarioAbertura),
       horarioFechamento := p.horarioFechamento.GetOr(b.horarioFechamento),
       diasFuncionamento := p.diasFuncionamento.GetOr(b.diasFuncionamento),
       ativo := p.ativo.GetOr(b.ativo),
       id := p.id.GetOr(b.id),
       contribuinte := p.contribuinte.GetOr(b.contribuinte),
       criadoPor := p.criadoPor.GetOr(b.criadoPor),
       criadoEm := p.criadoEm.GetOr(b.criadoEm),
       atualizadoEm := now)
  }

  /** `updateDoc(ref, {...updates, atualizadoEm})` on an employee. */
  function MergeFuncionario(f: Funcionario, p: PatchFuncionario, now: Timestamp): (g: Funcionario)
    ensures PatchedFuncionario(f, p, now, g)
  {
    f.(nome := p.nome.GetOr(f.nome),
       telefone := p.telefone.GetOr(f.telefone),
       email := p.email.GetOr(f.email),
       especialidades := p.especialidades.GetOr(f.especialidades),
       horarioTrabalho := p.horarioTrabalho.GetOr(f.horarioTrabalho),
       ativo := p.ativo.GetOr(f.ativo),
       id := p.id.GetOr(f.id),
       criadoEm := p.criadoEm.GetOr(f.criadoEm),
       atualizadoEm := now)
  }

  /**
   `atualizarFuncionario`: fails when the employee does not exist (an update
   never creates a document); otherwise replaces exactly the patched fields,
   refreshes `atualizadoEm` and leaves every other document alone.
   */
  function AtualizarFuncionario(s: Store, key: string, id: string, p: PatchFuncionario, now: Timestamp): (r: Result<Store, Erro>)
    ensures r.Failure? <==> Get(s, DocPath(key, Funcionarios, id)).None?
    ensures r.Failure? ==> r.error == NaoEncontrado
    ensures r.Success? ==>
      && id in Of(r.value, key).funcionarios
      && PatchedFuncionario(Of(s, key).funcionarios[id], p, now, Of(r.value, key).funcionarios[id])
    ensures r.Success? ==> forall q :: q != DocPath(key, Funcionarios, id) ==> Get(r.value, q) == Get(s, q)
  {
    var m := Of(s, key).funcionarios;
    if id !in m then Failure(NaoEncontrado)
    else
      var t := Set(s, DocPath(key, Funcionarios, id), FuncionarioDoc(MergeFuncionario(m[id], p, now)));
      assert Get(t, DocPath(key, Funcionarios, id)) == Some(FuncionarioDoc(MergeFuncionario(m[id], p, now)));
      Success(t)
  }

  /** The patch `removerFuncionario` sends: `{ ativo: false }`. */
  const Desativar: PatchFuncionario := PatchFuncionario(None, None, None, None, None, Some(false), None, None)

  /**
   `removerFuncionario`: a soft delete. The record stays where it is with
   `ativo = false` and a refreshed `atualizadoEm`; nothing else changes.
   */
  function RemoverFuncionario(s: Store, key: string, id: string, now: Timestamp): (r: Result<Store, Erro>)
    ensures r.Failure? <==> id !in Of(s, key).funcionarios
    ensures r.Success? ==>
      && id in Of(r.value, key).funcionarios
      && Of(r.value, key).funcionarios[id] == Of(s, key).funcionarios[id].(ativo := false, atualizadoEm := now)
    ensures r.Success? ==> forall q :: q != DocPath(key, Funcionarios, id) ==> Get(r.value, q) == Get(s, q)
  {
    AtualizarFuncionario(s, key, id, Desativar, now)
  }

  /** `atualizarBarbearia`: the same partial-merge update, on the tenant document. */
  function AtualizarBarbearia(s: Store, key: string, p: PatchBarbearia, now: Timestamp): (r: Result<Store, Erro>)
    ensures r.Failure? <==> Get(s, TenantPath(key)).None?
    ensures r.Failure? ==> r.error == NaoEncontrado
    ensures r.Success? ==>
      && key in r.value.barbearias
      && PatchedBarbearia(s.barbearias[key], p, now, r.value.barbearias[key])
    ensures r.Success? ==> forall q :: q != TenantPath(key) ==> Get(r.value, q) == Get(s, q)
  {
    if key !in s.barbearias then Failure(NaoEncontrado)
    else
      var t := Set(s, TenantPath(key), BarbeariaDoc(MergeBarbearia(s.barbearias[key], p, now)));
      assert Get(t, TenantPath(key)) == Some(BarbeariaDoc(MergeBarbearia(s.barbearias[key], p, now)));
      Success(t)
  }

  /** Two patches in a row: the later one wins on the fields it names. */
  function ThenFuncionario(p: PatchFuncionario, q: PatchFuncionario): PatchFuncionario
  {
    PatchFuncionario(
      if q.nome.Some? then q.nome else p.nome,
      if q.telefone.Some? then q.telefone else p.telefone,
      if q.email.Some? then q.email else p.email,
      if q.especialidades.Some? then q.especialidades else p.especialidades,
      if q.horarioTrabalho.Some? then q.horarioTrabalho else p.horarioTrabalho,
      if q.ativo.Some? then q.ativo else p.ativo,
      if q.id.Some? then q.id else p.id,
      if q.criadoEm.Some? then q.criadoEm else p.criadoEm)
  }

  /** Merging two patches one after the other is merging their combination once. */
  lemma MergeFuncionarioComposes(f: Funcionario, p: PatchFuncionario, q: PatchFuncionario, t1: Timestamp, t2: Timestamp)
    ensures MergeFuncionario(MergeFuncionario(f, p, t1), q, t2) == MergeFuncionario(f, ThenFuncionario(p, q), t2)
  {
  }

  /** Updating twice with the same patch is updating once. */
  lemma AtualizarFuncionarioIdempotent(s: Store, key: string, id: string, p: PatchFuncionario, now: Timestamp)
    requires AtualizarFuncionario(s, key, id, p, now).Success?
    ensures var t := AtualizarFuncionario(s, key, id, p, now).value;
      AtualizarFuncionario(t, key, id, p, now) == Success(t)
  {
    var t := AtualizarFuncionario(s, key, id, p, now).value;
    var f := Of(t, key).funcionarios[id];
    assert MergeFuncionario(f, p, now) == f;
    var u := AtualizarFuncionario(t, key, id, p, now).value;
    assert forall q :: Get(u, q) == Get(t, q);
    GetDeterminesStore(u, t);
  }


  // ===== New documents =====

  /** `adicionarFuncionario`: stores a new active employee under a fresh id and returns the id. */
  function AdicionarFuncionario(s: Store, key: string, dados: DadosFuncionario, id: string, now: Timestamp): (r: (Store, string))
    requires Get(s, DocPath(key, Funcionarios, id)).None?
    ensures r.1 == id
    ensures id in Of(r.0, key).funcionarios
    ensures var f := Of(r.0, key).funcionarios[id];
      && f.id == id && f.ativo && f.nome == dados.nome && f.telefone == dados.telefone
      && f.email == dados.email && f.especialidades == dados.especialidades
      && f.horarioTrabalho == dados.horarioTrabalho && f.criadoEm == now && f.atualizadoEm == now
    ensures forall q :: q != DocPath(key, Funcionarios, id) ==> Get(r.0, q) == Get(s, q)
  {
    var f := Funcionario(id, dados.nome, dados.telefone, dados.email, dados.especialidades, dados.horarioTrabalho, true, now, now);
    var t := Set(s, DocPath(key, Funcionarios, id), FuncionarioDoc(f));
    assert Get(t, DocPath(key, Funcionarios, id)) == Some(FuncionarioDoc(f));
    (t, id)
  }

  /** `adicionarCliente`: stores a new active client with no visits under a fresh id and returns the id. */
  function AdicionarCliente(s: Store, key: string, dados: DadosCliente, id: string, now: Timestamp): (r: (Store, string))
    requires Get(s, DocPath(key, Clientes, id)).None?
    ensures r.1 == id
    ensures id in Of(r.0, key).clientes
    ensures var c := Of(r.0, key).clientes[id];
      && c.id == id && c.ativo && c.totalVisitas == 0
      && c.nome == dados.nome && c.telefone == dados.telefone && c.email == dados.email
      && c.ultimaVisita == dados.ultimaVisita && c.dataNascimento == dados.dataNascimento
      && c.criadoEm == now && c.atualizadoEm == now
    ensures forall q :: q != DocPath(key, Clientes, id) ==> Get(r.0, q) == Get(s, q)
  {
    var c := Cliente(id, dados.nome, dados.telefone, dados.email, 0, dados.ultimaVisita, dados.dataNascimento, true, now, now);
    var t := Set(s, DocPath(key, Clientes, id), ClienteDoc(c));
    assert Get(t, DocPath(key, Clientes, id)) == Some(ClienteDoc(c));
    (t, id)
  }

  /**
   `criarAgendamento`: stores the appointment as given, active, under a fresh
   id and returns the id. Nothing is checked or derived: no overlap test, no
   end time or price computation.
   */
  function CriarAgendamento(s: Store, key: string, dados: DadosAgendamento, id: string, now: Timestamp): (r: (Store, string))
    requires Get(s, DocPath(key, Agendamentos, id)).None?
    ensures r.1 == id
    ensures id in Of(r.0, key).agendamentos
    ensures var a := Of(r.0, key).agendamentos[id];
      && a.id == id && a.ativo
      && a.clienteId == dados.clienteId && a.funcionarioId == dados.funcionarioId
      && a.servicoIds == dados.servicoIds && a.data == dados.data
      && a.horarioInicio == dados.horarioInicio && a.horarioFim == dados.horarioFim
      && a.precoTotal == dados.precoTotal && a.status == dados.status && a.pago == dados.pago
      && a.observacoes == dados.observacoes && a.criadoEm == now && a.atualizadoEm == now
    ensures forall q :: q != DocPath(key, Agendamentos, id) ==> Get(r.0, q) == Get(s, q)
  {
    var a := Agendamento(
      id, dados.clienteId, dados.funcionarioId, dados.servicoIds, dados.data, dados.horarioInicio,
      dados.horarioFim, dados.precoTotal, dados.status, dados.pago, dados.observacoes, true, now, now);
    var t := Set(s, DocPath(key, Agendamentos, id), AgendamentoDoc(a));
    assert Get(t, DocPath(key, Agendamentos, id)) == Some(AgendamentoDoc(a));
    (t, id)
  }

  /**
   Creating an appointment never fails on a clash: two appointments for the
   same employee, day and start time are both stored.
   */
  lemma CriarAgendamentoAcceptsDoubleBooking(s: Store, key: string, dados: DadosAgendamento, id1: string, id2: string, t1: Timestamp, t2: Timestamp)
    requires id1 != id2
    requires Get(s, DocPath(key, Agendamentos, id1)).None? && Get(s, DocPath(key, Agendamentos, id2)).None?
    ensures var s1 := CriarAgendamento(s, key, dados, id1, t1).0;
      Get(s1, DocPath(key, Agendamentos, id2)).None? &&
      var s2 := CriarAgendamento(s1, key, dados, id2, t2).0;
      && id1 in Of(s2, key).agendamentos && id2 in Of(s2, key).agendamentos
      && Of(s2, key).agendamentos[id1].funcionarioId == Of(s2, key).agendamentos[id2].funcionarioId
      && Of(s2, key).agendamentos[id1].data == Of(s2, key).agendamentos[id2].data
      && Of(s2, key).agendamentos[id1].horarioInicio == Of(s2, key).agendamentos[id2].horarioInicio
  {
    var s1 := CriarAgendamento(s, key, dados, id1, t1).0;
    assert Get(s1, DocPath(key, Agendamentos, id2)) == Get(s, DocPath(key, Agendamentos, id2));
    var s2 := CriarAgendamento(s1, key, dados, id2, t2).0;
    assert Get(s2, DocPath(key, Agendamentos, id1)) == Get(s1, DocPath(key, Agendamentos, id1));
  }

  // ===== Sorted reads =====

  /** `orderBy('nome')` (ties by document id). */
  function ChaveNome(nome: string, id: string): SortKey
  {
    [Text(nome), Text(id)]
  }

  /** `orderBy('categoria'), orderBy('nome')` (ties by document id). */
  function ChaveServico(sv: Servico): SortKey
  {
    [Text(sv.categoria), Text(sv.nome), Text(sv.id)]
  }

  /** `orderBy('data'), orderBy('horarioInicio')` (ties by document id). */
  function ChaveAgendamento(a: Agendamento): SortKey
  {
    [Num(a.data), Text(a.horarioInicio), Text(a.id)]
  }

  /**
   `buscarFuncionarios`: exactly the active employees, each once, read back
   with the document id, ordered by name.
   */
  method BuscarFuncionarios(s: Store, key: string) returns (r: seq<Funcionario>)
    ensures var m := Of(s, key).funcionarios;
      forall i :: 0 <= i < |r| ==> r[i].id in m && r[i] == m[r[i].id].(id := r[i].id) && r[i].ativo
    ensures var m := Of(s, key).funcionarios;
      forall id :: id in m && m[id].ativo ==> m[id].(id := id) in r
    ensures forall i, j :: 0 <= i < j < |r| ==> r[i].id != r[j].id
    ensures forall i, j :: 0 <= i < j < |r| ==> !StrLess(r[j].nome, r[i].nome)
    ensures SortedBy(r, (f: Funcionario) => ChaveNome(f.nome, f.id))
  {
    var m := Of(s, key).funcionarios;
    var q := Query(m, (id: string, f: Funcionario) => f.ativo, (d: (string, Funcionario)) => ChaveNome(d.1.nome, d.0));
    r := seq(|q|, i requires 0 <= i < |q| => q[i].1.(id := q[i].0));
    ReadBack(m, (id: string, f: Funcionario) => f.ativo, q, (id: string, f: Funcionario) => f.(id := id), r);
    forall i, j | 0 <= i < j < |r| ensures !StrLess(r[j].nome, r[i].nome) {
      KeyLeTextHead(ChaveNome(r[i].nome, r[i].id), ChaveNome(r[j].nome, r[j].id));
    }
  }

  /**
   `buscarClientes`: exactly the active clients, each once, read back with
   the document id, ordered by name.
   */
  method BuscarClientes(s: Store, key: string) returns (r: seq<Cliente>)
    ensures var m := Of(s, key).clientes;
      forall i :: 0 <= i < |r| ==> r[i].id in m && r[i] == m[r[i].id].(id := r[i].id) && r[i].ativo
    ensures var m := Of(s, key).clientes;
      forall id :: id in m && m[id].ativo ==> m[id].(id := id) in r
    ensures forall i, j :: 0 <= i < j < |r| ==> r[i].id != r[j].id
    ensures forall i, j :: 0 <= i < j < |r| ==> !StrLess(r[j].nome, r[i].nome)
    ensures SortedBy(r, (c: Cliente) => ChaveNome(c.nome, c.id))
  {
    var m := Of(s, key).clientes;
    var q := Query(m, (id: string, c: Cliente) => c.ativo, (d: (string, Cliente)) => ChaveNome(d.1.nome, d.0));
    r := seq(|q|, i requires 0 <= i < |q| => q[i].1.(id := q[i].0));
    ReadBack(m, (id: string, c: Cliente) => c.ativo, q, (id: string, c: Cliente) => c.(id := id), r);
    forall i, j | 0 <= i < j < |r| ensures !StrLess(r[j].nome, r[i].nome) {
      KeyLeTextHead(ChaveNome(r[i].nome, r[i].id), ChaveNome(r[j].nome, r[j].id));
    }
  }

  /**
   `buscarServicos`: exactly the active services, each once, read back with
   the document id, grouped by category and ordered by name within it.
   */
  method BuscarServicos(s: Store, key: string) returns (r: seq<Servico>)
    ensures var m := Of(s, key).servicos;
      forall i :: 0 <= i < |r| ==> r[i].id in m && r[i] == m[r[i].id].(id := r[i].id) && r[i].ativo
    ensures var m := Of(s, key).servicos;
      forall id :: id in m && m[id].ativo ==> m[id].(id := id) in r
    ensures forall i, j :: 0 <= i < j < |r| ==> r[i].id != r[j].id
    ensures forall i, j :: 0 <= i < j < |r| ==> !StrLess(r[j].categoria, r[i].categoria)
    ensures SortedBy(r, ChaveServico)
  {
    var m := Of(s, key).servicos;
    var q := Query(m, (id: string, sv: Servico) => sv.ativo, (d: (string, Servico)) => ChaveServico(d.1.(id := d.0)));
    r := seq(|q|, i requires 0 <= i < |q| => q[i].1.(id := q[i].0));
    ReadBack(m, (id: string, sv: Servico) => sv.ativo, q, (id: string, sv: Servico) => sv.(id := id), r);
    forall i, j | 0 <= i < j < |r| ensures !StrLess(r[j].categoria, r[i].categoria) {
      KeyLeTextHead(ChaveServico(r[i]), ChaveServico(r[j]));
    }
  }

  /** The date window of `buscarAgendamentos`: applied only when both bounds are given. */
  predicate NaJanela(a: Agendamento, dataInicio: Option<Timestamp>, dataFim: Option<Timestamp>)
  {
    dataInicio.Some? && dataFim.Some? ==> dataInicio.value <= a.data <= dataFim.value
  }

  /**
   `buscarAgendamentos`: with both bounds, exactly the appointments dated in
   `[dataInicio, dataFim]`; otherwise all of them. Each appears once, read
   back with the document id, ordered by date and then start time.
   */
  method BuscarAgendamentos(s: Store, key: string, dataInicio: Option<Timestamp>, dataFim: Option<Timestamp>)
    returns (r: seq<Agendamento>)
    ensures var m := Of(s, key).agendamentos;
      forall i :: 0 <= i < |r| ==> r[i].id in m && r[i] == m[r[i].id].(id := r[i].id)
    ensures dataInicio.Some? && dataFim.Some? ==>
      forall i :: 0 <= i < |r| ==> dataInicio.value <= r[i].data <= dataFim.value
    ensures var m := Of(s, key).agendamentos;
      forall id :: id in m && NaJanela(m[id], dataInicio, dataFim) ==> m[id].(id := id) in r
    ensures dataInicio.None? || dataFim.None? ==>
      var m := Of(s, key).agendamentos; forall id :: id in m ==> m[id].(id := id) in r
    ensures forall i, j :: 0 <= i < j < |r| ==> r[i].id != r[j].id
    ensures forall i, j :: 0 <= i < j < |r| ==> r[i].data <= r[j].data
    ensures SortedBy(r, ChaveAgendamento)
  {
    var m := Of(s, key).agendamentos;
    var q := Query(m, (id: string, a: Agendamento) => NaJanela(a, dataInicio, dataFim),
                   (d: (string, Agendamento)) => ChaveAgendamento(d.1.(id := d.0)));
    r := seq(|q|, i requires 0 <= i < |q| => q[i].1.(id := q[i].0));
    ReadBack(m, (id: string, a: Agendamento) => NaJanela(a, dataInicio, dataFim), q,
             (id: string, a: Agendamento) => a.(id := id), r);
    DataOrdenada(r);
  }

  lemma DataOrdenada(r: seq<Agendamento>)
    requires SortedBy(r, ChaveAgendamento)
    ensures forall i, j :: 0 <= i < j < |r| ==> r[i].data <= r[j].data
  {
    forall i, j | 0 <= i < j < |r| ensures r[i].data <= r[j].data {
      KeyLeNumHead(ChaveAgendamento(r[i]), ChaveAgendamento(r[j]));
    }
  }
}
