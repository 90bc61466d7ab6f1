/**
 An abstract document store in the shape the service uses: tenant documents
 keyed by the tenant key ("contribuinte"), and under each tenant four
 collections of documents keyed by document id. A `Store` is an immutable
 value; every write produces a new one.
 */
module DocStore {
  import opened Wrappers
  import opened Entities

  datatype Colecoes = Colecoes(
    funcionarios: map<string, Funcionario>,
    clientes: map<string, Cliente>,
    servicos: map<string, Servico>,
    agendamentos: map<string, Agendamento>)

  const Vazias: Colecoes := Colecoes(map[], map[], map[], map[])

  datatype Store = Store(barbearias: map<string, Barbearia>, colecoes: map<string, Colecoes>)

  /** A tenant's collections; a tenant nothing was ever written under has empty ones. */
  function Of(s: Store, key: string): Colecoes
  {
    if key in s.colecoes then s.colecoes[key] else Vazias
  }

  datatype Collection = Funcionarios | Clientes | Servicos | Agendamentos

  /** The address of one document. */
  datatype Path = TenantPath(key: string) | DocPath(key: string, collection: Collection, id: string)

  datatype Doc =
    | BarbeariaDoc(b: Barbearia)
    | FuncionarioDoc(f: Funcionario)
    | ClienteDoc(c: Cliente)
    | ServicoDoc(sv: Servico)
    | AgendamentoDoc(a: Agendamento)

  /** A document of the kind its path's collection holds. */
  predicate Fits(p: Path, d: Doc)
  {
    match p
    case TenantPath(_) => d.BarbeariaDoc?
    case DocPath(_, Funcionarios, _) => d.FuncionarioDoc?
    case DocPath(_, Clientes, _) => d.ClienteDoc?
    case DocPath(_, Servicos, _) => d.ServicoDoc?
    case DocPath(_, Agendamentos, _) => d.AgendamentoDoc?
  }

  /** The document with id `id` in one collection of a tenant's collections. */
  function Lookup(c: Colecoes, col: Collection, id: string): Option<Doc>
  {
    match col
    case Funcionarios => if id in c.funcionarios then Some(FuncionarioDoc(c.funcionarios[id])) else None
    case Clientes => if id in c.clientes then Some(ClienteDoc(c.clientes[id])) else None
    case Servicos => if id in c.servicos then Some(ServicoDoc(c.servicos[id])) else None
    case Agendamentos => if id in c.agendamentos then Some(AgendamentoDoc(c.agendamentos[id])) else None
  }

  /** The document stored at `p`, if any (`getDoc(...).exists()`). */
  function Get(s: Store, p: Path): (r: Option<Doc>)
    ensures r.Some? ==> Fits(p, r.value)
  {
    match p
    case TenantPath(k) =>
      if k in s.barbearias then Some(BarbeariaDoc(s.barbearias[k])) else None
    case DocPath(k, col, id) => Lookup(Of(s, k), col, id)
  }

  /** One collection of a tenant with the document at `id` replaced by `d`. */
  function Put(c: Colecoes, col: Collection, id: string, d: Doc): (r: Colecoes)
    requires Fits(DocPath("", col, id), d)
    ensures Lookup(r, col, id) == Some(d)
    ensures forall col', id' :: (col', id') != (col, id) ==> Lookup(r, col', id') == Lookup(c, col', id')
  {
    match col
    case Funcionarios => c.(funcionarios := c.funcionarios[id := d.f])
    case Clientes => c.(clientes := c.clientes[id := d.c])
    case Servicos => c.(servicos := c.servicos[id := d.sv])
    case Agendamentos => c.(agendamentos := c.agendamentos[id := d.a])
  }

  /** `setDoc` / `batch.set`: the document at `p` becomes `d`, whatever was there. */
  function Set(s: Store, p: Path, d: Doc): (r: Store)
    requires Fits(p, d)
    ensures Get(r, p) == Some(d)
    ensures forall q :: q != p ==> Get(r, q) == Get(s, q)
  {
    match p
    case TenantPath(k) => s.(barbearias := s.barbearias[k := d.b])
    case DocPath(k, col, id) => s.(colecoes := s.colecoes[k := Put(Of(s, k), col, id, d)])
  }

  /** Two stores with the same documents at every path are the same store, up to empty collections. */
  lemma GetDeterminesStore(a: Store, b: Store)
    requires forall q :: Get(a, q) == Get(b, q)
    requires a.colecoes.Keys == b.colecoes.Keys
    ensures a == b
  {
    assert a.barbearias == b.barbearias by {
      forall k | k in a.barbearias || k in b.barbearias ensures k in a.barbearias && k in b.barbearias && a.barbearias[k] == b.barbearias[k] {
        assert Get(a, TenantPath(k)) == Get(b, TenantPath(k));
      }
    }
    forall k | k in a.colecoes ensures a.colecoes[k] == b.colecoes[k] {
      var ca := a.colecoes[k];
      var cb := b.colecoes[k];
      assert ca.funcionarios == cb.funcionarios by {
        forall id | id in ca.funcionarios || id in cb.funcionarios
          ensures id in ca.funcionarios && id in cb.funcionarios && ca.funcionarios[id] == cb.funcionarios[id]
        {
          assert Get(a, DocPath(k, Funcionarios, id)) == Get(b, DocPath(k, Funcionarios, id));
        }
      }
      assert ca.clientes == cb.clientes by {
        forall id | id in ca.clientes || id in cb.clientes
          ensures id in ca.clientes && id in cb.clientes && ca.clientes[id] == cb.clientes[id]
        {
          assert Get(a, DocPath(k, Clientes, id)) == Get(b, DocPath(k, Clientes, id));
        }
      }
      assert ca.servicos == cb.servicos by {
        forall id | id in ca.servicos || id in cb.servicos
          ensures id in ca.servicos && id in cb.servicos && ca.servicos[id] == cb.servicos[id]
        {
          assert Get(a, DocPath(k, Servicos, id)) == Get(b, DocPath(k, Servicos, id));
        }
      }
      assert ca.agendamentos == cb.agendamentos by {
        forall id | id in ca.agendamentos || id in cb.agendamentos
          ensures id in ca.agendamentos && id in cb.agendamentos && ca.agendamentos[id] == cb.agendamentos[id]
        {
          assert Get(a, DocPath(k, Agendamentos, id)) == Get(b, DocPath(k, Agendamentos, id));
        }
      }
    }
  }

  /** The ways a call to the store fails. */
  datatype Erro =
    | JaCadastrado     // the tenant key is already provisioned
    | NaoEncontrado    // an update addressed a document that does not exist
    | Indisponivel     // the backend is unconfigured or unreachable

  /** Whether the backend answers a given call. */
  datatype Link = Up | Down

  /** One `batch.set` of a write batch. */
  datatype Write = Write(path: Path, doc: Doc)

  ghost predicate WellFormed(ws: seq<Write>)
  {
    forall i :: 0 <= i < |ws| ==> Fits(ws[i].path, ws[i].doc)
  }

  ghost predicate DistinctPaths(ws: seq<Write>)
  {
    forall i, j :: 0 <= i < j < |ws| ==> ws[i].path != ws[j].path
  }

  ghost predicate Targets(ws: seq<Write>, q: Path)
  {
    exists i :: 0 <= i < |ws| && ws[i].path == q
  }

  /** The writes of a batch, applied in order. */
  function ApplyAll(s: Store, ws: seq<Write>): Store
    requires WellFormed(ws)
    decreases |ws|
  {
    if |ws| == 0 then s
    else ApplyAll(Set(s, ws[0].path, ws[0].doc), ws[1..])
  }

  /**
   `batch.commit()`: every write of the batch takes effect, or, when the
   backend does not answer, none does and the commit fails.
   */
  function Commit(s: Store, ws: seq<Write>, link: Link): (r: Result<Store, Erro>)
    requires WellFormed(ws)
    requires DistinctPaths(ws)
    ensures r.Success? <==> link == Up
    ensures r.Failure? ==> r.error == Indisponivel
    ensures r.Success? ==> forall i :: 0 <= i < |ws| ==> Get(r.value, ws[i].path) == Some(ws[i].doc)
    ensures r.Success? ==> forall q :: !Targets(ws, q) ==> Get(r.value, q) == Get(s, q)
  {
    if link.Down? then Failure(Indisponivel)
    else
      BatchEffect(s, ws);
      Success(ApplyAll(s, ws))
  }

  /** A batch with distinct paths writes each of its documents and touches nothing else. */
  lemma {:induction false} BatchEffect(s: Store, ws: seq<Write>)
    requires WellFormed(ws)
    requires DistinctPaths(ws)
    ensures forall i :: 0 <= i < |ws| ==> Get(ApplyAll(s, ws), ws[i].path) == Some(ws[i].doc)
    ensures forall q :: !Targets(ws, q) ==> Get(ApplyAll(s, ws), q) == Get(s, q)
    decreases |ws|
  {
    if |ws| > 0 {
      var s1 := Set(s, ws[0].path, ws[0].doc);
      var rest := ws[1..];
      assert WellFormed(rest);
      assert DistinctPaths(rest);
      BatchEffect(s1, rest);
      var r := ApplyAll(s, ws);
      assert r == ApplyAll(s1, rest);
      forall i | 0 <= i < |ws|
        ensures Get(r, ws[i].path) == Some(ws[i].doc)
      {
        if i == 0 {
          assert !Targets(rest, ws[0].path) by {
            forall j | 0 <= j < |rest| ensures rest[j].path != ws[0].path {
              assert rest[j] == ws[j + 1];
            }
          }
        } else {
          assert ws[i] == rest[i - 1];
        }
      }
      forall q | !Targets(ws, q)
        ensures Get(r, q) == Get(s, q)
      {
        assert q != ws[0].path;
        assert !Targets(rest, q) by {
          forall j | 0 <= j < |rest| ensures rest[j].path != q {
            assert rest[j] == ws[j + 1];
          }
        }
      }
    }
  }
}

/**
 Collection queries: `getDocs(query(collection, where(...), orderBy(...)))`.
 Firestore breaks ties of the requested order by document id, so a sort key
 whose last part is the id orders the result completely.
 */
module Queries {
  import opened Seqs
  import opened Ordering

  /** The ids of a collection, in no particular order, each once. */
  method DocumentIds<V>(m: map<string, V>) returns (ids: seq<string>)
    ensures forall k :: k in m <==> k in ids
    ensures Distinct(ids)
  {
    ids := [];
    var rest := m.Keys;
    while rest != {}
      invariant rest <= m.Keys
      invariant forall k :: k in ids <==> k in m.Keys - rest
      invariant Distinct(ids)
      decreases |rest|
    {
      var k :| k in rest;
      assert k !in ids;
      var next := ids + [k];
      assert forall i, j :: 0 <= i < j < |next| ==> next[i] != next[j] by {
        forall i, j | 0 <= i < j < |next| ensures next[i] != next[j] {
          if j == |ids| {
            assert next[i] == ids[i];
          } else {
            assert next[i] == ids[i] && next[j] == ids[j];
          }
        }
      }
      ids := next;
      rest := rest - {k};
    }
  }

  /**
   The documents `(id, document)` of `m` that satisfy `keep`, ordered by
   `key`, each document once.
   */
  method Query<V>(m: map<string, V>, keep: (string, V) -> bool, key: ((string, V)) -> SortKey)
    returns (r: seq<(string, V)>)
    ensures forall i :: 0 <= i < |r| ==> r[i].0 in m && r[i].1 == m[r[i].0] && keep(r[i].0, r[i].1)
    ensures forall k :: k in m && keep(k, m[k]) ==> (k, m[k]) in r
    ensures SortedBy(r, key)
    ensures forall i, j :: 0 <= i < j < |r| ==> r[i].0 != r[j].0
  {
    var ids := DocumentIds(m);
    var docs := seq(|ids|, i requires 0 <= i < |ids| => (ids[i], m[ids[i]]));
    DocsDistinct(m, ids, docs);
    r := SelectSorted(docs, keep, key);
    SubMultisetKeepsDistinct(docs, r);
    QuerySound(m, keep, ids, docs, r);
    QueryComplete(m, keep, ids, docs, r);
    DistinctDocsHaveDistinctIds(m, r);
  }

  /** The documents satisfying `keep`, sorted by `key`: a sub-multiset of the input. */
  function SelectSorted<V>(docs: seq<(string, V)>, keep: (string, V) -> bool, key: ((string, V)) -> SortKey)
    : (r: seq<(string, V)>)
    ensures multiset(r) <= multiset(docs)
    ensures forall i :: 0 <= i < |r| ==> r[i] in docs && keep(r[i].0, r[i].1)
    ensures forall i :: 0 <= i < |docs| && keep(docs[i].0, docs[i].1) ==> docs[i] in r
    ensures SortedBy(r, key)
  {
    var kept := Filter(docs, (d: (string, V)) => keep(d.0, d.1));
    FilterSubMultiset(docs, (d: (string, V)) => keep(d.0, d.1));
    var r := SortBy(kept, key);
    assert forall i :: 0 <= i < |docs| && keep(docs[i].0, docs[i].1) ==> docs[i] in kept;
    r
  }

  lemma QuerySound<V>(m: map<string, V>, keep: (string, V) -> bool,
                      ids: seq<string>, docs: seq<(string, V)>, r: seq<(string, V)>)
    requires forall k :: k in ids ==> k in m
    requires docs == seq(|ids|, i requires 0 <= i < |ids| => (ids[i], m[ids[i]]))
    requires forall i :: 0 <= i < |r| ==> r[i] in docs && keep(r[i].0, r[i].1)
    ensures forall i :: 0 <= i < |r| ==> r[i].0 in m && r[i].1 == m[r[i].0] && keep(r[i].0, r[i].1)
  {
    forall i | 0 <= i < |r|
      ensures r[i].0 in m && r[i].1 == m[r[i].0] && keep(r[i].0, r[i].1)
    {
      var j :| 0 <= j < |docs| && docs[j] == r[i];
      assert docs[j] == (ids[j], m[ids[j]]);
    }
  }

  lemma QueryComplete<V>(m: map<string, V>, keep: (string, V) -> bool,
                         ids: seq<string>, docs: seq<(string, V)>, r: seq<(string, V)>)
    requires forall k :: k in m <==> k in ids
    requires docs == seq(|ids|, i requires 0 <= i < |ids| => (ids[i], m[ids[i]]))
    requires forall i :: 0 <= i < |docs| && keep(docs[i].0, docs[i].1) ==> docs[i] in r
    ensures forall k :: k in m && keep(k, m[k]) ==> (k, m[k]) in r
  {
    forall k | k in m && keep(k, m[k])
      ensures (k, m[k]) in r
    {
      var j :| 0 <= j < |ids| && ids[j] == k;
      assert docs[j] == (k, m[k]);
    }
  }

  lemma DocsDistinct<V>(m: map<string, V>, ids: seq<string>, docs: seq<(string, V)>)
    requires Distinct(ids) && forall k :: k in ids ==> k in m
    requires docs == seq(|ids|, i requires 0 <= i < |ids| => (ids[i], m[ids[i]]))
    ensures Distinct(docs)
  {
    forall i, j | 0 <= i < j < |docs| ensures docs[i] != docs[j] {
      assert docs[i].0 == ids[i] && docs[j].0 == ids[j];
    }
  }

  /** Documents read from one map, each once, differ in their ids. */
  lemma DistinctDocsHaveDistinctIds<V>(m: map<string, V>, r: seq<(string, V)>)
    requires Distinct(r)
    requires forall i :: 0 <= i < |r| ==> r[i].0 in m && r[i].1 == m[r[i].0]
    ensures forall i, j :: 0 <= i < j < |r| ==> r[i].0 != r[j].0
  {
    forall i, j | 0 <= i < j < |r| ensures r[i].0 != r[j].0 {
    }
  }

  /**
   Mapping each query result `(id, document)` to a record carrying its id
   keeps every document the query selected.
   */
  lemma ReadBack<V, T>(m: map<string, V>, keep: (string, V) -> bool, q: seq<(string, V)>,
                       withId: (string, V) -> T, r: seq<T>)
    requires forall k :: k in m && keep(k, m[k]) ==> (k, m[k]) in q
    requires |r| == |q| && forall i :: 0 <= i < |q| ==> r[i] == withId(q[i].0, q[i].1)
    ensures forall k :: k in m && keep(k, m[k]) ==> withId(k, m[k]) in r
  {
    forall k | k in m && keep(k, m[k]) ensures withId(k, m[k]) in r {
      var j :| 0 <= j < |q| && q[j] == (k, m[k]);
      assert r[j] == withId(k, m[k]);
    }
  }
}
