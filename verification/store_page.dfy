/**
 The dashboard figures of the store page: today's revenue, the next five
 scheduled appointments, the active-record counts, the duration shown for
 each of today's appointments and the ten-item appointment list. Which dates
 are "today" is a parameter, standing for the store context's
 `getAgendamentosByDate(hoje)`.
 */
module StorePage {
  import opened Seqs
  import opened Ordering
  import opened Entities

  /** `getAgendamentosByDate(hoje)`: the appointments dated today, in store order. */
  function AgendamentosHoje(ags: seq<Agendamento>, ehHoje: Timestamp -> bool): (r: seq<Agendamento>)
    ensures forall i :: 0 <= i < |r| ==> r[i] in ags && ehHoje(r[i].data)
    ensures forall i :: 0 <= i < |ags| && ehHoje(ags[i].data) ==> ags[i] in r
    ensures multiset(r) <= multiset(ags)
    ensures |r| == Count(ags, (a: Agendamento) => ehHoje(a.data))
  {
    FilterSubMultiset(ags, (a: Agendamento) => ehHoje(a.data));
    CountIsFilterLength(ags, (a: Agendamento) => ehHoje(a.data));
    Filter(ags, (a: Agendamento) => ehHoje(a.data))
  }

  /**
   `.filter(apt => apt.status === 'concluido').reduce((t, apt) => t + apt.precoTotal, 0)`:
   the sum of `precoTotal` over the completed appointments.
   */
  function Receita(ags: seq<Agendamento>): (total: int)
    ensures total == SumWhere(ags, (a: Agendamento) => a.status == Concluido, (a: Agendamento) => a.precoTotal)
    ensures (forall i :: 0 <= i < |ags| ==> ags[i].status != Concluido) ==> total == 0
    ensures (forall i :: 0 <= i < |ags| ==> ags[i].precoTotal >= 0) ==> total >= 0
  {
    var concluidos := Filter(ags, (a: Agendamento) => a.status == Concluido);
    assert (forall i :: 0 <= i < |ags| ==> ags[i].status != Concluido) ==> concluidos == [] by {
      if |concluidos| > 0 {
        assert concluidos[0] in ags;
      }
    }
    SumNonNegativeIfPricesAre(ags, concluidos);
    SumOfFilter(ags, (a: Agendamento) => a.status == Concluido, (a: Agendamento) => a.precoTotal);
    SumOf(concluidos, (a: Agendamento) => a.precoTotal)
  }

  /** One appointment contributes its price when it is completed, and nothing otherwise. */
  lemma ReceitaSingleton(a: Agendamento)
    ensures Receita([a]) == if a.status == Concluido then a.precoTotal else 0
  {
    var concluido := (x: Agendamento) => x.status == Concluido;
    var preco := (x: Agendamento) => x.precoTotal;
    assert [a][1..] == [];
    assert SumWhere([a], concluido, preco) == (if concluido(a) then preco(a) else 0) + SumWhere([], concluido, preco);
  }

  lemma SumNonNegativeIfPricesAre(ags: seq<Agendamento>, sub: seq<Agendamento>)
    requires forall i :: 0 <= i < |sub| ==> sub[i] in ags
    ensures (forall i :: 0 <= i < |ags| ==> ags[i].precoTotal >= 0) ==>
      SumOf(sub, (a: Agendamento) => a.precoTotal) >= 0
  {
    if forall i :: 0 <= i < |ags| ==> ags[i].precoTotal >= 0 {
      forall x | x in sub ensures x.precoTotal >= 0 {
        var k :| 0 <= k < |sub| && sub[k] == x;
        var j :| 0 <= j < |ags| && ags[j] == sub[k];
      }
      SumNonNegative(sub, (a: Agendamento) => a.precoTotal);
    }
  }

  /** Revenue is additive: the revenue of two lists together is the sum of their revenues. */
  lemma ReceitaAppend(a: seq<Agendamento>, b: seq<Agendamento>)
    ensures Receita(a + b) == Receita(a) + Receita(b)
  {
    var p := (x: Agendamento) => x.status == Concluido;
    FilterAppend(a, b, p);
    SumAppend(Filter(a, p), Filter(b, p), (x: Agendamento) => x.precoTotal);
  }

  /** `faturamentoHoje`: the sum of `precoTotal` over the appointments both dated today and completed. */
  function FaturamentoHoje(ags: seq<Agendamento>, ehHoje: Timestamp -> bool): (total: int)
    ensures total == SumWhere(ags, (a: Agendamento) => ehHoje(a.data) && a.status == Concluido, (a: Agendamento) => a.precoTotal)
  {
    SumWhereFilter(ags, (a: Agendamento) => ehHoje(a.data), (a: Agendamento) => a.status == Concluido,
      (a: Agendamento) => ehHoje(a.data) && a.status == Concluido, (a: Agendamento) => a.precoTotal);
    Receita(AgendamentosHoje(ags, ehHoje))
  }

  /**
   Today's revenue is non-negative when prices are, and 0 when no appointment
   is both dated today and completed.
   */
  lemma FaturamentoHojeBounds(ags: seq<Agendamento>, ehHoje: Timestamp -> bool)
    ensures (forall i :: 0 <= i < |ags| ==> ags[i].precoTotal >= 0) ==> FaturamentoHoje(ags, ehHoje) >= 0
    ensures (forall i :: 0 <= i < |ags| ==> ags[i].status != Concluido || !ehHoje(ags[i].data)) ==>
      FaturamentoHoje(ags, ehHoje) == 0
  {
    var hoje := AgendamentosHoje(ags, ehHoje);
    assert (forall i :: 0 <= i < |ags| ==> ags[i].precoTotal >= 0) ==> (forall i :: 0 <= i < |hoje| ==> hoje[i].precoTotal >= 0) by {
      forall i | 0 <= i < |hoje| ensures hoje[i] in ags {}
    }
    assert (forall i :: 0 <= i < |ags| ==> ags[i].status != Concluido || !ehHoje(ags[i].data)) ==>
      (forall i :: 0 <= i < |hoje| ==> hoje[i].status != Concluido) by {
      forall i | 0 <= i < |hoje| ensures hoje[i] in ags && ehHoje(hoje[i].data) {}
    }
  }

  /** Scheduled and not in the past: what `proximosAgendamentos` keeps. */
  predicate Elegivel(agora: Timestamp, a: Agendamento)
  {
    a.data >= agora && a.status == Agendado
  }

  /** `new Date(a.data).getTime() - new Date(b.data).getTime()` as a comparator. */
  function ChaveData(a: Agendamento): SortKey
  {
    [Num(a.data)]
  }

  function Elegiveis(ags: seq<Agendamento>, agora: Timestamp): seq<Agendamento>
  {
    Filter(ags, (a: Agendamento) => Elegivel(agora, a))
  }

  const MaxProximos: nat := 5

  /**
   `proximosAgendamentos`: the scheduled appointments from now on, earliest
   first, at most five of them; none that is left out is earlier than one
   that is kept.
   */
  function ProximosAgendamentos(ags: seq<Agendamento>, agora: Timestamp): (r: seq<Agendamento>)
    ensures |r| == if |Elegiveis(ags, agora)| < MaxProximos then |Elegiveis(ags, agora)| else MaxProximos
    ensures forall i :: 0 <= i < |r| ==> r[i] in ags && r[i].status == Agendado && r[i].data >= agora
    ensures forall i, j :: 0 <= i < j < |r| ==> r[i].data <= r[j].data
    ensures forall i, k :: 0 <= i < |r| && 0 <= k < |ags| && Elegivel(agora, ags[k]) && ags[k].data < r[i].data ==>
      ags[k] in r
    ensures multiset(r) <= multiset(Elegiveis(ags, agora))
  {
    var ordenados := SortBy(Elegiveis(ags, agora), ChaveData);
    TakeSubMultiset(ordenados, MaxProximos);
    PrefixSound(ags, agora, ordenados);
    PrefixOrdered(ordenados, Take(ordenados, MaxProximos));
    PrefixKeepsEarliest(ags, agora, ordenados);
    Take(ordenados, MaxProximos)
  }

  /** The kept prefix of the date-sorted eligible appointments holds eligible appointments only. */
  lemma PrefixSound(ags: seq<Agendamento>, agora: Timestamp, ordenados: seq<Agendamento>)
    requires ordenados == SortBy(Elegiveis(ags, agora), ChaveData)
    ensures var r := Take(ordenados, MaxProximos);
      forall i :: 0 <= i < |r| ==> r[i] in ags && r[i].status == Agendado && r[i].data >= agora
  {
    var r := Take(ordenados, MaxProximos);
    var e := Elegiveis(ags, agora);
    forall i | 0 <= i < |r| ensures r[i] in ags && r[i].status == Agendado && r[i].data >= agora {
      assert r[i] == ordenados[i];
      assert ordenados[i] in e;
    }
  }

  /** The kept prefix is in date order. */
  lemma PrefixOrdered(ordenados: seq<Agendamento>, r: seq<Agendamento>)
    requires SortedBy(ordenados, ChaveData)
    requires r == Take(ordenados, MaxProximos)
    ensures forall i, j :: 0 <= i < j < |r| ==> r[i].data <= r[j].data
  {
    forall i, j | 0 <= i < j < |r| ensures r[i].data <= r[j].data {
      KeyLeNumHead(ChaveData(ordenados[i]), ChaveData(ordenados[j]));
    }
  }

  /** Every eligible appointment earlier than a kept one is kept too. */
  lemma PrefixKeepsEarliest(ags: seq<Agendamento>, agora: Timestamp, ordenados: seq<Agendamento>)
    requires ordenados == SortBy(Elegiveis(ags, agora), ChaveData)
    ensures var r := Take(ordenados, MaxProximos);
      forall i, k :: 0 <= i < |r| && 0 <= k < |ags| && Elegivel(agora, ags[k]) && ags[k].data < r[i].data ==> ags[k] in r
  {
    var r := Take(ordenados, MaxProximos);
    var e := Elegiveis(ags, agora);
    forall i, k | 0 <= i < |r| && 0 <= k < |ags| && Elegivel(agora, ags[k]) && ags[k].data < r[i].data
      ensures ags[k] in r
    {
      assert ags[k] in e;
      KeptIfEarlier(ordenados, r, i, ags[k]);
    }
  }

  /** In a date-sorted list, whatever is dated before a member of a prefix is in that prefix. */
  lemma KeptIfEarlier(ordenados: seq<Agendamento>, r: seq<Agendamento>, i: nat, x: Agendamento)
    requires SortedBy(ordenados, ChaveData)
    requires r == Take(ordenados, MaxProximos)
    requires i < |r| && x in ordenados && x.data < r[i].data
    ensures x in r
  {
    var j :| 0 <= j < |ordenados| && ordenados[j] == x;
    if j >= |r| {
      KeyLeNumHead(ChaveData(ordenados[i]), ChaveData(ordenados[j]));
      assert false;
    }
    assert r[j] == x;
  }

  /**
   The minutes shown beside one appointment: the catalogue services whose id
   the appointment lists (`servicos.filter(s => servicoIds.includes(s.id))`),
   their durations summed.
   */
  function Duracao(catalogo: seq<Servico>, servicoIds: seq<string>): (minutos: int)
    ensures minutos == SumWhere(catalogo, (sv: Servico) => sv.id in servicoIds, (sv: Servico) => sv.duracao)
    ensures (forall i :: 0 <= i < |catalogo| ==> catalogo[i].duracao >= 0) ==>
      0 <= minutos <= SumOf(catalogo, (sv: Servico) => sv.duracao)
  {
    var escolhidos := Filter(catalogo, (sv: Servico) => sv.id in servicoIds);
    DuracaoBounds(catalogo, servicoIds);
    SumOfFilter(catalogo, (sv: Servico) => sv.id in servicoIds, (sv: Servico) => sv.duracao);
    SumOf(escolhidos, (sv: Servico) => sv.duracao)
  }

  lemma DuracaoBounds(catalogo: seq<Servico>, servicoIds: seq<string>)
    ensures var escolhidos := Filter(catalogo, (sv: Servico) => sv.id in servicoIds);
      (forall i :: 0 <= i < |catalogo| ==> catalogo[i].duracao >= 0) ==>
      0 <= SumOf(escolhidos, (sv: Servico) => sv.duracao) <= SumOf(catalogo, (sv: Servico) => sv.duracao)
  {
    var escolhidos := Filter(catalogo, (sv: Servico) => sv.id in servicoIds);
    if forall i :: 0 <= i < |catalogo| ==> catalogo[i].duracao >= 0 {
      SumFilterBounded(catalogo, (sv: Servico) => sv.id in servicoIds, (sv: Servico) => sv.duracao);
      forall x | x in escolhidos ensures x.duracao >= 0 {
        var k :| 0 <= k < |escolhidos| && escolhidos[k] == x;
      }
      SumNonNegative(escolhidos, (sv: Servico) => sv.duracao);
    }
  }

  /** A catalogue service counts with its own duration exactly when the appointment lists its id. */
  lemma DuracaoSingleton(sv: Servico, servicoIds: seq<string>)
    ensures Duracao([sv], servicoIds) == if sv.id in servicoIds then sv.duracao else 0
  {
    var listado := (x: Servico) => x.id in servicoIds;
    var minutos := (x: Servico) => x.duracao;
    assert [sv][1..] == [];
    assert SumWhere([sv], listado, minutos) == (if listado(sv) then minutos(sv) else 0) + SumWhere([], listado, minutos);
  }

  /** Splitting the catalogue splits the duration: each service is counted in its own part. */
  lemma DuracaoAppend(c1: seq<Servico>, c2: seq<Servico>, servicoIds: seq<string>)
    ensures Duracao(c1 + c2, servicoIds) == Duracao(c1, servicoIds) + Duracao(c2, servicoIds)
  {
    var listado := (sv: Servico) => sv.id in servicoIds;
    FilterAppend(c1, c2, listado);
    SumAppend(Filter(c1, listado), Filter(c2, listado), (sv: Servico) => sv.duracao);
  }

  /**
   The duration depends only on which ids are listed: listing an id twice,
   or in another order, changes nothing.
   */
  lemma DuracaoDependsOnIdSet(catalogo: seq<Servico>, ids1: seq<string>, ids2: seq<string>)
    requires forall x :: x in ids1 <==> x in ids2
    ensures Duracao(catalogo, ids1) == Duracao(catalogo, ids2)
  {
    FilterCongruent(catalogo, (sv: Servico) => sv.id in ids1, (sv: Servico) => sv.id in ids2);
  }

  /** Repeating the id list does not count any service twice. */
  lemma DuracaoIgnoresRepeats(catalogo: seq<Servico>, ids: seq<string>)
    ensures Duracao(catalogo, ids + ids) == Duracao(catalogo, ids)
  {
    DuracaoDependsOnIdSet(catalogo, ids + ids, ids);
  }

  /** An id that names no catalogue service adds nothing. */
  lemma DuracaoIgnoresUnknownId(catalogo: seq<Servico>, ids: seq<string>, x: string)
    requires forall i :: 0 <= i < |catalogo| ==> catalogo[i].id != x
    ensures Duracao(catalogo, ids + [x]) == Duracao(catalogo, ids)
  {
    FilterCongruent(catalogo, (sv: Servico) => sv.id in ids + [x], (sv: Servico) => sv.id in ids);
  }

  /** `clientes.filter(c => c.ativo).length` */
  function ClientesAtivos(cs: seq<Cliente>): (n: nat)
    ensures n <= |cs|
    ensures (n == |cs|) <==> (forall i :: 0 <= i < |cs| ==> cs[i].ativo)
  {
    AllKeptIffFull(cs, (c: Cliente) => c.ativo);
    |Filter(cs, (c: Cliente) => c.ativo)|
  }

  /** `servicos.filter(s => s.ativo).length` */
  function ServicosAtivos(ss: seq<Servico>): (n: nat)
    ensures n <= |ss|
    ensures (n == |ss|) <==> (forall i :: 0 <= i < |ss| ==> ss[i].ativo)
  {
    AllKeptIffFull(ss, (sv: Servico) => sv.ativo);
    |Filter(ss, (sv: Servico) => sv.ativo)|
  }

  /** `getFuncionariosAtivos().length`, taking the context's helper to keep the active employees. */
  function FuncionariosAtivos(fs: seq<Funcionario>): (n: nat)
    ensures n <= |fs|
    ensures (n == |fs|) <==> (forall i :: 0 <= i < |fs| ==> fs[i].ativo)
  {
    AllKeptIffFull(fs, (f: Funcionario) => f.ativo);
    |Filter(fs, (f: Funcionario) => f.ativo)|
  }

  /** The three active counts agree with counting the active records one by one. */
  lemma AtivosAreCounted(cs: seq<Cliente>, ss: seq<Servico>, fs: seq<Funcionario>)
    ensures ClientesAtivos(cs) == Count(cs, (c: Cliente) => c.ativo)
    ensures ServicosAtivos(ss) == Count(ss, (sv: Servico) => sv.ativo)
    ensures FuncionariosAtivos(fs) == Count(fs, (f: Funcionario) => f.ativo)
  {
    CountIsFilterLength(cs, (c: Cliente) => c.ativo);
    CountIsFilterLength(ss, (sv: Servico) => sv.ativo);
    CountIsFilterLength(fs, (f: Funcionario) => f.ativo);
  }

  /** A filter keeps everything exactly when every element satisfies it. */
  lemma {:induction false} AllKeptIffFull<T>(s: seq<T>, p: T -> bool)
    ensures |Filter(s, p)| == |s| <==> forall i :: 0 <= i < |s| ==> p(s[i])
  {
    if |s| > 0 {
      AllKeptIffFull(s[1..], p);
      assert forall i :: 1 <= i < |s| ==> s[i] == s[1..][i - 1];
    }
  }

  const MaxLista: nat := 10

  /** `agendamentos.slice(0, 10)`: the first ten appointments in store order. */
  function ListaAgendamentos(ags: seq<Agendamento>): (r: seq<Agendamento>)
    ensures |r| == if |ags| < MaxLista then |ags| else MaxLista
    ensures forall i :: 0 <= i < |r| ==> r[i] == ags[i]
  {
    Take(ags, MaxLista)
  }
}
