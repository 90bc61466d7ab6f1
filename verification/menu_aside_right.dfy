/**
 The side panel's day summary: today's appointments under the employee
 filter, their completed revenue, the next scheduled appointment, the
 active-client count and the shop's display name. "Today" and "now" are
 parameters.
 */
module MenuAsideRight {
  import opened Wrappers
  import opened Seqs
  import opened Ordering
  import opened Entities
  import Calendar
  import StorePage

  /** `todayAppointments`: today's appointments passing the employee filter, in store order. */
  function TodayAppointments(ags: seq<Agendamento>, ehHoje: Timestamp -> bool, sel: Option<string>): (r: seq<Agendamento>)
    ensures forall i :: 0 <= i < |r| ==> r[i] in ags && ehHoje(r[i].data) && Calendar.PassaFiltro(sel, r[i])
    ensures forall i :: 0 <= i < |ags| && ehHoje(ags[i].data) && Calendar.PassaFiltro(sel, ags[i]) ==> ags[i] in r
    ensures multiset(r) <= multiset(ags)
    ensures |r| == Count(ags, (a: Agendamento) => ehHoje(a.data) && Calendar.PassaFiltro(sel, a))
  {
    FilterSubMultiset(ags, (a: Agendamento) => ehHoje(a.data) && Calendar.PassaFiltro(sel, a));
    CountIsFilterLength(ags, (a: Agendamento) => ehHoje(a.data) && Calendar.PassaFiltro(sel, a));
    Filter(ags, (a: Agendamento) => ehHoje(a.data) && Calendar.PassaFiltro(sel, a))
  }

  /** No selection and the `'0'` selection list the same appointments. */
  lemma TodayZeroFilter(ags: seq<Agendamento>, ehHoje: Timestamp -> bool)
    ensures TodayAppointments(ags, ehHoje, Some(Calendar.TodosId)) == TodayAppointments(ags, ehHoje, None)
  {
    var p := (a: Agendamento) => ehHoje(a.data) && Calendar.PassaFiltro(Some(Calendar.TodosId), a);
    var q := (a: Agendamento) => ehHoje(a.data) && Calendar.PassaFiltro(None, a);
    forall a | a in ags ensures p(a) == q(a) {
      assert Calendar.PassaFiltro(Some(Calendar.TodosId), a);
      assert p(a) == (ehHoje(a.data) && Calendar.PassaFiltro(Some(Calendar.TodosId), a));
      assert q(a) == ehHoje(a.data);
    }
    FilterCongruent(ags, p, q);
  }

  /**
   `todayRevenue`: the sum of `precoTotal` over the appointments dated today,
   passing the employee filter and completed.
   */
  function TodayRevenue(ags: seq<Agendamento>, ehHoje: Timestamp -> bool, sel: Option<string>): (total: int)
    ensures total == SumWhere(ags,
      (a: Agendamento) => (ehHoje(a.data) && Calendar.PassaFiltro(sel, a)) && a.status == Concluido,
      (a: Agendamento) => a.precoTotal)
  {
    SumWhereFilter(ags, (a: Agendamento) => ehHoje(a.data) && Calendar.PassaFiltro(sel, a),
      (a: Agendamento) => a.status == Concluido,
      (a: Agendamento) => (ehHoje(a.data) && Calendar.PassaFiltro(sel, a)) && a.status == Concluido,
      (a: Agendamento) => a.precoTotal);
    StorePage.Receita(TodayAppointments(ags, ehHoje, sel))
  }

  /** The panel's revenue is non-negative when prices are, and 0 when nothing is completed. */
  lemma TodayRevenueBounds(ags: seq<Agendamento>, ehHoje: Timestamp -> bool, sel: Option<string>)
    ensures (forall i :: 0 <= i < |ags| ==> ags[i].precoTotal >= 0) ==> TodayRevenue(ags, ehHoje, sel) >= 0
    ensures (forall i :: 0 <= i < |ags| ==> ags[i].status != Concluido) ==> TodayRevenue(ags, ehHoje, sel) == 0
  {
    var hoje := TodayAppointments(ags, ehHoje, sel);
    assert (forall i :: 0 <= i < |ags| ==> ags[i].precoTotal >= 0) ==> (forall i :: 0 <= i < |hoje| ==> hoje[i].precoTotal >= 0) by {
      forall i | 0 <= i < |hoje| ensures hoje[i] in ags {}
    }
    assert (forall i :: 0 <= i < |ags| ==> ags[i].status != Concluido) ==> (forall i :: 0 <= i < |hoje| ==> hoje[i].status != Concluido) by {
      forall i | 0 <= i < |hoje| ensures hoje[i] in ags {}
    }
  }

  /**
   Without an employee selection the panel's revenue is the dashboard's
   `faturamentoHoje`, provided the panel's "today" (`isToday`) and the
   dashboard's (the date key of `new Date()`) agree on the appointments' dates.
   */
  lemma TodayRevenueMatchesDashboard(ags: seq<Agendamento>, ehHoje: Timestamp -> bool, doDia: Timestamp -> bool)
    requires forall i :: 0 <= i < |ags| ==> ehHoje(ags[i].data) == doDia(ags[i].data)
    ensures TodayRevenue(ags, ehHoje, None) == StorePage.FaturamentoHoje(ags, doDia)
  {
    var p := (a: Agendamento) => ehHoje(a.data) && Calendar.PassaFiltro(None, a);
    var q := (a: Agendamento) => doDia(a.data);
    forall a | a in ags ensures p(a) == q(a) {
      assert Calendar.PassaFiltro(None, a);
    }
    FilterCongruent(ags, p, q);
  }

  /** Eligible for "next appointment": scheduled, not in the past, passing the filter. */
  predicate Proxima(agora: Timestamp, sel: Option<string>, a: Agendamento)
  {
    StorePage.Elegivel(agora, a) && Calendar.PassaFiltro(sel, a)
  }

  /**
   `nextAppointment`: the first of the eligible appointments sorted by date,
   or undefined when there is none.
   */
  function Proximas(ags: seq<Agendamento>, agora: Timestamp, sel: Option<string>): seq<Agendamento>
  {
    Filter(ags, (a: Agendamento) => Proxima(agora, sel, a))
  }

  function NextAppointment(ags: seq<Agendamento>, agora: Timestamp, sel: Option<string>): (r: Option<Agendamento>)
    ensures r.None? <==> forall i :: 0 <= i < |ags| ==> !Proxima(agora, sel, ags[i])
    ensures r.Some? ==> r.value in ags && Proxima(agora, sel, r.value)
    ensures r.Some? ==> forall i :: 0 <= i < |ags| && Proxima(agora, sel, ags[i]) ==> r.value.data <= ags[i].data
  {
    var ordenados := SortBy(Proximas(ags, agora, sel), StorePage.ChaveData);
    if |ordenados| == 0 then
      NoneWhenNothingEligible(ags, agora, sel, ordenados);
      None
    else
      HeadIsEarliest(ags, agora, sel, ordenados);
      Some(ordenados[0])
  }

  lemma NoneWhenNothingEligible(ags: seq<Agendamento>, agora: Timestamp, sel: Option<string>, ordenados: seq<Agendamento>)
    requires ordenados == SortBy(Proximas(ags, agora, sel), StorePage.ChaveData)
    requires |ordenados| == 0
    ensures forall i :: 0 <= i < |ags| ==> !Proxima(agora, sel, ags[i])
  {
  }

  lemma HeadIsEarliest(ags: seq<Agendamento>, agora: Timestamp, sel: Option<string>, ordenados: seq<Agendamento>)
    requires ordenados == SortBy(Proximas(ags, agora, sel), StorePage.ChaveData)
    requires |ordenados| > 0
    ensures ordenados[0] in ags && Proxima(agora, sel, ordenados[0])
    ensures forall i :: 0 <= i < |ags| && Proxima(agora, sel, ags[i]) ==> ordenados[0].data <= ags[i].data
  {
    var e := Proximas(ags, agora, sel);
    assert ordenados[0] in e;
    forall i | 0 <= i < |ags| && Proxima(agora, sel, ags[i]) ensures ordenados[0].data <= ags[i].data {
      assert ags[i] in e;
      var j :| 0 <= j < |ordenados| && ordenados[j] == ags[i];
      if j > 0 {
        KeyLeNumHead(StorePage.ChaveData(ordenados[0]), StorePage.ChaveData(ordenados[j]));
      }
    }
  }

  /**
   Without an employee selection the next appointment is the head of the
   dashboard's upcoming list.
   */
  lemma NextIsFirstUpcoming(ags: seq<Agendamento>, agora: Timestamp)
    ensures |StorePage.ProximosAgendamentos(ags, agora)| == 0 ==> NextAppointment(ags, agora, None).None?
    ensures |StorePage.ProximosAgendamentos(ags, agora)| > 0 ==>
      NextAppointment(ags, agora, None) == Some(StorePage.ProximosAgendamentos(ags, agora)[0])
  {
    var p := (a: Agendamento) => Proxima(agora, None, a);
    var q := (a: Agendamento) => StorePage.Elegivel(agora, a);
    forall a | a in ags ensures p(a) == q(a) {}
    FilterCongruent(ags, p, q);
    assert Proximas(ags, agora, None) == StorePage.Elegiveis(ags, agora);
  }

  /** `activeClientsCount`: the same figure as the dashboard's active-client count. */
  function ActiveClientsCount(cs: seq<Cliente>): (n: nat)
    ensures n == StorePage.ClientesAtivos(cs)
    ensures n <= |cs|
  {
    StorePage.AtivosAreCounted(cs, [], []);
    Count(cs, (c: Cliente) => c.ativo)
  }

  const NomePadrao: string := "Barbearia"

  /** `barbearia?.nomeEstabelecimento || 'Barbearia'`: an absent tenant or an empty name falls back. */
  function DisplayName(b: Option<Barbearia>): (nome: string)
    ensures b.Some? && b.value.nomeEstabelecimento != "" ==> nome == b.value.nomeEstabelecimento
    ensures b.None? || b.value.nomeEstabelecimento == "" ==> nome == NomePadrao
    ensures nome != ""
  {
    match b
    case Some(x) => if x.nomeEstabelecimento != "" then x.nomeEstabelecimento else NomePadrao
    case None => NomePadrao
  }
}
