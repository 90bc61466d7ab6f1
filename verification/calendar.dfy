/**
 The read-side projections of the calendar component: the selected day's
 appointment list, the per-date appointment counts shown as badges, and the
 status colour and label of each row. The list of appointments is the one
 the store context holds; which timestamps fall on the selected day and the
 "YYYY-MM-DD" key of a timestamp are parameters.
 */
module Calendar {
  import opened Wrappers
  import opened Seqs
  import opened Ordering
  import opened Entities

  /** The id the employee filter uses for "all employees". */
  const TodosId: string := "0"

  /**
   Whether an appointment passes the selected-employee filter: no selection,
   the `'0'` selection, or a matching `funcionarioId`.
   */
  predicate PassaFiltro(sel: Option<string>, a: Agendamento)
  {
    sel.None? || sel.value == TodosId || a.funcionarioId == sel.value
  }

  /** `a.horarioInicio.localeCompare(b.horarioInicio)` */
  function ChaveHorario(a: Agendamento): SortKey
  {
    [Text(a.horarioInicio)]
  }

  /** Appointments on the day that pass the filter, in one predicate. */
  predicate NaVistaDoDia(noDia: Timestamp -> bool, sel: Option<string>, a: Agendamento)
  {
    noDia(a.data) && PassaFiltro(sel, a)
  }

  /**
   The two filtering steps of `filteredAppointments`: the day's appointments
   (`getAgendamentosByDate`), then, unless the selection is absent or `'0'`,
   those of the selected employee.
   */
  function Filtrados(ags: seq<Agendamento>, noDia: Timestamp -> bool, sel: Option<string>): seq<Agendamento>
  {
    var doDia := Filter(ags, (a: Agendamento) => noDia(a.data));
    if sel.Some? && sel.value != TodosId then Filter(doDia, (a: Agendamento) => a.funcionarioId == sel.value)
    else doDia
  }

  /** The two steps select exactly what the single day-and-filter predicate selects, in order. */
  lemma FiltradosIsOneFilter(ags: seq<Agendamento>, noDia: Timestamp -> bool, sel: Option<string>)
    ensures Filtrados(ags, noDia, sel) == Filter(ags, (a: Agendamento) => NaVistaDoDia(noDia, sel, a))
  {
    var p := (a: Agendamento) => NaVistaDoDia(noDia, sel, a);
    if sel.Some? && sel.value != TodosId {
      FilterFilter(ags, (a: Agendamento) => noDia(a.data), (a: Agendamento) => a.funcionarioId == sel.value, p);
    } else {
      FilterCongruent(ags, (a: Agendamento) => noDia(a.data), p);
    }
  }

  /**
   `filteredAppointments`: the selected day's appointments passing the
   employee filter, sorted by start time.
   */
  function DayView(ags: seq<Agendamento>, noDia: Timestamp -> bool, sel: Option<string>): (r: seq<Agendamento>)
    ensures multiset(r) == multiset(Filter(ags, (a: Agendamento) => NaVistaDoDia(noDia, sel, a)))
    ensures forall i :: 0 <= i < |r| ==> r[i] in ags && noDia(r[i].data) && PassaFiltro(sel, r[i])
    ensures forall i :: 0 <= i < |ags| && noDia(ags[i].data) && PassaFiltro(sel, ags[i]) ==> ags[i] in r
    ensures forall i, j :: 0 <= i < j < |r| ==> !StrLess(r[j].horarioInicio, r[i].horarioInicio)
  {
    FiltradosIsOneFilter(ags, noDia, sel);
    var r := SortBy(Filtrados(ags, noDia, sel), ChaveHorario);
    HorarioOrdenado(r);
    r
  }

  /** Sorted by the start-time key means start times never decrease. */
  lemma HorarioOrdenado(r: seq<Agendamento>)
    requires SortedBy(r, ChaveHorario)
    ensures forall i, j :: 0 <= i < j < |r| ==> !StrLess(r[j].horarioInicio, r[i].horarioInicio)
  {
    forall i, j | 0 <= i < j < |r| ensures !StrLess(r[j].horarioInicio, r[i].horarioInicio) {
      KeyLeTextHead(ChaveHorario(r[i]), ChaveHorario(r[j]));
    }
  }

  /** The number of appointments with date key `k` that pass the filter. */
  function Contagem(ags: seq<Agendamento>, chaveDia: Timestamp -> string, sel: Option<string>, k: string): nat
  {
    Count(ags, (a: Agendamento) => chaveDia(a.data) == k && PassaFiltro(sel, a))
  }

  /**
   `appointmentsByDate`: one pass over the appointments in order; a passing
   appointment bumps its date's count, starting from 0. A date with no
   passing appointment gets no entry.
   */
  function DateCounts(ags: seq<Agendamento>, chaveDia: Timestamp -> string, sel: Option<string>): (m: map<string, nat>)
    ensures forall k :: k in m <==> Contagem(ags, chaveDia, sel, k) > 0
    ensures forall k :: k in m ==> m[k] == Contagem(ags, chaveDia, sel, k)
  {
    if |ags| == 0 then map[]
    else
      var prev := DateCounts(ags[..|ags| - 1], chaveDia, sel);
      var a := ags[|ags| - 1];
      var k := chaveDia(a.data);
      var atual := if k in prev then prev[k] else 0;
      if PassaFiltro(sel, a) then prev[k := atual + 1] else prev
  }

  /** `appointmentsByDate.get(dateKey) || 0`: the badge of one calendar cell. */
  function Badge(m: map<string, nat>, k: string): nat
  {
    if k in m then m[k] else 0
  }

  /** A cell's badge is the number of passing appointments on that date, 0 when there are none. */
  lemma BadgeIsCount(ags: seq<Agendamento>, chaveDia: Timestamp -> string, sel: Option<string>, k: string)
    ensures Badge(DateCounts(ags, chaveDia, sel), k) == Contagem(ags, chaveDia, sel, k)
  {
  }

  /** The `'0'` selection and no selection give the same day view. */
  lemma ZeroFilterDayView(ags: seq<Agendamento>, noDia: Timestamp -> bool)
    ensures DayView(ags, noDia, Some(TodosId)) == DayView(ags, noDia, None)
  {
  }

  /** The `'0'` selection and no selection give the same counts. */
  lemma {:induction false} ZeroFilterCounts(ags: seq<Agendamento>, chaveDia: Timestamp -> string)
    ensures DateCounts(ags, chaveDia, Some(TodosId)) == DateCounts(ags, chaveDia, None)
  {
    if |ags| > 0 {
      ZeroFilterCounts(ags[..|ags| - 1], chaveDia);
    }
  }

  /** Selecting an employee never raises a date's count above the unfiltered one. */
  lemma FilteredCountsBounded(ags: seq<Agendamento>, chaveDia: Timestamp -> string, sel: Option<string>, k: string)
    ensures Badge(DateCounts(ags, chaveDia, sel), k) <= Badge(DateCounts(ags, chaveDia, None), k)
  {
    var p := (a: Agendamento) => chaveDia(a.data) == k && PassaFiltro(sel, a);
    var q := (a: Agendamento) => chaveDia(a.data) == k && PassaFiltro(None, a);
    assert forall a: Agendamento :: PassaFiltro(None, a);
    CountMonotone(ags, p, q);
  }

  /** The colour of each status in the calendar. */
  const Cores: map<string, string> := map[
    Agendado := "#ed8936",
    Confirmado := "#48bb78",
    EmAndamento := "#00bcd4",
    Concluido := "#38a169",
    Cancelado := "#e53e3e"]

  /** The fallback colour for a status with no colour of its own. */
  const Cinza: string := "#gray"

  /**
   `getAppointmentStatusColor`, with the lookup restricted to the table's own
   entries: each of the five statuses has its fixed colour, any other string
   gets the fallback.
   */
  function CorStatus(status: string): (cor: string)
    ensures status == Agendado ==> cor == "#ed8936"
    ensures status == Confirmado ==> cor == "#48bb78"
    ensures status == EmAndamento ==> cor == "#00bcd4"
    ensures status == Concluido ==> cor == "#38a169"
    ensures status == Cancelado ==> cor == "#e53e3e"
    ensures status !in Statuses ==> cor == Cinza
  {
    if status in Cores then Cores[status] else Cinza
  }

  /** The names every object literal inherits from `Object.prototype`. */
  const HerdadasDeObject: set<string> := {
    "constructor", "hasOwnProperty", "isPrototypeOf", "propertyIsEnumerable",
    "toLocaleString", "toString", "valueOf", "__proto__",
    "__defineGetter__", "__defineSetter__", "__lookupGetter__", "__lookupSetter__"}

  /** What `colors[status]` yields as written: an own colour, or an inherited member. */
  datatype Cor = Hex(code: string) | Herdada(nome: string)

  /**
   `getAppointmentStatusColor` as written: `colors[status] || '#gray'` looks
   the status up through the prototype chain, so an inherited member (a
   function, or the prototype object) is truthy and is returned.
   */
  function CorStatusComoEscrito(status: string): Cor
  {
    if status in Cores then Hex(Cores[status])
    else if status in HerdadasDeObject then Herdada(status)
    else Hex(Cinza)
  }

  /** As written, the status `"constructor"` gets no colour string at all, not the fallback. */
  lemma CorStatusComoEscritoNaoTotal()
    ensures "constructor" !in Statuses
    ensures CorStatusComoEscrito("constructor") != Hex(CorStatus("constructor"))
  {
  }

  /** The two agree on every status that is not an inherited member name. */
  lemma CorStatusAgreesOffPrototype(status: string)
    requires status !in HerdadasDeObject
    ensures CorStatusComoEscrito(status) == Hex(CorStatus(status))
  {
  }

  /** ASCII upper-casing of one character; any other character is unchanged. */
  function Maiuscula(c: char): char
  {
    if 'a' <= c <= 'z' then (c as int - 32) as char else c
  }

  /** The position of the first `c` in `s`, or `|s|` when there is none. */
  function PrimeiroIndice(s: string, c: char): (i: nat)
    ensures i <= |s|
    ensures i < |s| ==> s[i] == c
    ensures forall j :: 0 <= j < i ==> s[j] != c
  {
    if |s| == 0 then 0
    else if s[0] == c then 0
    else 1 + PrimeiroIndice(s[1..], c)
  }

  /** `s.replace(from, to)` with a string pattern: only the first occurrence is replaced. */
  function SubstituiPrimeiro(s: string, from: char, to: char): (r: string)
    ensures |r| == |s|
    ensures forall i :: 0 <= i < |s| ==> r[i] == if i == PrimeiroIndice(s, from) then to else s[i]
  {
    if |s| == 0 then ""
    else if s[0] == from then [to] + s[1..]
    else [s[0]] + SubstituiPrimeiro(s[1..], from, to)
  }

  /** `status.replace('_', ' ').toUpperCase()`: the badge text of a status. */
  function RotuloStatus(status: string): (r: string)
    ensures |r| == |status|
    ensures forall i :: 0 <= i < |status| ==>
      r[i] == if i == PrimeiroIndice(status, '_') then ' ' else Maiuscula(status[i])
  {
    var t := SubstituiPrimeiro(status, '_', ' ');
    seq(|t|, i requires 0 <= i < |t| => Maiuscula(t[i]))
  }

  /**
   Only the first underscore becomes a space: any later underscore is kept
   in the label.
   */
  lemma RotuloSubstituiSoOPrimeiro(status: string, p: nat, q: nat)
    requires p < q < |status| && status[p] == '_' && status[q] == '_'
    requires forall j :: 0 <= j < p ==> status[j] != '_'
    ensures RotuloStatus(status)[p] == ' '
    ensures RotuloStatus(status)[q] == '_'
  {
    var i := PrimeiroIndice(status, '_');
    assert i == p;
  }

}
