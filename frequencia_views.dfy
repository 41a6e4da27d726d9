/**
 * The attendance views (frequencia/views.py): the calendar's month
 * arithmetic and its grouping of a month's lessons by day, the lesson status
 * change, the one-click attendance registration and the attendance ranking
 * of the dashboard. The lesson and attendance tables live in an `Agenda`.
 */
module Frequencia {
  import opened Wrappers
  import opened Dates
  import opened Alunos

  /** A scheduled lesson (`AgendaAula`) with the trainer of its student; times in minutes. */
  datatype Aula = Aula(
    pk: int, aluno: int, treinador: int, data: Date, inicio: int, fim: int,
    status: string, tipoTreino: string, observacoes: string)

  /** An attendance record (`RegistroPresenca`). */
  datatype Registro = Registro(
    aluno: int, data: Date, inicio: int, fim: int, status: string, observacoes: string)

  /** The lesson and attendance tables. */
  class Agenda {
    var aulas: seq<Aula>
    var registros: seq<Registro>

    constructor ()
      ensures aulas == [] && registros == []
    {
      aulas := [];
      registros := [];
    }

    /**
     * `alterar_status_aula` / `alterar_status_rapido` on POST: the trainer's
     * lesson takes the new status only when it is one of the status choices.
     */
    method AlterarStatus(pk: int, treinador: int, novo: Option<string>, choices: set<string>)
        returns (r: Resposta)
      modifies this`aulas
      ensures r == NaoEncontrada <==> IndiceAula(old(aulas), pk, treinador).None?
      ensures r == StatusInvalido <==>
                IndiceAula(old(aulas), pk, treinador).Some? && !(novo.Some? && novo.value in choices)
      ensures r != Ok ==> aulas == old(aulas)
      ensures r == Ok ==>
                var i := IndiceAula(old(aulas), pk, treinador).value;
                aulas == old(aulas)[i := old(aulas)[i].(status := novo.value)]
      ensures r == Ok || r == NaoEncontrada || r == StatusInvalido
    {
      var indice := IndiceAula(aulas, pk, treinador);
      if indice.None? {
        return NaoEncontrada;
      }
      if novo.Some? && novo.value in choices {
        var i := indice.value;
        aulas := aulas[i := aulas[i].(status := novo.value)];
        r := Ok;
      } else {
        r := StatusInvalido;
      }
    }

    /**
     * `registrar_presenca_rapido`: refuses when the lesson already has an
     * attendance record; otherwise adds one `presente` record copied from the
     * lesson and marks the lesson `realizado`.
     */
    method RegistrarPresencaRapido(pk: int, treinador: int) returns (r: Resposta)
      modifies this`aulas, this`registros
      ensures r == NaoEncontrada <==> IndiceAula(old(aulas), pk, treinador).None?
      ensures r == JaRegistrada <==>
                IndiceAula(old(aulas), pk, treinador).Some?
                && JaTemRegistro(old(registros), old(aulas)[IndiceAula(old(aulas), pk, treinador).value])
      ensures r != Ok ==> aulas == old(aulas) && registros == old(registros)
      ensures r == Ok ==>
                var i := IndiceAula(old(aulas), pk, treinador).value;
                registros == old(registros) + [NovoRegistro(old(aulas)[i])]
                && aulas == old(aulas)[i := old(aulas)[i].(status := "realizado")]
      ensures r == Ok || r == NaoEncontrada || r == JaRegistrada
    {
      var indice := IndiceAula(aulas, pk, treinador);
      if indice.None? {
        return NaoEncontrada;
      }
      var i := indice.value;
      var aula := aulas[i];
      if JaTemRegistro(registros, aula) {
        return JaRegistrada;
      }
      registros := registros + [NovoRegistro(aula)];
      aulas := aulas[i := aula.(status := "realizado")];
      r := Ok;
    }
  }

  datatype Resposta = Ok | NaoEncontrada | StatusInvalido | JaRegistrada

  /** `get_object_or_404(AgendaAula, pk=pk, aluno__personal_trainer=user)`. */
  function IndiceAula(aulas: seq<Aula>, pk: int, treinador: int): (r: Option<nat>)
    ensures r.Some? ==> r.value < |aulas| && aulas[r.value].pk == pk && aulas[r.value].treinador == treinador
    ensures r.None? <==> forall i :: 0 <= i < |aulas| ==> !(aulas[i].pk == pk && aulas[i].treinador == treinador)
  {
    if aulas == [] then None
    else if aulas[0].pk == pk && aulas[0].treinador == treinador then Some(0)
    else
      match IndiceAula(aulas[1..], pk, treinador)
      case None => None
      case Some(k) => Some(k + 1)
  }

  /** A record for the lesson's student, date and start time already exists. */
  function JaTemRegistro(registros: seq<Registro>, a: Aula): (b: bool)
    ensures b <==> exists i :: 0 <= i < |registros| && registros[i].aluno == a.aluno
                     && registros[i].data == a.data && registros[i].inicio == a.inicio
  {
    if registros == [] then false
    else if registros[0].aluno == a.aluno && registros[0].data == a.data && registros[0].inicio == a.inicio then true
    else
      var b := JaTemRegistro(registros[1..], a);
      assert forall i :: 1 <= i < |registros| ==> registros[i] == registros[1..][i - 1];
      b
  }

  /** The record a quick registration creates for a lesson. */
  function NovoRegistro(a: Aula): (g: Registro)
    ensures g.aluno == a.aluno && g.data == a.data && g.inicio == a.inicio && g.fim == a.fim
    ensures g.status == "presente"
  {
    Registro(a.aluno, a.data, a.inicio, a.fim, "presente", "Aula realizada - " + a.tipoTreino)
  }

  /** After one registration of a lesson, a second one for the same lesson is refused. */
  lemma RegistroUnico(registros: seq<Registro>, a: Aula)
    ensures JaTemRegistro(registros + [NovoRegistro(a)], a)
  {
    var rs := registros + [NovoRegistro(a)];
    assert rs[|registros|] == NovoRegistro(a);
  }

  // ---------------------------------------------------------------------
  // Calendar

  /** A month outside 1..12 becomes today's month; a year outside 2020..2030 today's year. */
  function ClampMesAno(mes: int, ano: int, hoje: Date): (r: (int, int))
    ensures r.0 == mes <==> 1 <= mes <= 12 || mes == hoje.month
    ensures r.0 != mes ==> r.0 == hoje.month
    ensures r.1 == ano <==> 2020 <= ano <= 2030 || ano == hoje.year
    ensures r.1 != ano ==> r.1 == hoje.year
  {
    var m := if mes < 1 || mes > 12 then hoje.month else mes;
    var a := if ano < 2020 || ano > 2030 then hoje.year else ano;
    (m, a)
  }

  /** For a valid today the clamped month is a real month, and clamping again changes nothing. */
  lemma ClampMesAnoEstavel(mes: int, ano: int, hoje: Date)
    requires Valid(hoje)
    ensures var r := ClampMesAno(mes, ano, hoje);
            1 <= r.0 <= 12 && r.1 >= 1 && ClampMesAno(r.0, r.1, hoje) == r
  {
  }

  /** `ultimo_dia`: the day before the first of the next month. */
  function UltimoDia(ano: int, mes: int): (r: Date)
    requires 1 <= ano && 1 <= mes <= 12
    ensures Valid(r) && r.year == ano && r.month == mes
    ensures forall d :: Valid(d) && d.year == ano && d.month == mes ==> NotAfter(d, r)
    ensures r.day == DaysInMonth(ano, mes)
  {
    if mes == 12 then PrevDay(Date(ano + 1, 1, 1))
    else PrevDay(Date(ano, mes + 1, 1))
  }

  /** The month before (mes, ano), wrapping January to December of the year before. */
  function MesAnterior(mes: int, ano: int): (r: (int, int))
    requires 1 <= mes <= 12
    ensures 1 <= r.0 <= 12
    ensures MonthIndex(r.1, r.0) == MonthIndex(ano, mes) - 1
    ensures r.1 == (if mes == 1 then ano - 1 else ano)
  {
    if mes == 1 then (12, ano - 1) else (mes - 1, ano)
  }

  /** The month after (mes, ano), wrapping December to January of the year after. */
  function MesProximo(mes: int, ano: int): (r: (int, int))
    requires 1 <= mes <= 12
    ensures 1 <= r.0 <= 12
    ensures MonthIndex(r.1, r.0) == MonthIndex(ano, mes) + 1
    ensures r.1 == (if mes == 12 then ano + 1 else ano)
  {
    if mes == 12 then (1, ano + 1) else (mes + 1, ano)
  }

  /** Previous and next month undo each other, and the next month is one month's relativedelta. */
  lemma MesAnteriorProximoInversos(mes: int, ano: int)
    requires 1 <= mes <= 12
    ensures var p := MesAnterior(mes, ano); MesProximo(p.0, p.1) == (mes, ano)
    ensures var q := MesProximo(mes, ano); MesAnterior(q.0, q.1) == (mes, ano)
    ensures var q := MesProximo(mes, ano); AddMonths(ano, mes, 1) == (q.1, q.0)
  {
    var p := MesAnterior(mes, ano);
    var n := MesProximo(p.0, p.1);
    MonthIndexInjective(n.1, n.0, ano, mes);
    var q := MesProximo(mes, ano);
    var b := MesAnterior(q.0, q.1);
    MonthIndexInjective(b.1, b.0, ano, mes);
    var s := AddMonths(ano, mes, 1);
    MonthIndexInjective(s.0, s.1, q.1, q.0);
  }

  /** Calendar order of lessons: by date, then by start time. */
  predicate NaoDepois(a: Aula, b: Aula) {
    Before(a.data, b.data) || (a.data == b.data && a.inicio <= b.inicio)
  }

  lemma NaoDepoisOrdem(a: Aula, b: Aula, c: Aula)
    ensures NaoDepois(a, b) && NaoDepois(b, c) ==> NaoDepois(a, c)
    ensures NaoDepois(a, b) || NaoDepois(b, a)
  {
    OrderFacts(a.data, b.data, c.data);
  }

  predicate OrdenadaNaAgenda(s: seq<Aula>) {
    forall i, j :: 0 <= i < j < |s| ==> NaoDepois(s[i], s[j])
  }

  lemma OrdenadaNaAgendaCons(a: Aula, s: seq<Aula>)
    requires OrdenadaNaAgenda(s)
    requires forall b :: b in s ==> NaoDepois(a, b)
    ensures OrdenadaNaAgenda([a] + s)
  {
    forall i, j | 0 <= i < j < |[a] + s| ensures NaoDepois(([a] + s)[i], ([a] + s)[j]) {
      if i == 0 {
        assert ([a] + s)[j] == s[j - 1];
      } else {
        assert ([a] + s)[i] == s[i - 1] && ([a] + s)[j] == s[j - 1];
      }
    }
  }

  /** In a sorted agenda, a lesson no later than the head is no later than every lesson. */
  lemma CabecaLimita(a: Aula, s: seq<Aula>)
    requires OrdenadaNaAgenda(s) && s != [] && NaoDepois(a, s[0])
    ensures forall b :: b in s ==> NaoDepois(a, b)
  {
    forall b | b in s ensures NaoDepois(a, b) {
      var k :| 0 <= k < |s| && s[k] == b;
      if k > 0 {
        assert NaoDepois(s[0], s[k]);
      }
      NaoDepoisOrdem(a, s[0], b);
    }
  }

  /** The tail of a sorted agenda is sorted, and its head comes no later than all of it. */
  lemma CaudaOrdenada(s: seq<Aula>)
    requires OrdenadaNaAgenda(s) && s != []
    ensures OrdenadaNaAgenda(s[1..])
    ensures forall b :: b in s[1..] ==> NaoDepois(s[0], b)
  {
    forall i, j | 0 <= i < j < |s[1..]| ensures NaoDepois(s[1..][i], s[1..][j]) {
      assert s[1..][i] == s[i + 1] && s[1..][j] == s[j + 1];
    }
    forall b | b in s[1..] ensures NaoDepois(s[0], b) {
      var k :| 0 <= k < |s[1..]| && s[1..][k] == b;
      assert s[k + 1] == b;
    }
  }

  /** A lower bound of a lesson and of an agenda bounds every lesson of a permutation of the two. */
  lemma LimiteInferior(x: Aula, a: Aula, s: seq<Aula>, r: seq<Aula>)
    requires multiset(r) == multiset(s) + multiset{a}
    requires NaoDepois(x, a)
    requires forall b :: b in s ==> NaoDepois(x, b)
    ensures forall b :: b in r ==> NaoDepois(x, b)
  {
    forall b | b in r ensures NaoDepois(x, b) {
      assert b in multiset(r);
      if b != a {
        assert b in multiset(s);
      }
    }
  }

  function InserirNaAgenda(a: Aula, s: seq<Aula>): (r: seq<Aula>)
    requires OrdenadaNaAgenda(s)
    ensures OrdenadaNaAgenda(r)
    ensures multiset(r) == multiset(s) + multiset{a}
  {
    if s == [] then [a]
    else if NaoDepois(a, s[0]) then
      CabecaLimita(a, s);
      OrdenadaNaAgendaCons(a, s);
      [a] + s
    else
      CaudaOrdenada(s);
      NaoDepoisOrdem(a, s[0], a);
      var rest := InserirNaAgenda(a, s[1..]);
      LimiteInferior(s[0], a, s[1..], rest);
      OrdenadaNaAgendaCons(s[0], rest);
      assert s == [s[0]] + s[1..];
      [s[0]] + rest
  }

  /** `order_by('data_aula', 'horario_inicio')`. */
  function OrdenarNaAgenda(s: seq<Aula>): (r: seq<Aula>)
    ensures OrdenadaNaAgenda(r)
    ensures multiset(r) == multiset(s)
  {
    if s == [] then []
    else
      assert s == [s[0]] + s[1..];
      InserirNaAgenda(s[0], OrdenarNaAgenda(s[1..]))
  }

  /** The trainer's lessons dated between `de` and `ate`, both included, in table order. */
  function AulasEntre(aulas: seq<Aula>, treinador: int, de: Date, ate: Date): (r: seq<Aula>)
    ensures forall a :: a in r <==>
              a in aulas && a.treinador == treinador && NotAfter(de, a.data) && NotAfter(a.data, ate)
  {
    if aulas == [] then []
    else
      var rest := AulasEntre(aulas[1..], treinador, de, ate);
      assert forall a :: a in aulas <==> a == aulas[0] || a in aulas[1..] by {
        assert aulas == [aulas[0]] + aulas[1..];
      }
      if aulas[0].treinador == treinador && NotAfter(de, aulas[0].data) && NotAfter(aulas[0].data, ate)
      then [aulas[0]] + rest
      else rest
  }

  /** `aulas_mes`: the trainer's lessons of the month, in calendar order. */
  function AulasDoMes(aulas: seq<Aula>, treinador: int, ano: int, mes: int): (r: seq<Aula>)
    requires 1 <= ano && 1 <= mes <= 12
    ensures OrdenadaNaAgenda(r)
    ensures forall a :: a in r <==>
              a in aulas && a.treinador == treinador && a.data.year == ano && a.data.month == mes
              && 1 <= a.data.day <= DaysInMonth(ano, mes)
  {
    var r := OrdenarNaAgenda(AulasEntre(aulas, treinador, Date(ano, mes, 1), UltimoDia(ano, mes)));
    assert forall a :: a in r <==> a in multiset(r);
    r
  }

  /** The lessons of `s` held on day `dia` of their month, in the order of `s`. */
  function DoDia(s: seq<Aula>, dia: int): (r: seq<Aula>)
    ensures forall a :: a in r <==> a in s && a.data.day == dia
  {
    if s == [] then []
    else
      var ultima := s[|s| - 1];
      assert forall a :: a in s <==> a in s[..|s| - 1] || a == ultima by {
        assert s == s[..|s| - 1] + [ultima];
      }
      if ultima.data.day == dia then DoDia(s[..|s| - 1], dia) + [ultima]
      else DoDia(s[..|s| - 1], dia)
  }

  /**
   * `aulas_por_dia`: each day number that has lessons is a key, mapped to
   * that day's lessons in the order given.
   */
  method AulasPorDia(aulasMes: seq<Aula>) returns (m: map<int, seq<Aula>>)
    ensures forall d :: d in m <==> DoDia(aulasMes, d) != []
    ensures forall d :: d in m ==> m[d] == DoDia(aulasMes, d)
  {
    m := map[];
    for i := 0 to |aulasMes|
      invariant forall d :: d in m <==> DoDia(aulasMes[..i], d) != []
      invariant forall d :: d in m ==> m[d] == DoDia(aulasMes[..i], d)
    {
      var aula := aulasMes[i];
      var dia := aula.data.day;
      assert aulasMes[..i + 1][..i] == aulasMes[..i];
      if dia !in m {
        m := m[dia := []];
      }
      m := m[dia := m[dia] + [aula]];
    }
    assert aulasMes[..|aulasMes|] == aulasMes;
  }

  /** Every lesson of the month is in the list of its own day and in no other. */
  lemma AulaNoSeuDia(aulasMes: seq<Aula>, a: Aula, d: int)
    requires a in aulasMes
    ensures a in DoDia(aulasMes, a.data.day)
    ensures d != a.data.day ==> a !in DoDia(aulasMes, d)
  {
  }

  // ---------------------------------------------------------------------
  // Attendance ranking of the dashboard

  /** One line of `alunos_stats`; the percentage is kept exact. */
  datatype Estatistica = Estatistica(aluno: int, totalAulas: nat, presencas: nat, percentual: real)

  /** The lookup of the `total_aulas` query: the student's `realizado` lesson dated between `de` and `ate`. */
  predicate Realizada(a: Aula, aluno: int, de: Date, ate: Date) {
    a.aluno == aluno && NotAfter(de, a.data) && NotAfter(a.data, ate) && a.status == "realizado"
  }

  /** The lookup of the `presencas` query: the student's `presente` record dated between `de` and `ate`. */
  predicate Presente(g: Registro, aluno: int, de: Date, ate: Date) {
    g.aluno == aluno && NotAfter(de, g.data) && NotAfter(g.data, ate) && g.status == "presente"
  }

  /** `.count()` of the lessons that satisfy Realizada. */
  function ContaRealizadas(aulas: seq<Aula>, aluno: int, de: Date, ate: Date): (n: nat)
    ensures n <= |aulas|
  {
    if aulas == [] then 0
    else (if Realizada(aulas[0], aluno, de, ate) then 1 else 0) + ContaRealizadas(aulas[1..], aluno, de, ate)
  }

  /** `.count()` of the records that satisfy Presente. */
  function ContaPresencas(registros: seq<Registro>, aluno: int, de: Date, ate: Date): (n: nat)
    ensures n <= |registros|
  {
    if registros == [] then 0
    else (if Presente(registros[0], aluno, de, ate) then 1 else 0) + ContaPresencas(registros[1..], aluno, de, ate)
  }

  /** The count of realized lessons adds up over two tables, and a single row counts 1 exactly when it matches. */
  lemma {:induction false} RealizadasConcat(xs: seq<Aula>, ys: seq<Aula>, aluno: int, de: Date, ate: Date)
    ensures ContaRealizadas(xs + ys, aluno, de, ate)
            == ContaRealizadas(xs, aluno, de, ate) + ContaRealizadas(ys, aluno, de, ate)
    ensures forall a :: ContaRealizadas([a], aluno, de, ate) == if Realizada(a, aluno, de, ate) then 1 else 0
  {
    if xs == [] {
      assert xs + ys == ys;
    } else {
      assert (xs + ys)[1..] == xs[1..] + ys;
      RealizadasConcat(xs[1..], ys, aluno, de, ate);
    }
    forall a ensures ContaRealizadas([a], aluno, de, ate) == if Realizada(a, aluno, de, ate) then 1 else 0 {
      assert [a][1..] == [];
    }
  }

  /** No realized lesson is counted exactly when no row matches. */
  lemma {:induction false} RealizadasNenhuma(aulas: seq<Aula>, aluno: int, de: Date, ate: Date)
    ensures ContaRealizadas(aulas, aluno, de, ate) == 0
            <==> forall i :: 0 <= i < |aulas| ==> !Realizada(aulas[i], aluno, de, ate)
  {
    if aulas != [] {
      RealizadasNenhuma(aulas[1..], aluno, de, ate);
      assert forall i :: 1 <= i < |aulas| ==> aulas[1..][i - 1] == aulas[i];
    }
  }

  /** The count of presences adds up over two tables, and a single row counts 1 exactly when it matches. */
  lemma {:induction false} PresencasConcat(xs: seq<Registro>, ys: seq<Registro>, aluno: int, de: Date, ate: Date)
    ensures ContaPresencas(xs + ys, aluno, de, ate)
            == ContaPresencas(xs, aluno, de, ate) + ContaPresencas(ys, aluno, de, ate)
    ensures forall g :: ContaPresencas([g], aluno, de, ate) == if Presente(g, aluno, de, ate) then 1 else 0
  {
    if xs == [] {
      assert xs + ys == ys;
    } else {
      assert (xs + ys)[1..] == xs[1..] + ys;
      PresencasConcat(xs[1..], ys, aluno, de, ate);
    }
    forall g ensures ContaPresencas([g], aluno, de, ate) == if Presente(g, aluno, de, ate) then 1 else 0 {
      assert [g][1..] == [];
    }
  }

  /** No presence is counted exactly when no row matches. */
  lemma {:induction false} PresencasNenhuma(registros: seq<Registro>, aluno: int, de: Date, ate: Date)
    ensures ContaPresencas(registros, aluno, de, ate) == 0
            <==> forall i :: 0 <= i < |registros| ==> !Presente(registros[i], aluno, de, ate)
  {
    if registros != [] {
      PresencasNenhuma(registros[1..], aluno, de, ate);
      assert forall i :: 1 <= i < |registros| ==> registros[1..][i - 1] == registros[i];
    }
  }

  function Percentual(presencas: nat, total: nat): real
    requires total > 0
  {
    (presencas as real / total as real) * 100.0
  }

  /** The statistics line of a student, when they had at least one realized lesson. */
  function LinhaDoAluno(aluno: int, aulas: seq<Aula>, registros: seq<Registro>, de: Date, ate: Date): (r: Option<Estatistica>)
    ensures r.Some? <==> ContaRealizadas(aulas, aluno, de, ate) > 0
    ensures r.Some? ==> r.value.aluno == aluno && r.value.totalAulas > 0
                        && r.value.percentual == Percentual(r.value.presencas, r.value.totalAulas)
  {
    var total := ContaRealizadas(aulas, aluno, de, ate);
    if total > 0 then
      var presencas := ContaPresencas(registros, aluno, de, ate);
      Some(Estatistica(aluno, total, presencas, Percentual(presencas, total)))
    else None
  }

  /** `alunos_stats` before sorting: one line per listed student with realized lessons, in order. */
  function Elegiveis(alunos: seq<AlunoRow>, aulas: seq<Aula>, registros: seq<Registro>, de: Date, ate: Date): (r: seq<Estatistica>)
    ensures |r| <= |alunos|
    ensures forall e :: e in r ==> e.totalAulas > 0 && e.percentual == Percentual(e.presencas, e.totalAulas)
  {
    if alunos == [] then []
    else
      var antes := Elegiveis(alunos[..|alunos| - 1], aulas, registros, de, ate);
      match LinhaDoAluno(alunos[|alunos| - 1].pk, aulas, registros, de, ate)
      case None => antes
      case Some(e) => antes + [e]
  }

  /** A line is in the list exactly when it is the line of some listed student. */
  lemma {:induction false} ElegiveisSse(alunos: seq<AlunoRow>, aulas: seq<Aula>, registros: seq<Registro>,
                                        de: Date, ate: Date, e: Estatistica)
    ensures e in Elegiveis(alunos, aulas, registros, de, ate)
            <==> exists k :: 0 <= k < |alunos| && LinhaDoAluno(alunos[k].pk, aulas, registros, de, ate) == Some(e)
  {
    if alunos != [] {
      var n := |alunos| - 1;
      var pre := alunos[..n];
      ElegiveisSse(pre, aulas, registros, de, ate, e);
      if e in Elegiveis(alunos, aulas, registros, de, ate) && e in Elegiveis(pre, aulas, registros, de, ate) {
        var k :| 0 <= k < |pre| && LinhaDoAluno(pre[k].pk, aulas, registros, de, ate) == Some(e);
        assert alunos[k] == pre[k];
      }
      if exists k :: 0 <= k < |alunos| && LinhaDoAluno(alunos[k].pk, aulas, registros, de, ate) == Some(e) {
        var k :| 0 <= k < |alunos| && LinhaDoAluno(alunos[k].pk, aulas, registros, de, ate) == Some(e);
        if k < n {
          assert pre[k] == alunos[k];
        }
      }
    }
  }

  /** Distinct primary keys, as every queryset of students has. */
  predicate ChavesDistintas(alunos: seq<AlunoRow>) {
    forall i, j :: 0 <= i < j < |alunos| ==> alunos[i].pk != alunos[j].pk
  }

  /** No student has two lines. */
  predicate UmaLinhaPorAluno(r: seq<Estatistica>) {
    forall i, j :: 0 <= i < j < |r| ==> r[i].aluno != r[j].aluno
  }

  /** With distinct student keys no student gets two lines. */
  lemma {:induction false} ElegiveisUmPorAluno(alunos: seq<AlunoRow>, aulas: seq<Aula>, registros: seq<Registro>,
                                               de: Date, ate: Date)
    requires ChavesDistintas(alunos)
    ensures UmaLinhaPorAluno(Elegiveis(alunos, aulas, registros, de, ate))
  {
    if alunos != [] {
      var n := |alunos| - 1;
      var pre := alunos[..n];
      assert forall i :: 0 <= i < n ==> pre[i] == alunos[i];
      ElegiveisUmPorAluno(pre, aulas, registros, de, ate);
      var antes := Elegiveis(pre, aulas, registros, de, ate);
      match LinhaDoAluno(alunos[n].pk, aulas, registros, de, ate)
      case None =>
        assert Elegiveis(alunos, aulas, registros, de, ate) == antes;
      case Some(x) =>
        assert Elegiveis(alunos, aulas, registros, de, ate) == antes + [x];
        LinhaNova(pre, aulas, registros, de, ate, alunos[n].pk);
        UmPorAlunoAnexo(antes, x);
    }
  }

  /** A student whose key is not among `alunos` has no line in their list. */
  lemma LinhaNova(alunos: seq<AlunoRow>, aulas: seq<Aula>, registros: seq<Registro>, de: Date, ate: Date, pk: int)
    requires forall i :: 0 <= i < |alunos| ==> alunos[i].pk != pk
    ensures forall e :: e in Elegiveis(alunos, aulas, registros, de, ate) ==> e.aluno != pk
  {
    forall e | e in Elegiveis(alunos, aulas, registros, de, ate) ensures e.aluno != pk {
      ElegiveisSse(alunos, aulas, registros, de, ate, e);
      var k :| 0 <= k < |alunos| && LinhaDoAluno(alunos[k].pk, aulas, registros, de, ate) == Some(e);
    }
  }

  /** A line of a student not yet listed keeps the lines one per student. */
  lemma UmPorAlunoAnexo(antes: seq<Estatistica>, x: Estatistica)
    requires UmaLinhaPorAluno(antes)
    requires forall e :: e in antes ==> e.aluno != x.aluno
    ensures UmaLinhaPorAluno(antes + [x])
  {
    var r := antes + [x];
    forall i, j | 0 <= i < j < |r| ensures r[i].aluno != r[j].aluno {
      assert r[i] == antes[i];
      if j < |antes| {
        assert r[j] == antes[j];
      }
    }
  }

  predicate Decrescente(s: seq<Estatistica>) {
    forall i, j :: 0 <= i < j < |s| ==> s[i].percentual >= s[j].percentual
  }

  /** The tail of a descending sequence is descending, and its head is at least every line of it. */
  lemma CaudaDecrescente(s: seq<Estatistica>)
    requires Decrescente(s) && s != []
    ensures Decrescente(s[1..])
    ensures forall x :: x in s[1..] ==> s[0].percentual >= x.percentual
  {
    forall i, j | 0 <= i < j < |s[1..]| ensures s[1..][i].percentual >= s[1..][j].percentual {
      assert s[1..][i] == s[i + 1] && s[1..][j] == s[j + 1];
    }
    forall x | x in s[1..] ensures s[0].percentual >= x.percentual {
      var k :| 0 <= k < |s[1..]| && s[1..][k] == x;
      assert s[k + 1] == x;
    }
  }

  /** An upper bound of a line and of a sequence bounds every line of a permutation of the two. */
  lemma LimiteSuperior(p: real, e: Estatistica, s: seq<Estatistica>, r: seq<Estatistica>)
    requires multiset(r) == multiset(s) + multiset{e}
    requires p >= e.percentual
    requires forall x :: x in s ==> p >= x.percentual
    ensures forall x :: x in r ==> p >= x.percentual
  {
    forall x | x in r ensures p >= x.percentual {
      assert x in multiset(r);
      if x != e {
        assert x in multiset(s);
      }
    }
  }

  /** A line at least as high as every line of a descending sequence can go in front of it. */
  lemma DecrescenteCons(e: Estatistica, s: seq<Estatistica>)
    requires Decrescente(s)
    requires forall x :: x in s ==> e.percentual >= x.percentual
    ensures Decrescente([e] + s)
  {
    forall i, j | 0 <= i < j < |[e] + s| ensures ([e] + s)[i].percentual >= ([e] + s)[j].percentual {
      assert ([e] + s)[j] == s[j - 1];
      if i > 0 {
        assert ([e] + s)[i] == s[i - 1];
      }
    }
  }

  /**
   * Inserts a line before the first one whose percentage is not larger than
   * its own; inserting from the back therefore puts a line ahead of the later
   * lines with an equal percentage, keeping them in their original order,
   * as Python's stable `sort(reverse=True)` does.
   */
  function InserirPorPercentual(e: Estatistica, s: seq<Estatistica>): (r: seq<Estatistica>)
    requires Decrescente(s)
    ensures Decrescente(r)
    ensures multiset(r) == multiset(s) + multiset{e}
  {
    if s == [] then [e]
    else
      CaudaDecrescente(s);
      assert s == [s[0]] + s[1..];
      if e.percentual >= s[0].percentual then
        DecrescenteCons(e, s);
        [e] + s
      else
        var rest := InserirPorPercentual(e, s[1..]);
        LimiteSuperior(s[0].percentual, e, s[1..], rest);
        DecrescenteCons(s[0], rest);
        [s[0]] + rest
  }

  function OrdenarPorPercentual(s: seq<Estatistica>): (r: seq<Estatistica>)
    ensures Decrescente(r)
    ensures multiset(r) == multiset(s)
  {
    if s == [] then []
    else
      assert s == [s[0]] + s[1..];
      InserirPorPercentual(s[0], OrdenarPorPercentual(s[1..]))
  }

  /** The trainer's students (`Aluno.objects.filter(personal_trainer=user)`). */
  function DoTreinador(alunos: seq<AlunoRow>, treinador: int): (r: seq<AlunoRow>)
    ensures forall a :: a in r <==> a in alunos && a.personalTrainer == treinador
  {
    if alunos == [] then []
    else
      var rest := DoTreinador(alunos[1..], treinador);
      assert forall a :: a in alunos <==> a == alunos[0] || a in alunos[1..] by {
        assert alunos == [alunos[0]] + alunos[1..];
      }
      if alunos[0].personalTrainer == treinador then [alunos[0]] + rest else rest
  }

  /** The first day of today's month. */
  function PrimeiroDiaDoMes(hoje: Date): Date {
    Date(hoje.year, hoje.month, 1)
  }

  /** The ranking the dashboard shows: the eligible lines by percentage, the first five. */
  function Ranking(alunos: seq<AlunoRow>, treinador: int, aulas: seq<Aula>, registros: seq<Registro>, hoje: Date): seq<Estatistica> {
    var ordenadas := OrdenarPorPercentual(
      Elegiveis(DoTreinador(alunos, treinador), aulas, registros, PrimeiroDiaDoMes(hoje), hoje));
    ordenadas[..if |ordenadas| < 5 then |ordenadas| else 5]
  }

  /**
   * A prefix of a sorted permutation of `todas` is sorted, is drawn from
   * `todas`, and no line left out beats a line kept.
   */
  lemma PrefixoDoOrdenado(todas: seq<Estatistica>, ordenadas: seq<Estatistica>, n: nat)
    requires Decrescente(ordenadas) && multiset(ordenadas) == multiset(todas)
    requires n <= |ordenadas|
    ensures |ordenadas| == |todas|
    ensures Decrescente(ordenadas[..n])
    ensures forall e :: e in ordenadas[..n] ==> e in todas
    ensures forall e, x :: e in todas && e !in ordenadas[..n] && x in ordenadas[..n] ==> x.percentual >= e.percentual
  {
    assert |multiset(ordenadas)| == |multiset(todas)|;
    var r := ordenadas[..n];
    forall e | e in r ensures e in todas {
      assert e in multiset(ordenadas);
    }
    forall e, x | e in todas && e !in r && x in r ensures x.percentual >= e.percentual {
      assert e in multiset(ordenadas);
      var k :| 0 <= k < |ordenadas| && ordenadas[k] == e;
      var j :| 0 <= j < n && r[j] == x;
    }
  }

  /**
   * The ranking holds only students with realized lessons this month, sorted
   * by percentage from the highest, at most five of them, and as many as
   * there are when there are five or fewer.
   */
  lemma RankingPropriedades(alunos: seq<AlunoRow>, treinador: int, aulas: seq<Aula>, registros: seq<Registro>, hoje: Date)
    ensures var r := Ranking(alunos, treinador, aulas, registros, hoje);
            var todas := Elegiveis(DoTreinador(alunos, treinador), aulas, registros, PrimeiroDiaDoMes(hoje), hoje);
            Decrescente(r) && |r| <= 5
            && |r| == (if |todas| < 5 then |todas| else 5)
            && (forall e :: e in r ==> e in todas && e.totalAulas > 0)
            && (forall e, x :: e in todas && e !in r && x in r ==> x.percentual >= e.percentual)
  {
    var todas := Elegiveis(DoTreinador(alunos, treinador), aulas, registros, PrimeiroDiaDoMes(hoje), hoje);
    var ordenadas := OrdenarPorPercentual(todas);
    PrefixoDoOrdenado(todas, ordenadas, if |ordenadas| < 5 then |ordenadas| else 5);
  }

  /**
   * `agenda_dashboard`'s `alunos_stats`: one pass over the trainer's students
   * appending a line for each with realized lessons this month, then sorted
   * and cut to five.
   */
  method RankingFrequencia(alunos: seq<AlunoRow>, treinador: int, aulas: seq<Aula>, registros: seq<Registro>, hoje: Date)
      returns (stats: seq<Estatistica>)
    ensures stats == Ranking(alunos, treinador, aulas, registros, hoje)
  {
    var primeiroDiaMes := PrimeiroDiaDoMes(hoje);
    var doTreinador := DoTreinador(alunos, treinador);
    stats := [];
    for i := 0 to |doTreinador|
      invariant stats == Elegiveis(doTreinador[..i], aulas, registros, primeiroDiaMes, hoje)
    {
      assert doTreinador[..i + 1][..i] == doTreinador[..i];
      var aluno := doTreinador[i].pk;
      var totalAulasMes := ContaRealizadas(aulas, aluno, primeiroDiaMes, hoje);
      var presencas := ContaPresencas(registros, aluno, primeiroDiaMes, hoje);
      if totalAulasMes > 0 {
        stats := stats + [Estatistica(aluno, totalAulasMes, presencas, Percentual(presencas, totalAulasMes))];
      }
    }
    assert doTreinador[..|doTreinador|] == doTreinador;
    stats := OrdenarPorPercentual(stats);
    stats := stats[..if |stats| < 5 then |stats| else 5];
  }
}
