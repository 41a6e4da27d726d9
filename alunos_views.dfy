/**
 * What enrolling a student sets up (alunos/views.py): four weeks of lessons
 * on the chosen weekdays, starting on the next Monday, and a contract with
 * invoices for the coming months, skipping months already billed. Also the
 * active-flag toggle and the month list of the student's detail page.
 */
module Cadastro {
  import opened Wrappers
  import opened Dates
  import opened Alunos
  import opened Frequencia
  import Financeiro
  import AlunosForms
  import FrequenciaForms

  // ---------------------------------------------------------------------
  // Default schedule (`_criar_agendamentos_padrao`)

  /** k days after a day of weekday w (Monday = 0) comes a Monday. */
  predicate SegundaApos(w: int, k: int) {
    (w + k) % 7 == 0
  }

  /** `dias_ate_segunda`: days from today to the next Monday, a whole week when today is Monday. */
  function DiasAteSegunda(hoje: Date): (n: int)
    requires Valid(hoje)
    ensures 1 <= n <= 7
    ensures SegundaApos(Weekday(hoje), n)
    ensures n == 7 <==> Weekday(hoje) == 0
  {
    var w := Weekday(hoje);
    DiasAteSegundaDoDia(w);
    var dias := (7 - w) % 7;
    if dias == 0 then 7 else dias
  }

  /** The offset computed from a weekday w in 0..6 reaches the next Monday. */
  lemma DiasAteSegundaDoDia(w: int)
    requires 0 <= w <= 6
    ensures var dias := (7 - w) % 7;
            var n := if dias == 0 then 7 else dias;
            1 <= n <= 7 && SegundaApos(w, n) && (n == 7 <==> w == 0)
  {
    if w == 0 {
      assert (7 - w) % 7 == 0;
    } else {
      assert (7 - w) % 7 == 7 - w;
    }
  }

  /** `inicio_proxima_semana`. */
  function Ancora(hoje: Date): (r: Date)
    requires Valid(hoje)
    ensures Valid(r)
  {
    AddDays(hoje, DiasAteSegunda(hoje))
  }

  /** The anchor is a Monday strictly after today. */
  lemma AncoraEhProximaSegunda(hoje: Date)
    requires Valid(hoje)
    ensures Weekday(Ancora(hoje)) == 0 && Before(hoje, Ancora(hoje))
  {
    var n := DiasAteSegunda(hoje);
    var ancora := AddDays(hoje, n);
    assert Ancora(hoje) == ancora;
    WeekdayAddDays(hoje, n);
    assert Weekday(ancora) == 0;
    AddDaysAfter(hoje, n);
  }

  /** No day strictly between today and the anchor is a Monday. */
  lemma NenhumaSegundaAntesDaAncora(hoje: Date, k: int)
    requires Valid(hoje) && 1 <= k < DiasAteSegunda(hoje)
    ensures Weekday(AddDays(hoje, k)) != 0
  {
    WeekdayAddDays(hoje, k);
    PrimeiraSegunda(Weekday(hoje), DiasAteSegunda(hoje), k);
  }

  /** When n (1..7) days after weekday w is a Monday, no fewer days are. */
  lemma PrimeiraSegunda(w: int, n: int, k: int)
    requires 0 <= w <= 6 && n <= 7 && SegundaApos(w, n) && 1 <= k < n
    ensures !SegundaApos(w, k)
  {
    assert w + n == 7;
  }

  const TipoTreinoPadrao := "Treino Regular"
  const ObservacaoAgendamento := "Agendamento automático criado no cadastro"
  const SemanasAgendadas := 4

  /** The validated choices of the schedule form, for one student. */
  datatype Padrao = Padrao(aluno: int, treinador: int, dias: seq<int>, inicio: int)

  predicate PadraoValido(p: Padrao) {
    ValidTime(p.inicio) && forall j :: 0 <= j < |p.dias| ==> 0 <= p.dias[j] <= 6
  }

  /**
   * The lesson created in week `w`, which starts on the Monday `inicioSemana`,
   * for the `j`-th selected weekday; `pk0` is the next free key.
   */
  function Sessao(p: Padrao, inicioSemana: Date, pk0: int, w: nat, j: nat): Aula
    requires Valid(inicioSemana) && PadraoValido(p) && j < |p.dias|
  {
    Aula(pk0 + w * |p.dias| + j, p.aluno, p.treinador, AddDays(inicioSemana, p.dias[j]),
         p.inicio, PlusOneHour(p.inicio), "agendado", TipoTreinoPadrao, ObservacaoAgendamento)
  }

  /** The lessons of week `w`, in the order the weekdays were selected. */
  function Semana(p: Padrao, inicioSemana: Date, pk0: int, w: nat): (r: seq<Aula>)
    requires Valid(inicioSemana) && PadraoValido(p)
    ensures |r| == |p.dias|
    ensures forall j :: 0 <= j < |p.dias| ==> r[j] == Sessao(p, inicioSemana, pk0, w, j)
  {
    seq(|p.dias|, j requires 0 <= j < |p.dias| => Sessao(p, inicioSemana, pk0, w, j))
  }

  /** The first day of week `w`, counting from the Monday `ancora`. */
  function InicioSemana(ancora: Date, w: nat): (r: Date)
    requires Valid(ancora)
    ensures Valid(r)
  {
    AddDays(ancora, 7 * w)
  }

  /** The lessons of the first `w` weeks, week after week. */
  function Sessoes(p: Padrao, ancora: Date, pk0: int, w: nat): seq<Aula>
    requires Valid(ancora) && PadraoValido(p)
  {
    if w == 0 then []
    else Sessoes(p, ancora, pk0, w - 1) + Semana(p, InicioSemana(ancora, w - 1), pk0, w - 1)
  }

  /** Exactly one lesson per week and selected weekday. */
  lemma {:induction false} SessoesContagem(p: Padrao, ancora: Date, pk0: int, w: nat)
    requires Valid(ancora) && PadraoValido(p)
    ensures |Sessoes(p, ancora, pk0, w)| == w * |p.dias|
  {
    if w > 0 {
      SessoesContagem(p, ancora, pk0, w - 1);
      assert (w - 1) * |p.dias| + |p.dias| == w * |p.dias|;
    }
  }

  /** The created lessons are exactly one per week below `w` and selected weekday. */
  lemma SessoesSaoAsSessoes(p: Padrao, ancora: Date, pk0: int, w: nat, a: Aula)
    requires Valid(ancora) && PadraoValido(p)
    ensures a in Sessoes(p, ancora, pk0, w) <==>
              exists s: nat, j: nat :: s < w && j < |p.dias| && a == Sessao(p, InicioSemana(ancora, s), pk0, s, j)
  {
    if a in Sessoes(p, ancora, pk0, w) {
      SessoesSoSessoes(p, ancora, pk0, w, a);
    }
    if exists s: nat, j: nat :: s < w && j < |p.dias| && a == Sessao(p, InicioSemana(ancora, s), pk0, s, j) {
      var s: nat, j: nat :| s < w && j < |p.dias| && a == Sessao(p, InicioSemana(ancora, s), pk0, s, j);
      SessoesTodas(p, ancora, pk0, w, s, j);
    }
  }

  /** Every created lesson is the lesson of some week and selected weekday. */
  lemma {:induction false} SessoesSoSessoes(p: Padrao, ancora: Date, pk0: int, w: nat, a: Aula)
    requires Valid(ancora) && PadraoValido(p) && a in Sessoes(p, ancora, pk0, w)
    ensures exists s: nat, j: nat :: s < w && j < |p.dias| && a == Sessao(p, InicioSemana(ancora, s), pk0, s, j)
  {
    var inicio := InicioSemana(ancora, w - 1);
    var antes := Sessoes(p, ancora, pk0, w - 1);
    var semana := Semana(p, inicio, pk0, w - 1);
    assert a in antes + semana;
    if a in antes {
      SessoesSoSessoes(p, ancora, pk0, w - 1, a);
      var s: nat, j: nat :| s < w - 1 && j < |p.dias| && a == Sessao(p, InicioSemana(ancora, s), pk0, s, j);
      assert s < w;
    } else {
      var j :| 0 <= j < |semana| && semana[j] == a;
      assert a == Sessao(p, InicioSemana(ancora, w - 1), pk0, w - 1, j);
    }
  }

  /** The lesson of every week below `w` and every selected weekday is created. */
  lemma {:induction false} SessoesTodas(p: Padrao, ancora: Date, pk0: int, w: nat, s: nat, j: nat)
    requires Valid(ancora) && PadraoValido(p) && s < w && j < |p.dias|
    ensures Sessao(p, InicioSemana(ancora, s), pk0, s, j) in Sessoes(p, ancora, pk0, w)
  {
    var antes := Sessoes(p, ancora, pk0, w - 1);
    var semana := Semana(p, InicioSemana(ancora, w - 1), pk0, w - 1);
    assert Sessoes(p, ancora, pk0, w) == antes + semana;
    if s < w - 1 {
      SessoesTodas(p, ancora, pk0, w - 1, s, j);
    } else {
      assert semana[j] == Sessao(p, InicioSemana(ancora, s), pk0, s, j);
    }
  }

  /**
   * The lesson of week w on selected weekday d falls 7w + d days after the
   * anchor Monday (which is today plus `dias_ate_segunda`).
   */
  lemma SessaoData(p: Padrao, ancora: Date, pk0: int, w: nat, j: nat)
    requires Valid(ancora) && PadraoValido(p) && j < |p.dias|
    ensures Sessao(p, InicioSemana(ancora, w), pk0, w, j).data == AddDays(ancora, 7 * w + p.dias[j])
  {
    AddDaysAdd(ancora, 7 * w, p.dias[j]);
  }

  /** Its weekday is the selected one. */
  lemma SessaoDiaDaSemana(p: Padrao, hoje: Date, pk0: int, w: nat, j: nat)
    requires Valid(hoje) && PadraoValido(p) && j < |p.dias|
    ensures Weekday(Sessao(p, InicioSemana(Ancora(hoje), w), pk0, w, j).data) == p.dias[j]
  {
    var inicioSemana := InicioSemana(Ancora(hoje), w);
    AncoraEhProximaSegunda(hoje);
    SegundaDaSemana(Ancora(hoje), w);
    DiaAposSegunda(inicioSemana, p.dias[j]);
  }

  /** d days after a Monday (d <= 6) is weekday d. */
  lemma DiaAposSegunda(segunda: Date, d: nat)
    requires Valid(segunda) && Weekday(segunda) == 0 && d <= 6
    ensures Weekday(AddDays(segunda, d)) == d
  {
    WeekdayAddDays(segunda, d);
    DentroDaSemana(d);
  }

  lemma DentroDaSemana(d: int)
    requires 0 <= d <= 6
    ensures (0 + d) % 7 == d
  {
  }

  /** Whole weeks after a Monday come Mondays. */
  lemma SegundaDaSemana(ancora: Date, w: nat)
    requires Valid(ancora) && Weekday(ancora) == 0
    ensures Weekday(InicioSemana(ancora, w)) == 0
  {
    WeekdayAddDays(ancora, 7 * w);
    SemanasInteiras(w);
  }

  lemma SemanasInteiras(w: nat)
    ensures (0 + 7 * w) % 7 == 0
  {
  }

  /** It is strictly after today. */
  lemma SessaoDepoisDeHoje(p: Padrao, hoje: Date, pk0: int, w: nat, j: nat)
    requires Valid(hoje) && PadraoValido(p) && j < |p.dias|
    ensures Before(hoje, Sessao(p, InicioSemana(Ancora(hoje), w), pk0, w, j).data)
  {
    var ancora := Ancora(hoje);
    AncoraEhProximaSegunda(hoje);
    NaoAntesDaAncora(p, ancora, pk0, w, j);
    OrderFacts(hoje, ancora, Sessao(p, InicioSemana(ancora, w), pk0, w, j).data);
  }

  /** No lesson comes before the Monday it is counted from. */
  lemma NaoAntesDaAncora(p: Padrao, ancora: Date, pk0: int, w: nat, j: nat)
    requires Valid(ancora) && PadraoValido(p) && j < |p.dias|
    ensures NotAfter(ancora, Sessao(p, InicioSemana(ancora, w), pk0, w, j).data)
  {
    var inicioSemana := InicioSemana(ancora, w);
    var data := AddDays(inicioSemana, p.dias[j]);
    if w > 0 {
      AddDaysAfter(ancora, 7 * w);
    }
    if p.dias[j] > 0 {
      AddDaysAfter(inicioSemana, p.dias[j]);
    }
    OrderFacts(ancora, inicioSemana, data);
  }

  /** It is `agendado` and ends one hour after it starts, wrapping past midnight. */
  lemma SessaoHorario(p: Padrao, inicioSemana: Date, pk0: int, w: nat, j: nat)
    requires Valid(inicioSemana) && PadraoValido(p) && j < |p.dias|
    ensures var a := Sessao(p, inicioSemana, pk0, w, j);
            a.status == "agendado" && a.aluno == p.aluno && a.inicio == p.inicio
            && ValidTime(a.fim) && (a.fim - a.inicio) % MinutesPerDay == 60
  {
  }

  /**
   * The lesson form's time rule accepts a generated lesson exactly when it
   * starts before 23:00; a later start wraps its end past midnight.
   */
  lemma SessaoPassaNoFormulario(p: Padrao, inicioSemana: Date, pk0: int, w: nat, j: nat)
    requires Valid(inicioSemana) && PadraoValido(p) && j < |p.dias|
    ensures var a := Sessao(p, inicioSemana, pk0, w, j);
            var dados := FrequenciaForms.DadosAula(Some(a.aluno), Some(a.data), Some(a.inicio), Some(a.fim),
                                                   Some(a.status), a.tipoTreino, a.observacoes);
            FrequenciaForms.AgendaAulaClean(dados).Success? <==> p.inicio < 23 * 60
  {
  }

  /** The lessons of one week: one per selected weekday, appended in order. */
  method AgendarSemana(agenda: Agenda, p: Padrao, inicioSemana: Date, pk0: int, semana: nat, horarioFim: int)
    requires Valid(inicioSemana) && PadraoValido(p) && horarioFim == PlusOneHour(p.inicio)
    modifies agenda`aulas
    ensures agenda.aulas == old(agenda.aulas) + Semana(p, inicioSemana, pk0, semana)
  {
    var doSemana := Semana(p, inicioSemana, pk0, semana);
    var criados := semana * |p.dias|;
    for j := 0 to |p.dias|
      invariant agenda.aulas == old(agenda.aulas) + doSemana[..j]
      invariant criados == semana * |p.dias| + j
    {
      var diaSemanaInt := p.dias[j];
      var dataAgendamento := AddDays(inicioSemana, diaSemanaInt);
      var aula := Aula(pk0 + criados, p.aluno, p.treinador, dataAgendamento,
                       p.inicio, horarioFim, "agendado", TipoTreinoPadrao, ObservacaoAgendamento);
      SemanaPasso(p, inicioSemana, pk0, semana, j, old(agenda.aulas));
      agenda.aulas := agenda.aulas + [aula];
      criados := criados + 1;
    }
    assert doSemana[..|p.dias|] == doSemana;
  }

  /** The j-th turn of a week's loop appends that week's j-th lesson. */
  lemma SemanaPasso(p: Padrao, inicioSemana: Date, pk0: int, w: nat, j: nat, antes: seq<Aula>)
    requires Valid(inicioSemana) && PadraoValido(p) && j < |p.dias|
    ensures var semana := Semana(p, inicioSemana, pk0, w);
            antes + semana[..j]
              + [Aula(pk0 + (w * |p.dias| + j), p.aluno, p.treinador, AddDays(inicioSemana, p.dias[j]),
                      p.inicio, PlusOneHour(p.inicio), "agendado", TipoTreinoPadrao, ObservacaoAgendamento)]
            == antes + semana[..j + 1]
  {
    var semana := Semana(p, inicioSemana, pk0, w);
    var x := Sessao(p, inicioSemana, pk0, w, j);
    assert semana[j] == x;
    assert semana[..j + 1] == semana[..j] + [x];
    assert antes + semana[..j] + [x] == antes + (semana[..j] + [x]);
  }

  /**
   * `_criar_agendamentos_padrao`: the lessons of the 4 weeks counted from the
   * next Monday; the count is 4 per selected weekday.
   */
  method CriarAgendamentosPadrao(agenda: Agenda, p: Padrao, hoje: Date, pk0: int) returns (criados: nat)
    requires Valid(hoje) && PadraoValido(p)
    modifies agenda`aulas
    ensures agenda.aulas == old(agenda.aulas) + Sessoes(p, Ancora(hoje), pk0, SemanasAgendadas)
    ensures criados == SemanasAgendadas * |p.dias|
  {
    var horarioFim := PlusOneHour(p.inicio);
    var inicioProximaSemana := Ancora(hoje);
    criados := AgendarSemanas(agenda, p, inicioProximaSemana, pk0, horarioFim);
  }

  /**
   * The loop of `_criar_agendamentos_padrao`: for each of the 4 weeks and
   * each selected weekday, in that order, one lesson is appended.
   */
  method AgendarSemanas(agenda: Agenda, p: Padrao, inicioProximaSemana: Date, pk0: int, horarioFim: int)
      returns (criados: nat)
    requires Valid(inicioProximaSemana) && PadraoValido(p) && horarioFim == PlusOneHour(p.inicio)
    modifies agenda`aulas
    ensures agenda.aulas == old(agenda.aulas) + Sessoes(p, inicioProximaSemana, pk0, SemanasAgendadas)
    ensures criados == SemanasAgendadas * |p.dias|
  {
    criados := 0;
    for semana := 0 to SemanasAgendadas
      invariant agenda.aulas == old(agenda.aulas) + Sessoes(p, inicioProximaSemana, pk0, semana)
      invariant criados == |Sessoes(p, inicioProximaSemana, pk0, semana)|
    {
      var inicioSemana := AddDays(inicioProximaSemana, 7 * semana);
      SessoesPasso(p, inicioProximaSemana, pk0, semana, old(agenda.aulas));
      AgendarSemana(agenda, p, inicioSemana, pk0, semana, horarioFim);
      criados := criados + |p.dias|;
    }
    SessoesContagem(p, inicioProximaSemana, pk0, SemanasAgendadas);
  }

  /** One more week appends that week's lessons. */
  lemma SessoesPasso(p: Padrao, ancora: Date, pk0: int, w: nat, antes: seq<Aula>)
    requires Valid(ancora) && PadraoValido(p)
    ensures Sessoes(p, ancora, pk0, w + 1)
            == Sessoes(p, ancora, pk0, w) + Semana(p, AddDays(ancora, 7 * w), pk0, w)
    ensures antes + Sessoes(p, ancora, pk0, w) + Semana(p, AddDays(ancora, 7 * w), pk0, w)
            == antes + Sessoes(p, ancora, pk0, w + 1)
    ensures |Sessoes(p, ancora, pk0, w + 1)| == |Sessoes(p, ancora, pk0, w)| + |p.dias|
  {
  }

  // ---------------------------------------------------------------------
  // Contract and invoices (`_criar_contrato_financeiro`)

  datatype Plano = Plano(pk: int, valor: int)

  /** `ContratoAluno`, as created at enrollment. */
  datatype Contrato = Contrato(
    pk: int, aluno: int, plano: int, valorPersonalizado: Option<int>,
    diaVencimento: int, ativo: bool, dataInicio: Date, observacoes: string)

  const ObservacaoContrato := "Contrato criado automaticamente no cadastro do aluno"

  /** `Fatura` of the contract module; money in cents. */
  datatype Fatura = Fatura(
    aluno: int, contrato: int, mes: int, ano: int, valorOriginal: int, valorFinal: int,
    vencimento: Date, status: string, observacoes: string)

  const ObservacaoFatura := "Fatura criada automaticamente no cadastro do aluno"

  /** `valor_personalizado or plano.valor`: a blank or zero custom value falls back to the plan's. */
  function ValorFatura(personalizado: Option<int>, valorPlano: int): (v: int)
    ensures personalizado.Some? && personalizado.value != 0 ==> v == personalizado.value
    ensures personalizado.None? || personalizado.value == 0 ==> v == valorPlano
  {
    if personalizado.Some? && personalizado.value != 0 then personalizado.value else valorPlano
  }

  /**
   * The due date: `replace(day=dia)` when that day exists in the month, and
   * otherwise the `ValueError` fallback, the last day of the month.
   */
  function Vencimento(ano: int, mes: int, dia: int): (d: Date)
    requires 1 <= mes <= 12 && dia >= 1
    ensures d.year == ano && d.month == mes
    ensures d.day == (if dia < DaysInMonth(ano, mes) then dia else DaysInMonth(ano, mes))
    ensures ano >= 1 ==> Valid(d)
  {
    if dia <= DaysInMonth(ano, mes) then Date(ano, mes, dia)
    else Date(ano, mes, DaysInMonth(ano, mes))
  }

  /** A due day the plan form accepts (1..28) exists in every month, so it is never moved. */
  lemma DiaDoFormularioSemAjuste(valor: Option<int>, ano: int, mes: int)
    requires AlunosForms.CleanDiaVencimento(valor).Success? && valor.Some?
    requires 1 <= mes <= 12
    ensures Vencimento(ano, mes, valor.value).day == valor.value
  {
  }

  /** The invoice run of one enrollment: who, which contract, how much, which day, from when. */
  datatype Cobrar = Cobrar(aluno: int, contrato: int, valor: int, dia: int, hoje: Date)

  predicate CobrarValido(c: Cobrar) {
    Valid(c.hoje) && c.dia >= 1
  }

  /** The (year, month) referenced by the i-th invoice: today's month plus i. */
  function Periodo(c: Cobrar, i: nat): (r: (int, int))
    requires CobrarValido(c)
    ensures 1 <= r.1 <= 12 && r.0 >= 1
    ensures MonthIndex(r.0, r.1) == MonthIndex(c.hoje.year, c.hoje.month) + i
  {
    AddMonths(c.hoje.year, c.hoje.month, i)
  }

  /** The i-th invoice, when its period has none yet. */
  function NovaFatura(c: Cobrar, i: nat): (f: Fatura)
    requires CobrarValido(c)
    ensures f.aluno == c.aluno && f.contrato == c.contrato
    ensures (f.ano, f.mes) == Periodo(c, i)
    ensures f.valorOriginal == c.valor && f.valorFinal == c.valor && f.status == "pendente"
    ensures Valid(f.vencimento) && f.vencimento.year == f.ano && f.vencimento.month == f.mes
    ensures f.vencimento.day == (if c.dia < DaysInMonth(f.ano, f.mes) then c.dia else DaysInMonth(f.ano, f.mes))
  {
    var (ano, mes) := Periodo(c, i);
    Fatura(c.aluno, c.contrato, mes, ano, c.valor, c.valor, Vencimento(ano, mes, c.dia), "pendente", ObservacaoFatura)
  }

  /** `Fatura.objects.filter(aluno=..., mes_referencia=..., ano_referencia=...).exists()`. */
  function ExisteFatura(fs: seq<Fatura>, aluno: int, mes: int, ano: int): (b: bool)
    ensures b <==> exists i :: 0 <= i < |fs| && fs[i].aluno == aluno && fs[i].mes == mes && fs[i].ano == ano
  {
    if fs == [] then false
    else if fs[0].aluno == aluno && fs[0].mes == mes && fs[0].ano == ano then true
    else
      var b := ExisteFatura(fs[1..], aluno, mes, ano);
      assert forall i :: 1 <= i < |fs| ==> fs[i] == fs[1..][i - 1];
      b
  }

  /** The i-th period already has an invoice of the student. */
  predicate Cobrado(fs: seq<Fatura>, c: Cobrar, i: nat)
    requires CobrarValido(c)
  {
    ExisteFatura(fs, c.aluno, Periodo(c, i).1, Periodo(c, i).0)
  }

  /** One turn of the loop: insert the i-th invoice unless its period is already billed. */
  function Passo(fs: seq<Fatura>, c: Cobrar, i: nat): seq<Fatura>
    requires CobrarValido(c)
  {
    if Cobrado(fs, c, i) then fs else fs + [NovaFatura(c, i)]
  }

  /** The invoice table after the first k turns of the loop. */
  function FaturasApos(fs: seq<Fatura>, c: Cobrar, k: nat): seq<Fatura>
    requires CobrarValido(c)
  {
    if k == 0 then fs else Passo(FaturasApos(fs, c, k - 1), c, k - 1)
  }

  /** The number of the first k periods with no invoice in `fs`. */
  function Ausentes(fs: seq<Fatura>, c: Cobrar, k: nat): nat
    requires CobrarValido(c)
  {
    if k == 0 then 0 else Ausentes(fs, c, k - 1) + (if Cobrado(fs, c, k - 1) then 0 else 1)
  }

  /** One turn keeps the table as a prefix and appends at most the i-th invoice. */
  lemma PassoAnexa(fs: seq<Fatura>, c: Cobrar, i: nat)
    requires CobrarValido(c)
    ensures |Passo(fs, c, i)| == |fs| + (if Cobrado(fs, c, i) then 0 else 1)
    ensures Passo(fs, c, i)[..|fs|] == fs
    ensures !Cobrado(fs, c, i) ==> Passo(fs, c, i)[|fs|] == NovaFatura(c, i)
  {
  }

  /** Existing invoices are kept, in place and unchanged. */
  lemma {:induction false} ExistentesIntactas(fs: seq<Fatura>, c: Cobrar, k: nat)
    requires CobrarValido(c)
    ensures |FaturasApos(fs, c, k)| >= |fs| && FaturasApos(fs, c, k)[..|fs|] == fs
  {
    if k > 0 {
      ExistentesIntactas(fs, c, k - 1);
      var antes := FaturasApos(fs, c, k - 1);
      if !Cobrado(antes, c, k - 1) {
        assert (antes + [NovaFatura(c, k - 1)])[..|fs|] == antes[..|fs|];
      }
    }
  }

  /** Every added invoice is the invoice of one of the first k periods. */
  lemma {:induction false} SoNovasFaturas(fs: seq<Fatura>, c: Cobrar, k: nat)
    requires CobrarValido(c)
    ensures forall j :: |fs| <= j < |FaturasApos(fs, c, k)| ==>
              exists i: nat :: i < k && FaturasApos(fs, c, k)[j] == NovaFatura(c, i)
  {
    if k > 0 {
      SoNovasFaturas(fs, c, k - 1);
      var antes := FaturasApos(fs, c, k - 1);
      var depois := FaturasApos(fs, c, k);
      forall j | |fs| <= j < |depois| ensures exists i: nat :: i < k && depois[j] == NovaFatura(c, i) {
        if Cobrado(antes, c, k - 1) {
          assert depois == antes;
          var i: nat :| i < k - 1 && antes[j] == NovaFatura(c, i);
          assert depois[j] == NovaFatura(c, i);
        } else {
          assert depois == antes + [NovaFatura(c, k - 1)];
          if j < |antes| {
            assert depois[j] == antes[j];
            var i: nat :| i < k - 1 && antes[j] == NovaFatura(c, i);
            assert depois[j] == NovaFatura(c, i);
          } else {
            assert depois[j] == NovaFatura(c, k - 1);
          }
        }
      }
    } else {
      assert FaturasApos(fs, c, 0) == fs;
    }
  }

  /** Adding rows never makes an existing invoice disappear. */
  lemma ExisteFaturaPrefixo(fs: seq<Fatura>, gs: seq<Fatura>, aluno: int, mes: int, ano: int)
    requires |gs| >= |fs| && gs[..|fs|] == fs
    requires ExisteFatura(fs, aluno, mes, ano)
    ensures ExisteFatura(gs, aluno, mes, ano)
  {
    var i :| 0 <= i < |fs| && fs[i].aluno == aluno && fs[i].mes == mes && fs[i].ano == ano;
    assert gs[i] == fs[i];
  }

  /** After the loop every one of the first k periods has an invoice of the student. */
  lemma {:induction false} TodosPeriodosCobrados(fs: seq<Fatura>, c: Cobrar, k: nat)
    requires CobrarValido(c)
    ensures forall i: nat :: i < k ==> Cobrado(FaturasApos(fs, c, k), c, i)
  {
    if k > 0 {
      TodosPeriodosCobrados(fs, c, k - 1);
      CobradosPasso(FaturasApos(fs, c, k - 1), c, k - 1);
    }
  }

  /** If the first i periods are billed, one more turn bills the first i + 1. */
  lemma CobradosPasso(antes: seq<Fatura>, c: Cobrar, i: nat)
    requires CobrarValido(c)
    requires forall p: nat :: p < i ==> Cobrado(antes, c, p)
    ensures forall p: nat :: p < i + 1 ==> Cobrado(Passo(antes, c, i), c, p)
  {
    var depois := Passo(antes, c, i);
    PassoAnexa(antes, c, i);
    forall p: nat | p < i + 1 ensures Cobrado(depois, c, p) {
      if p < i {
        assert Cobrado(antes, c, p);
        ExisteFaturaPrefixo(antes, depois, c.aluno, Periodo(c, p).1, Periodo(c, p).0);
      } else if Cobrado(antes, c, p) {
        ExisteFaturaPrefixo(antes, depois, c.aluno, Periodo(c, p).1, Periodo(c, p).0);
      } else {
        assert depois[|antes|] == NovaFatura(c, i);
        assert depois[|antes|].aluno == c.aluno;
      }
    }
  }

  /** On a table where the first k periods are billed, the loop changes nothing. */
  lemma {:induction false} JaCobradoNadaMuda(gs: seq<Fatura>, c: Cobrar, k: nat)
    requires CobrarValido(c)
    requires forall i: nat :: i < k ==> Cobrado(gs, c, i)
    ensures FaturasApos(gs, c, k) == gs
  {
    if k > 0 {
      JaCobradoNadaMuda(gs, c, k - 1);
    }
  }

  /** Running the invoice step a second time creates nothing. */
  lemma Idempotente(fs: seq<Fatura>, c: Cobrar, k: nat)
    requires CobrarValido(c)
    ensures FaturasApos(FaturasApos(fs, c, k), c, k) == FaturasApos(fs, c, k)
  {
    TodosPeriodosCobrados(fs, c, k);
    JaCobradoNadaMuda(FaturasApos(fs, c, k), c, k);
  }

  /** Distinct turns of the loop reference distinct periods. */
  lemma PeriodosDistintos(c: Cobrar, i: nat, j: nat)
    requires CobrarValido(c) && i != j
    ensures Periodo(c, i) != Periodo(c, j)
  {
  }

  /** Whether the i-th period is billed is decided by the original table alone. */
  lemma {:induction false} CobradoAntesSse(fs: seq<Fatura>, c: Cobrar, i: nat)
    requires CobrarValido(c)
    ensures Cobrado(FaturasApos(fs, c, i), c, i) <==> Cobrado(fs, c, i)
  {
    var gs := FaturasApos(fs, c, i);
    var (ano, mes) := Periodo(c, i);
    ExistentesIntactas(fs, c, i);
    SoNovasFaturas(fs, c, i);
    if ExisteFatura(gs, c.aluno, mes, ano) {
      var j :| 0 <= j < |gs| && gs[j].aluno == c.aluno && gs[j].mes == mes && gs[j].ano == ano;
      assert j < |fs|;
      assert fs[j] == gs[j];
    }
    if Cobrado(fs, c, i) {
      ExisteFaturaPrefixo(fs, gs, c.aluno, mes, ano);
    }
  }

  /** The loop creates exactly one invoice per period that had none. */
  lemma {:induction false} ContagemCriadas(fs: seq<Fatura>, c: Cobrar, k: nat)
    requires CobrarValido(c)
    ensures |FaturasApos(fs, c, k)| == |fs| + Ausentes(fs, c, k)
  {
    if k == 0 {
      assert FaturasApos(fs, c, 0) == fs && Ausentes(fs, c, 0) == 0;
    } else {
      ContagemCriadas(fs, c, k - 1);
      ContagemPasso(fs, c, k);
    }
  }

  /** Turn k - 1 adds one invoice exactly when the original table lacks that period. */
  lemma ContagemPasso(fs: seq<Fatura>, c: Cobrar, k: nat)
    requires CobrarValido(c) && k > 0
    ensures |FaturasApos(fs, c, k)| == |FaturasApos(fs, c, k - 1)| + (if Cobrado(fs, c, k - 1) then 0 else 1)
    ensures Ausentes(fs, c, k) == Ausentes(fs, c, k - 1) + (if Cobrado(fs, c, k - 1) then 0 else 1)
    ensures |FaturasApos(fs, c, k)| - Ausentes(fs, c, k) == |FaturasApos(fs, c, k - 1)| - Ausentes(fs, c, k - 1)
  {
    var antes := FaturasApos(fs, c, k - 1);
    CobradoAntesSse(fs, c, k - 1);
    PassoAnexa(antes, c, k - 1);
    if Cobrado(fs, c, k - 1) {
      assert FaturasApos(fs, c, k) == antes;
    } else {
      assert FaturasApos(fs, c, k) == antes + [NovaFatura(c, k - 1)];
    }
  }

  /** One turn of the loop, written with the values the loop computes. */
  lemma TurnoDoLaco(fs: seq<Fatura>, c: Cobrar, i: nat)
    requires CobrarValido(c)
    ensures var (ano, mes) := AddMonths(c.hoje.year, c.hoje.month, i);
            var antes := FaturasApos(fs, c, i);
            var nova := Fatura(c.aluno, c.contrato, mes, ano, c.valor, c.valor,
                               Vencimento(ano, mes, c.dia), "pendente", ObservacaoFatura);
            && FaturasApos(fs, c, i + 1) == (if ExisteFatura(antes, c.aluno, mes, ano) then antes else antes + [nova])
            && Ausentes(fs, c, i + 1) == Ausentes(fs, c, i) + (if ExisteFatura(antes, c.aluno, mes, ano) then 0 else 1)
  {
    CobradoAntesSse(fs, c, i);
  }

  /** No two invoices of the table share student, month and year. */
  predicate UnicaPorPeriodo(fs: seq<Fatura>) {
    forall i, j :: 0 <= i < j < |fs| ==>
      !(fs[i].aluno == fs[j].aluno && fs[i].mes == fs[j].mes && fs[i].ano == fs[j].ano)
  }

  /** The existence check keeps the table free of duplicate periods. */
  lemma {:induction false} UnicidadePreservada(fs: seq<Fatura>, c: Cobrar, k: nat)
    requires CobrarValido(c) && UnicaPorPeriodo(fs)
    ensures UnicaPorPeriodo(FaturasApos(fs, c, k))
  {
    if k > 0 {
      UnicidadePreservada(fs, c, k - 1);
      var antes := FaturasApos(fs, c, k - 1);
      if !Cobrado(antes, c, k - 1) {
        var novo := NovaFatura(c, k - 1);
        var depois := antes + [novo];
        forall i, j | 0 <= i < j < |depois|
          ensures !(depois[i].aluno == depois[j].aluno && depois[i].mes == depois[j].mes && depois[i].ano == depois[j].ano)
        {
          if j == |antes| {
            assert depois[i] == antes[i];
          } else {
            assert depois[i] == antes[i] && depois[j] == antes[j];
          }
        }
      }
    }
  }

  /** The contract and invoice tables. */
  class Cobranca {
    var contratos: seq<Contrato>
    var faturas: seq<Fatura>

    constructor ()
      ensures contratos == [] && faturas == []
    {
      contratos := [];
      faturas := [];
    }

    /**
     * `_criar_contrato_financeiro`: records the contract, then for each of the
     * next `meses` months inserts a pending invoice unless the student already
     * has one for that month; returns how many were created. A blank
     * `meses_antecipados` reaches `range(None)`, which fails after the
     * contract is saved: the result is then None, the contract stays and no
     * invoice is created.
     */
    method CriarContratoFinanceiro(aluno: int, plano: Plano, valorPersonalizado: Option<int>,
                                   diaVencimento: int, mesesAntecipados: Option<nat>, hoje: Date, contratoPk: int)
        returns (faturasCriadas: Option<nat>)
      requires Valid(hoje) && diaVencimento >= 1
      modifies this`contratos, this`faturas
      ensures contratos == old(contratos) + [Contrato(contratoPk, aluno, plano.pk, valorPersonalizado, diaVencimento, true, hoje, ObservacaoContrato)]
      ensures faturasCriadas.None? <==> mesesAntecipados.None?
      ensures mesesAntecipados.None? ==> faturas == old(faturas)
      ensures mesesAntecipados.Some? ==>
                faturas == FaturasApos(old(faturas),
                             Cobrar(aluno, contratoPk, ValorFatura(valorPersonalizado, plano.valor), diaVencimento, hoje),
                             mesesAntecipados.value)
                && faturasCriadas == Some(Ausentes(old(faturas),
                             Cobrar(aluno, contratoPk, ValorFatura(valorPersonalizado, plano.valor), diaVencimento, hoje),
                             mesesAntecipados.value))
    {
      contratos := contratos + [Contrato(contratoPk, aluno, plano.pk, valorPersonalizado, diaVencimento, true, hoje, ObservacaoContrato)];
      var valorFatura := ValorFatura(valorPersonalizado, plano.valor);
      var c := Cobrar(aluno, contratoPk, valorFatura, diaVencimento, hoje);
      if mesesAntecipados.None? {
        return None;
      }
      var criadas := 0;
      for i := 0 to mesesAntecipados.value
        invariant contratos == old(contratos) + [Contrato(contratoPk, aluno, plano.pk, valorPersonalizado, diaVencimento, true, hoje, ObservacaoContrato)]
        invariant faturas == FaturasApos(old(faturas), c, i)
        invariant criadas == Ausentes(old(faturas), c, i)
      {
        TurnoDoLaco(old(faturas), c, i);
        var (anoReferencia, mesReferencia) := AddMonths(hoje.year, hoje.month, i);
        var dataVencimento := Vencimento(anoReferencia, mesReferencia, diaVencimento);
        if !ExisteFatura(faturas, aluno, mesReferencia, anoReferencia) {
          faturas := faturas + [Fatura(aluno, contratoPk, mesReferencia, anoReferencia, valorFatura,
                                       valorFatura, dataVencimento, "pendente", ObservacaoFatura)];
          criadas := criadas + 1;
        }
      }
      faturasCriadas := Some(criadas);
    }
  }

  // ---------------------------------------------------------------------
  // Toggle and month list

  /**
   * `toggle_status`: the trainer's own student has `ativo` negated and the
   * new value returned; anyone else's student is not found and unchanged.
   */
  method ToggleStatus(aluno: Aluno, treinador: int) returns (ativo: Option<bool>)
    modifies aluno`ativo
    ensures aluno.personalTrainer == treinador ==> aluno.ativo == !old(aluno.ativo) && ativo == Some(aluno.ativo)
    ensures aluno.personalTrainer != treinador ==> aluno.ativo == old(aluno.ativo) && ativo.None?
  {
    if aluno.personalTrainer != treinador {
      return None;
    }
    aluno.ativo := !aluno.ativo;
    ativo := Some(aluno.ativo);
  }

  /** Toggling twice restores the flag. */
  method ToggleStatusDuasVezes(aluno: Aluno)
    modifies aluno`ativo
    ensures aluno.ativo == old(aluno.ativo)
  {
    var _ := ToggleStatus(aluno, aluno.personalTrainer);
    var _ := ToggleStatus(aluno, aluno.personalTrainer);
  }

  /** `{acomp.mes: acomp for acomp in acompanhamentos}`: a later record of a month replaces an earlier one. */
  function PorMes<T>(acompanhamentos: seq<(int, T)>): (m: map<int, T>)
    ensures forall mes :: mes in m <==> exists i :: 0 <= i < |acompanhamentos| && acompanhamentos[i].0 == mes
    ensures forall mes :: mes in m ==>
              exists i :: 0 <= i < |acompanhamentos| && acompanhamentos[i] == (mes, m[mes])
                && forall j :: i < j < |acompanhamentos| ==> acompanhamentos[j].0 != mes
  {
    if acompanhamentos == [] then map[]
    else
      var n := |acompanhamentos| - 1;
      var antes := PorMes(acompanhamentos[..n]);
      PorMesPasso(acompanhamentos, acompanhamentos[..n], antes);
      antes[acompanhamentos[n].0 := acompanhamentos[n].1]
  }

  /** The last record of a sequence updates the map of the records before it. */
  lemma PorMesPasso<T>(s: seq<(int, T)>, pre: seq<(int, T)>, antes: map<int, T>)
    requires s != [] && pre == s[..|s| - 1]
    requires forall mes :: mes in antes <==> exists i :: 0 <= i < |pre| && pre[i].0 == mes
    requires forall mes :: mes in antes ==>
               exists i :: 0 <= i < |pre| && pre[i] == (mes, antes[mes])
                 && forall j :: i < j < |pre| ==> pre[j].0 != mes
    ensures var m := antes[s[|s| - 1].0 := s[|s| - 1].1];
            && (forall mes :: mes in m <==> exists i :: 0 <= i < |s| && s[i].0 == mes)
            && (forall mes :: mes in m ==>
                  exists i :: 0 <= i < |s| && s[i] == (mes, m[mes])
                    && forall j :: i < j < |s| ==> s[j].0 != mes)
  {
    var n := |s| - 1;
    var m := antes[s[n].0 := s[n].1];
    assert forall i :: 0 <= i < n ==> pre[i] == s[i];
    forall mes ensures mes in m <==> exists i :: 0 <= i < |s| && s[i].0 == mes {
      if mes != s[n].0 && exists i :: 0 <= i < |s| && s[i].0 == mes {
        var i :| 0 <= i < |s| && s[i].0 == mes;
        assert i < n;
      }
    }
    forall mes | mes in m
      ensures exists i :: 0 <= i < |s| && s[i] == (mes, m[mes]) && forall j :: i < j < |s| ==> s[j].0 != mes
    {
      if mes == s[n].0 {
        assert s[n] == (mes, m[mes]);
      } else {
        var i :| 0 <= i < n && s[i] == (mes, antes[mes]) && forall j :: i < j < n ==> s[j].0 != mes;
        assert forall j :: i < j < |s| ==> s[j].0 != mes;
      }
    }
  }

  /** One entry of the detail page's month list. */
  datatype MesResumo<T> = MesResumo(numero: int, nome: string, acompanhamento: Option<T>, hasData: bool)

  const NomesComVazio: seq<string> := [
    "", "Janeiro", "Fevereiro", "Março", "Abril", "Maio", "Junho",
    "Julho", "Agosto", "Setembro", "Outubro", "Novembro", "Dezembro"
  ]

  /**
   * The month list of `AlunoDetailView`: the twelve months in order, named
   * as the invoices name them, each with its tracking record when it has one.
   */
  method ListaMeses<T>(porMes: map<int, T>) returns (meses: seq<MesResumo<T>>)
    ensures |meses| == 12
    ensures forall k :: 0 <= k < 12 ==>
              meses[k].numero == k + 1 && meses[k].nome == Financeiro.NomeDoMes(k + 1)
              && (meses[k].hasData <==> k + 1 in porMes)
              && meses[k].acompanhamento == (if k + 1 in porMes then Some(porMes[k + 1]) else None)
  {
    meses := [];
    for i := 1 to 13
      invariant |meses| == i - 1
      invariant forall k :: 0 <= k < i - 1 ==>
                  meses[k].numero == k + 1 && meses[k].nome == Financeiro.NomeDoMes(k + 1)
                  && (meses[k].hasData <==> k + 1 in porMes)
                  && meses[k].acompanhamento == (if k + 1 in porMes then Some(porMes[k + 1]) else None)
    {
      var mesNome := NomesComVazio[i];
      var acompanhamento := if i in porMes then Some(porMes[i]) else None;
      meses := meses + [MesResumo(i, mesNome, acompanhamento, i in porMes)];
    }
  }
}
