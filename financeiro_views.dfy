/**
 * The billing views (financeiro/views_new.py): the trainer-scoped invoice
 * selections, the list statistics, the dashboard buckets and the "mark as
 * paid" action. A queryset is a sequence of invoice rows; a filter keeps the
 * rows that satisfy a criterion, in order.
 */
module FinanceiroViews {
  import opened Wrappers
  import opened Dates
  import opened Financeiro

  /** The lookups the views combine in `filter(...)`. */
  datatype Criterio =
    | DoTreinador(treinador: int)           // aluno__personal_trainer=user
    | ComStatus(status: Status)             // status=...
    | Aberta                                // status__in=['pendente', 'atrasada']
    | Referente(mes: int, ano: int)         // mes_referencia=..., ano_referencia=...
    | DoMes(mes: int)                       // mes_referencia=...
    | DoAno(ano: int)                       // ano_referencia=...
    | VenceEm(dia: Date)                    // data_vencimento=...
    | VenceAntes(dia: Date)                 // data_vencimento__lt=...
    | VenceEntre(de: Date, ate: Date)       // data_vencimento__range=[de, ate]

  predicate Satisfaz(f: FaturaRow, c: Criterio) {
    match c
    case DoTreinador(t) => f.treinador == t
    case ComStatus(s) => f.status == s
    case Aberta => EmAberto(f.status)
    case Referente(m, a) => f.mes == m && f.ano == a
    case DoMes(m) => f.mes == m
    case DoAno(a) => f.ano == a
    case VenceEm(d) => f.vencimento == d
    case VenceAntes(d) => Before(f.vencimento, d)
    case VenceEntre(de, ate) => NotAfter(de, f.vencimento) && NotAfter(f.vencimento, ate)
  }

  /** `queryset.filter(c)`: exactly the rows satisfying c, in their order. */
  function Filtro(fs: seq<FaturaRow>, c: Criterio): (r: seq<FaturaRow>)
    ensures forall f :: f in r <==> f in fs && Satisfaz(f, c)
    ensures |r| <= |fs|
  {
    if fs == [] then []
    else if Satisfaz(fs[0], c) then [fs[0]] + Filtro(fs[1..], c)
    else Filtro(fs[1..], c)
  }

  /** Applies the filter only when the parameter was given. */
  function FiltroOpcional<T>(fs: seq<FaturaRow>, x: Option<T>, c: T -> Criterio): (r: seq<FaturaRow>)
    ensures forall f :: f in r <==> f in fs && (x.Some? ==> Satisfaz(f, c(x.value)))
  {
    if x.Some? then Filtro(fs, c(x.value)) else fs
  }

  /**
   * `FinanceiroListView.get_queryset` without the text search: the trainer's
   * invoices, narrowed by the status, month and year asked for (None when
   * the parameter is absent or empty).
   */
  function ListaFaturas(fs: seq<FaturaRow>, treinador: int, status: Option<Status>,
                        mes: Option<int>, ano: Option<int>): (r: seq<FaturaRow>)
    ensures forall f :: f in r <==>
              f in fs && f.treinador == treinador
              && (status.Some? ==> f.status == status.value)
              && (mes.Some? ==> f.mes == mes.value)
              && (ano.Some? ==> f.ano == ano.value)
  {
    var doTreinador := Filtro(fs, DoTreinador(treinador));
    var porStatus := FiltroOpcional(doTreinador, status, s => ComStatus(s));
    var porMes := FiltroOpcional(porStatus, mes, m => DoMes(m));
    FiltroOpcional(porMes, ano, a => DoAno(a))
  }

  /** `aggregate(total=Sum('valor'))['total'] or Decimal('0.00')`, in cents. */
  function Soma(fs: seq<FaturaRow>): int {
    if fs == [] then 0 else fs[0].valor + Soma(fs[1..])
  }

  lemma SomaCons(f: FaturaRow, fs: seq<FaturaRow>)
    ensures Soma([f] + fs) == f.valor + Soma(fs)
  {
    assert ([f] + fs)[1..] == fs;
  }

  /** Every status is pending, overdue or paid, so the three status counts add up to the whole. */
  lemma {:induction false} ParticaoContagem(fs: seq<FaturaRow>)
    ensures |fs| == |Filtro(fs, ComStatus(Pendente))| + |Filtro(fs, ComStatus(Atrasada))|
                    + |Filtro(fs, ComStatus(Paga))|
  {
    if fs != [] {
      ParticaoContagem(fs[1..]);
    }
  }

  /** The received and the outstanding sums add up to the total. */
  lemma {:induction false} ParticaoSoma(fs: seq<FaturaRow>)
    ensures Soma(fs) == Soma(Filtro(fs, ComStatus(Paga))) + Soma(Filtro(fs, Aberta))
  {
    if fs != [] {
      ParticaoSoma(fs[1..]);
      if fs[0].status == Paga {
        SomaCons(fs[0], Filtro(fs[1..], ComStatus(Paga)));
      } else {
        SomaCons(fs[0], Filtro(fs[1..], Aberta));
      }
    }
  }

  datatype Estatisticas = Estatisticas(
    totalFaturas: nat, faturasPendentes: nat, faturasAtrasadas: nat, faturasPagas: nat,
    valorTotal: int, valorRecebido: int, valorPendente: int)

  /** The statistics of `FinanceiroListView.get_context_data` over the trainer's invoices. */
  function EstatisticasLista(fs: seq<FaturaRow>, treinador: int): (e: Estatisticas)
    ensures e.totalFaturas == e.faturasPendentes + e.faturasAtrasadas + e.faturasPagas
    ensures e.valorTotal == e.valorRecebido + e.valorPendente
    ensures e.totalFaturas == |Filtro(fs, DoTreinador(treinador))|
    ensures (forall f :: f in fs ==> f.treinador != treinador) ==>
              e.totalFaturas == 0 && e.valorTotal == 0 && e.valorRecebido == 0 && e.valorPendente == 0
  {
    var todas := Filtro(fs, DoTreinador(treinador));
    ParticaoContagem(todas);
    ParticaoSoma(todas);
    Estatisticas(
      |todas|,
      |Filtro(todas, ComStatus(Pendente))|,
      |Filtro(todas, ComStatus(Atrasada))|,
      |Filtro(todas, ComStatus(Paga))|,
      Soma(todas),
      Soma(Filtro(todas, ComStatus(Paga))),
      Soma(Filtro(todas, Aberta)))
  }

  /** Strictly decreasing, hence without repetitions. */
  predicate Decrescente(xs: seq<int>) {
    forall i, j :: 0 <= i < j < |xs| ==> xs[i] > xs[j]
  }

  /** Inserts a year into a strictly decreasing list, unless it is already there. */
  function InserirAno(xs: seq<int>, a: int): (r: seq<int>)
    requires Decrescente(xs)
    ensures Decrescente(r)
    ensures forall y :: y in r <==> y in xs || y == a
  {
    if xs == [] then [a]
    else if a == xs[0] then xs
    else
      DecrescenteCauda(xs);
      if a > xs[0] then
        DecrescenteFrente(a, xs);
        [a] + xs
      else
        var rest := InserirAno(xs[1..], a);
        DecrescenteFrente(xs[0], rest);
        [xs[0]] + rest
  }

  /** The tail of a strictly decreasing list is strictly decreasing and below its head. */
  lemma DecrescenteCauda(xs: seq<int>)
    requires Decrescente(xs) && xs != []
    ensures Decrescente(xs[1..])
    ensures forall y :: y in xs <==> y == xs[0] || y in xs[1..]
    ensures forall y :: y in xs[1..] ==> y < xs[0]
  {
    assert xs == [xs[0]] + xs[1..];
    forall y | y in xs[1..] ensures y < xs[0] {
      var k :| 0 <= k < |xs[1..]| && xs[1..][k] == y;
      assert xs[k + 1] == y;
    }
  }

  /** A value above every element of a strictly decreasing list can go in front of it. */
  lemma DecrescenteFrente(h: int, r: seq<int>)
    requires Decrescente(r) && forall y :: y in r ==> y < h
    ensures Decrescente([h] + r)
  {
    var t := [h] + r;
    forall i, j | 0 <= i < j < |t| ensures t[i] > t[j] {
      assert t[j] == r[j - 1] && r[j - 1] in r;
      if i > 0 {
        assert t[i] == r[i - 1];
      }
    }
  }

  /**
   * `values_list('ano_referencia').distinct().order_by('-ano_referencia')`:
   * every reference year once, in descending order.
   */
  function AnosChoices(fs: seq<FaturaRow>): (r: seq<int>)
    ensures Decrescente(r)
    ensures forall a :: a in r <==> exists f :: f in fs && f.ano == a
  {
    if fs == [] then []
    else
      var rest := AnosChoices(fs[1..]);
      assert forall f :: f in fs <==> f == fs[0] || f in fs[1..] by {
        assert fs == [fs[0]] + fs[1..];
      }
      InserirAno(rest, fs[0].ano)
  }

  predicate OrdenadaPorVencimento(fs: seq<FaturaRow>) {
    forall i, j :: 0 <= i < j < |fs| ==> NotAfter(fs[i].vencimento, fs[j].vencimento)
  }

  /** A row due no later than every row of a sorted sequence can go in front of it. */
  lemma OrdenadaCons(f: FaturaRow, fs: seq<FaturaRow>)
    requires OrdenadaPorVencimento(fs)
    requires forall g :: g in fs ==> NotAfter(f.vencimento, g.vencimento)
    ensures OrdenadaPorVencimento([f] + fs)
  {
    forall i, j | 0 <= i < j < |[f] + fs|
      ensures NotAfter(([f] + fs)[i].vencimento, ([f] + fs)[j].vencimento)
    {
      if i == 0 {
        assert ([f] + fs)[j] == fs[j - 1];
      } else {
        assert ([f] + fs)[i] == fs[i - 1] && ([f] + fs)[j] == fs[j - 1];
      }
    }
  }

  /** In a sorted sequence, anything due no later than the head is due no later than every row. */
  lemma CabecaLimita(x: Date, fs: seq<FaturaRow>)
    requires OrdenadaPorVencimento(fs) && fs != [] && NotAfter(x, fs[0].vencimento)
    ensures forall g :: g in fs ==> NotAfter(x, g.vencimento)
  {
    forall g | g in fs ensures NotAfter(x, g.vencimento) {
      var k :| 0 <= k < |fs| && fs[k] == g;
      if k > 0 {
        assert NotAfter(fs[0].vencimento, fs[k].vencimento);
      }
      OrderFacts(x, fs[0].vencimento, g.vencimento);
    }
  }

  /** The tail of a sorted sequence is sorted, and its head is due no later than all of it. */
  lemma CaudaOrdenada(fs: seq<FaturaRow>)
    requires OrdenadaPorVencimento(fs) && fs != []
    ensures OrdenadaPorVencimento(fs[1..])
    ensures forall g :: g in fs[1..] ==> NotAfter(fs[0].vencimento, g.vencimento)
  {
    forall i, j | 0 <= i < j < |fs[1..]|
      ensures NotAfter(fs[1..][i].vencimento, fs[1..][j].vencimento)
    {
      assert fs[1..][i] == fs[i + 1] && fs[1..][j] == fs[j + 1];
    }
    forall g | g in fs[1..] ensures NotAfter(fs[0].vencimento, g.vencimento) {
      var k :| 0 <= k < |fs[1..]| && fs[1..][k] == g;
      assert fs[k + 1] == g;
    }
  }

  /** A bound on a row and on a sequence bounds every row of a permutation of the two. */
  lemma LimiteInferior(x: Date, f: FaturaRow, fs: seq<FaturaRow>, r: seq<FaturaRow>)
    requires multiset(r) == multiset(fs) + multiset{f}
    requires NotAfter(x, f.vencimento)
    requires forall g :: g in fs ==> NotAfter(x, g.vencimento)
    ensures forall g :: g in r ==> NotAfter(x, g.vencimento)
  {
    forall g | g in r ensures NotAfter(x, g.vencimento) {
      assert g in multiset(r);
      if g != f {
        assert g in multiset(fs);
      }
    }
  }

  function InserirPorVencimento(f: FaturaRow, fs: seq<FaturaRow>): (r: seq<FaturaRow>)
    requires OrdenadaPorVencimento(fs)
    ensures OrdenadaPorVencimento(r)
    ensures multiset(r) == multiset(fs) + multiset{f}
  {
    if fs == [] then [f]
    else if NotAfter(f.vencimento, fs[0].vencimento) then
      CabecaLimita(f.vencimento, fs);
      OrdenadaCons(f, fs);
      [f] + fs
    else
      CaudaOrdenada(fs);
      OrderFacts(f.vencimento, fs[0].vencimento, f.vencimento);
      var rest := InserirPorVencimento(f, fs[1..]);
      LimiteInferior(fs[0].vencimento, f, fs[1..], rest);
      OrdenadaCons(fs[0], rest);
      assert fs == [fs[0]] + fs[1..];
      [fs[0]] + rest
  }

  /** `order_by('data_vencimento')`: the same rows, by due date. */
  function OrdenarPorVencimento(fs: seq<FaturaRow>): (r: seq<FaturaRow>)
    ensures OrdenadaPorVencimento(r)
    ensures multiset(r) == multiset(fs)
  {
    if fs == [] then []
    else
      assert fs == [fs[0]] + fs[1..];
      InserirPorVencimento(fs[0], OrdenarPorVencimento(fs[1..]))
  }

  /** This month's sums of `financeiro_dashboard`: total, received and outstanding. */
  function TotaisDoMes(fs: seq<FaturaRow>, treinador: int, hoje: Date): (r: (int, int, int))
    ensures r.0 == r.1 + r.2
    ensures (forall f :: f in fs ==> f.treinador != treinador || f.mes != hoje.month || f.ano != hoje.year)
            ==> r == (0, 0, 0)
  {
    var doMes := Filtro(Filtro(fs, DoTreinador(treinador)), Referente(hoje.month, hoje.year));
    ParticaoSoma(doMes);
    (Soma(doMes), Soma(Filtro(doMes, ComStatus(Paga))), Soma(Filtro(doMes, Aberta)))
  }

  /** The trainer's open invoices. */
  function Abertas(fs: seq<FaturaRow>, treinador: int): (r: seq<FaturaRow>)
    ensures forall f :: f in r <==> f in fs && f.treinador == treinador && EmAberto(f.status)
  {
    Filtro(Filtro(fs, DoTreinador(treinador)), Aberta)
  }

  /** `vencem_hoje`. */
  function VencemHoje(fs: seq<FaturaRow>, treinador: int, hoje: Date): (r: seq<FaturaRow>)
    ensures forall f :: f in r <==>
              f in fs && f.treinador == treinador && EmAberto(f.status) && f.vencimento == hoje
  {
    Filtro(Abertas(fs, treinador), VenceEm(hoje))
  }

  /** `atrasadas`. */
  function Atrasadas(fs: seq<FaturaRow>, treinador: int, hoje: Date): (r: seq<FaturaRow>)
    ensures forall f :: f in r <==>
              f in fs && f.treinador == treinador && EmAberto(f.status) && Before(f.vencimento, hoje)
  {
    Filtro(Abertas(fs, treinador), VenceAntes(hoje))
  }

  /** `proximos_vencimentos`: due in today+1 .. today+7, by due date. */
  function ProximosVencimentos(fs: seq<FaturaRow>, treinador: int, hoje: Date): (r: seq<FaturaRow>)
    requires Valid(hoje)
    ensures forall f :: f in r <==>
              f in fs && f.treinador == treinador && EmAberto(f.status)
              && NotAfter(AddDays(hoje, 1), f.vencimento) && NotAfter(f.vencimento, AddDays(hoje, 7))
    ensures OrdenadaPorVencimento(r)
  {
    var proximas := Filtro(Abertas(fs, treinador), VenceEntre(AddDays(hoje, 1), AddDays(hoje, 7)));
    var r := OrdenarPorVencimento(proximas);
    assert forall f :: f in r <==> f in proximas by {
      forall f ensures f in r <==> f in proximas {
        assert f in r <==> f in multiset(r);
        assert f in proximas <==> f in multiset(proximas);
      }
    }
    r
  }

  /** The three due-date buckets of the dashboard are pairwise disjoint. */
  lemma BucketsDisjuntos(fs: seq<FaturaRow>, treinador: int, hoje: Date, f: FaturaRow)
    requires Valid(hoje)
    ensures !(f in Atrasadas(fs, treinador, hoje) && f in VencemHoje(fs, treinador, hoje))
    ensures !(f in Atrasadas(fs, treinador, hoje) && f in ProximosVencimentos(fs, treinador, hoje))
    ensures !(f in VencemHoje(fs, treinador, hoje) && f in ProximosVencimentos(fs, treinador, hoje))
  {
    var amanha := AddDays(hoje, 1);
    AddDaysAfter(hoje, 1);
    OrderFacts(f.vencimento, hoje, amanha);
  }

  /**
   * `get_object_or_404(FaturaSimples, id=…, aluno__personal_trainer=…)`: the
   * position of the trainer's invoice with that key, or none (a 404).
   */
  function IndiceFatura(faturas: seq<FaturaSimples>, id: int, treinador: int): (r: Option<nat>)
    reads faturas
    ensures r.Some? ==> r.value < |faturas| && faturas[r.value].pk == id && faturas[r.value].treinador == treinador
    ensures r.None? <==> forall i :: 0 <= i < |faturas| ==> !(faturas[i].pk == id && faturas[i].treinador == treinador)
  {
    if faturas == [] then None
    else if faturas[0].pk == id && faturas[0].treinador == treinador then Some(0)
    else
      match IndiceFatura(faturas[1..], id, treinador)
      case None => None
      case Some(k) => Some(k + 1)
  }

  /**
   * `marcar_como_paga` on POST: the trainer's invoice with that key becomes
   * paid whatever its due date, since saving only escalates pending invoices;
   * a missing key or another trainer's invoice is a 404 and nothing changes.
   */
  method MarcarComoPaga(faturas: seq<FaturaSimples>, id: int, treinador: int, hoje: Date)
      returns (paga: Option<FaturaSimples>)
    modifies faturas
    ensures paga.None? <==> old(IndiceFatura(faturas, id, treinador)).None?
    ensures paga.Some? ==>
              paga.value == faturas[old(IndiceFatura(faturas, id, treinador)).value]
              && paga.value.status == Paga && !paga.value.EstaAtrasada(hoje)
    ensures forall k :: 0 <= k < |faturas| ==>
              faturas[k].Row() == (if paga.Some? && faturas[k] == paga.value
                                   then old(faturas[k].Row()).(status := Paga)
                                   else old(faturas[k].Row()))
  {
    var indice := IndiceFatura(faturas, id, treinador);
    if indice.None? {
      return None;
    }
    var f := faturas[indice.value];
    f.status := Paga;
    f.Save(hoje);
    paga := Some(f);
  }
}
