/**
 * The simplified invoice model (financeiro/models_new.py): an invoice per
 * (student, reference month, reference year) whose status escalates from
 * pending to overdue when it is saved after its due date.
 */
module Financeiro {
  import opened Dates

  datatype Status = Pendente | Paga | Atrasada

  /** Pending or overdue: the statuses the views count as not yet received. */
  predicate EmAberto(s: Status) {
    s == Pendente || s == Atrasada
  }

  /**
   * The status `save` stores: a pending invoice whose due date has passed
   * becomes overdue; every other status is kept.
   */
  function StatusAoSalvar(status: Status, vencimento: Date, hoje: Date): (r: Status)
    ensures r == Atrasada <==> status == Atrasada || (status == Pendente && Before(vencimento, hoje))
    ensures r == Paga <==> status == Paga
    ensures r == Pendente <==> status == Pendente && NotAfter(hoje, vencimento)
  {
    if Before(vencimento, hoje) && status == Pendente then Atrasada else status
  }

  /** Saving twice on the same day stores the same status as saving once. */
  lemma StatusAoSalvarIdempotent(status: Status, vencimento: Date, hoje: Date)
    ensures StatusAoSalvar(StatusAoSalvar(status, vencimento, hoje), vencimento, hoje)
            == StatusAoSalvar(status, vencimento, hoje)
  {
  }

  const NomesMeses: seq<string> := [
    "Janeiro", "Fevereiro", "Março", "Abril", "Maio", "Junho",
    "Julho", "Agosto", "Setembro", "Outubro", "Novembro", "Dezembro"
  ]

  const MesInvalido := "Mês inválido"

  /** The Portuguese name of a month number, or "Mês inválido" outside 1..12. */
  function NomeDoMes(m: int): (s: string)
    ensures 1 <= m <= 12 ==> s == NomesMeses[m - 1]
    ensures s == MesInvalido <==> !(1 <= m <= 12)
  {
    if 1 <= m <= 12 then NomesMeses[m - 1] else MesInvalido
  }

  /** Distinct months have distinct names. */
  lemma NomeDoMesInjective(m1: int, m2: int)
    requires 1 <= m1 <= 12 && 1 <= m2 <= 12
    requires NomeDoMes(m1) == NomeDoMes(m2)
    ensures m1 == m2
  {
  }

  /**
   * What a query returns for one invoice: its own fields plus the trainer
   * of its student (`aluno__personal_trainer`); money is in cents.
   */
  datatype FaturaRow = FaturaRow(
    pk: int, aluno: int, treinador: int, mes: int, ano: int,
    valor: int, vencimento: Date, status: Status)

  /** `mes_referencia` is one of the choices 1..12. */
  predicate MesValido(f: FaturaRow) {
    1 <= f.mes <= 12
  }

  predicate MesmoPeriodo(f: FaturaRow, g: FaturaRow) {
    f.aluno == g.aluno && f.mes == g.mes && f.ano == g.ano
  }

  /** `unique_together = ['aluno', 'mes_referencia', 'ano_referencia']`. */
  predicate UnicoPorPeriodo(fs: seq<FaturaRow>) {
    forall i, j :: 0 <= i < j < |fs| ==> !MesmoPeriodo(fs[i], fs[j])
  }

  /** `esta_atrasada`: due before today and not paid. */
  predicate FaturaAtrasada(f: FaturaRow, hoje: Date) {
    Before(f.vencimento, hoje) && f.status != Paga
  }

  /** A paid invoice is never reported as overdue. */
  lemma PagaNuncaAtrasada(f: FaturaRow, hoje: Date)
    requires f.status == Paga
    ensures !FaturaAtrasada(f, hoje)
  {
  }

  class FaturaSimples {
    const pk: int
    var aluno: int
    var treinador: int
    var mesReferencia: int
    var anoReferencia: int
    var valor: int
    var dataVencimento: Date
    var status: Status

    constructor (pk: int, aluno: int, treinador: int, mes: int, ano: int, valor: int, vencimento: Date)
      ensures this.pk == pk && this.aluno == aluno && this.treinador == treinador
      ensures mesReferencia == mes && anoReferencia == ano && this.valor == valor
      ensures dataVencimento == vencimento && status == Pendente
    {
      this.pk := pk;
      this.aluno := aluno;
      this.treinador := treinador;
      mesReferencia := mes;
      anoReferencia := ano;
      this.valor := valor;
      dataVencimento := vencimento;
      status := Pendente;
    }

    function Row(): FaturaRow
      reads this
    {
      FaturaRow(pk, aluno, treinador, mesReferencia, anoReferencia, valor, dataVencimento, status)
    }

    /** `save`: escalates a pending invoice past its due date to overdue; nothing else changes. */
    method Save(hoje: Date)
      modifies this`status
      ensures status == StatusAoSalvar(old(status), dataVencimento, hoje)
      ensures status == Pendente ==> NotAfter(hoje, dataVencimento)
    {
      if Before(dataVencimento, hoje) && status == Pendente {
        status := Atrasada;
      }
    }

    function MesNome(): (s: string)
      reads this
      ensures s == MesInvalido <==> !(1 <= mesReferencia <= 12)
    {
      NomeDoMes(mesReferencia)
    }

    /** `esta_atrasada`; always false for a paid invoice. */
    predicate EstaAtrasada(hoje: Date)
      reads this
      ensures EstaAtrasada(hoje) ==> status != Paga && Before(dataVencimento, hoje)
    {
      FaturaAtrasada(Row(), hoje)
    }
  }

  /** Once saved, an invoice reported as overdue carries the overdue status. */
  lemma SalvaAtrasadaCoerente(f: FaturaRow, hoje: Date)
    ensures var g := f.(status := StatusAoSalvar(f.status, f.vencimento, hoje));
            FaturaAtrasada(g, hoje) ==> g.status == Atrasada
  {
  }
}
