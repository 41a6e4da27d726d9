/**
 * The invoice form (financeiro/forms_new.py): the month choices and the
 * cross-field check that refuses a second invoice for the same student and
 * reference period, leaving out the invoice being edited.
 */
module FinanceiroForms {
  import opened Wrappers
  import opened Dates
  import opened Financeiro

  /** The form's choices for `mes_referencia`: number and Portuguese name. */
  const MesesChoices: seq<(int, string)> := [
    (1, "Janeiro"), (2, "Fevereiro"), (3, "Março"), (4, "Abril"),
    (5, "Maio"), (6, "Junho"), (7, "Julho"), (8, "Agosto"),
    (9, "Setembro"), (10, "Outubro"), (11, "Novembro"), (12, "Dezembro")
  ]

  /** The choices are the months 1..12 in order, named as `mes_nome` names them. */
  lemma MesesChoicesCompletas()
    ensures |MesesChoices| == 12
    ensures forall k :: 0 <= k < 12 ==> MesesChoices[k] == (k + 1, NomeDoMes(k + 1))
  {
  }

  /**
   * The form's `cleaned_data`: a field that failed its own validation or was
   * left blank is None; the student is its primary key.
   */
  datatype DadosFatura = DadosFatura(
    aluno: Option<int>, mes: Option<int>, ano: Option<int>, valor: Option<int>,
    vencimento: Option<Date>, status: Option<Status>, observacoes: string)

  datatype ErroFatura = PeriodoDuplicado(aluno: int, mes: int, ano: int)

  /** Python truthiness of an optional integer: None and 0 are false. */
  predicate Informado(x: Option<int>) {
    x.Some? && x.value != 0
  }

  /** A row that the duplicate query would return: same period, and not the excluded invoice. */
  predicate Conflita(f: FaturaRow, aluno: int, mes: int, ano: int, instancia: Option<int>) {
    f.aluno == aluno && f.mes == mes && f.ano == ano
    && !(Informado(instancia) && f.pk == instancia.value)
  }

  /** `queryset.exists()` over the filtered, possibly excluded, invoices. */
  function ExisteConflito(fs: seq<FaturaRow>, aluno: int, mes: int, ano: int, instancia: Option<int>): (b: bool)
    ensures b <==> exists i :: 0 <= i < |fs| && Conflita(fs[i], aluno, mes, ano, instancia)
  {
    if fs == [] then false
    else if Conflita(fs[0], aluno, mes, ano, instancia) then true
    else
      var b := ExisteConflito(fs[1..], aluno, mes, ano, instancia);
      assert forall i :: 1 <= i < |fs| ==> fs[i] == fs[1..][i - 1];
      b
  }

  /**
   * `FaturaForm.clean`: when student, month and year are all given, fails if
   * another invoice has that period; otherwise returns the data unchanged.
   */
  function Clean(dados: DadosFatura, instancia: Option<int>, fs: seq<FaturaRow>): (r: Result<DadosFatura, ErroFatura>)
    ensures r.Failure? <==>
              dados.aluno.Some? && Informado(dados.mes) && Informado(dados.ano)
              && exists i :: 0 <= i < |fs|
                   && Conflita(fs[i], dados.aluno.value, dados.mes.value, dados.ano.value, instancia)
    ensures r.Failure? ==> r.error == PeriodoDuplicado(dados.aluno.value, dados.mes.value, dados.ano.value)
    ensures r.Success? ==> r.value == dados
  {
    if dados.aluno.Some? && Informado(dados.mes) && Informado(dados.ano)
       && ExisteConflito(fs, dados.aluno.value, dados.mes.value, dados.ano.value, instancia)
    then Failure(PeriodoDuplicado(dados.aluno.value, dados.mes.value, dados.ano.value))
    else Success(dados)
  }

  /** The row a validated form stores. */
  predicate Descreve(f: FaturaRow, dados: DadosFatura) {
    dados.aluno == Some(f.aluno) && dados.mes == Some(f.mes) && dados.ano == Some(f.ano)
  }

  /** Re-saving an invoice with its period unchanged passes, in a table without duplicates. */
  lemma {:induction false} ReSalvarPassa(fs: seq<FaturaRow>, i: int, dados: DadosFatura)
    requires UnicoPorPeriodo(fs)
    requires 0 <= i < |fs| && fs[i].pk != 0
    requires Descreve(fs[i], dados)
    ensures Clean(dados, Some(fs[i].pk), fs).Success?
  {
    forall j | 0 <= j < |fs|
      ensures !Conflita(fs[j], fs[i].aluno, fs[i].mes, fs[i].ano, Some(fs[i].pk))
    {
      if j < i {
        assert !MesmoPeriodo(fs[j], fs[i]);
      } else if j > i {
        assert !MesmoPeriodo(fs[i], fs[j]);
      }
    }
  }

  /** Creating (no instance) an invoice the form accepted keeps one invoice per period. */
  lemma {:induction false} CriarPreservaUnicidade(fs: seq<FaturaRow>, dados: DadosFatura, nova: FaturaRow)
    requires UnicoPorPeriodo(fs)
    requires Descreve(nova, dados) && nova.mes != 0 && nova.ano != 0
    requires Clean(dados, None, fs).Success?
    ensures UnicoPorPeriodo(fs + [nova])
  {
    var gs := fs + [nova];
    forall i, j | 0 <= i < j < |gs| ensures !MesmoPeriodo(gs[i], gs[j]) {
      if j == |fs| {
        assert !Conflita(fs[i], nova.aluno, nova.mes, nova.ano, None);
      } else {
        assert gs[i] == fs[i] && gs[j] == fs[j];
      }
    }
  }

  /** Two invoices never share a primary key. */
  predicate PkUnica(fs: seq<FaturaRow>) {
    forall i, j :: 0 <= i < j < |fs| ==> fs[i].pk != fs[j].pk
  }

  /** Editing invoice i with data the form accepted keeps one invoice per period. */
  lemma {:induction false} EditarPreservaUnicidade(fs: seq<FaturaRow>, i: int, dados: DadosFatura, editada: FaturaRow)
    requires UnicoPorPeriodo(fs) && PkUnica(fs)
    requires 0 <= i < |fs| && fs[i].pk != 0
    requires Descreve(editada, dados) && editada.mes != 0 && editada.ano != 0
    requires Clean(dados, Some(fs[i].pk), fs).Success?
    ensures UnicoPorPeriodo(fs[i := editada])
  {
    var gs := fs[i := editada];
    forall a, b | 0 <= a < b < |gs| ensures !MesmoPeriodo(gs[a], gs[b]) {
      if a == i {
        assert fs[b].pk != fs[i].pk;
        assert !Conflita(fs[b], editada.aluno, editada.mes, editada.ano, Some(fs[i].pk));
      } else if b == i {
        assert fs[a].pk != fs[i].pk;
        assert !Conflita(fs[a], editada.aluno, editada.mes, editada.ano, Some(fs[i].pk));
      } else {
        assert gs[a] == fs[a] && gs[b] == fs[b];
      }
    }
  }
}
