/**
 * The simplified lesson form (frequencia/forms_new.py): the same time rule,
 * and a student choice restricted to the trainer's active students.
 */
module FrequenciaFormsNew {
  import opened Wrappers
  import opened Dates
  import opened Alunos
  import FrequenciaForms

  /** `AgendaAulaForm.cleaned_data` of the simplified form. */
  datatype DadosAulaSimples = DadosAulaSimples(
    aluno: Option<int>, data: Option<Date>, inicio: Option<int>, fim: Option<int>,
    compareceu: bool, observacoes: string)

  /** `AgendaAulaForm.clean`: an end time not after the start time is refused. */
  function AgendaAulaClean(d: DadosAulaSimples): (r: Result<DadosAulaSimples, FrequenciaForms.ErroHorario>)
    ensures r.Failure? <==> d.inicio.Some? && d.fim.Some? && d.fim.value <= d.inicio.value
    ensures r.Success? ==> r.value == d
  {
    FrequenciaForms.CleanHorarios(d, d.inicio, d.fim)
  }

  /** The `aluno` queryset set in `__init__`: the trainer's students that are active. */
  function AlunoChoices(alunos: seq<AlunoRow>, treinador: int): (r: seq<AlunoRow>)
    ensures forall a :: a in r <==> a in alunos && a.personalTrainer == treinador && a.ativo
    ensures |r| <= |alunos|
  {
    if alunos == [] then []
    else
      var rest := AlunoChoices(alunos[1..], treinador);
      assert forall a :: a in alunos <==> a == alunos[0] || a in alunos[1..] by {
        assert alunos == [alunos[0]] + alunos[1..];
      }
      if alunos[0].personalTrainer == treinador && alunos[0].ativo then [alunos[0]] + rest else rest
  }

  /** Deactivating a student removes it from the choices and leaves every other choice. */
  lemma DesativarRemoveDasChoices(alunos: seq<AlunoRow>, treinador: int, i: int)
    requires 0 <= i < |alunos|
    ensures var depois := alunos[i := alunos[i].(ativo := false)];
            alunos[i].(ativo := false) !in AlunoChoices(depois, treinador)
            && (forall a :: a in AlunoChoices(depois, treinador) ==> a in AlunoChoices(alunos, treinador))
            && (forall a :: a in AlunoChoices(alunos, treinador) && a != alunos[i] ==> a in AlunoChoices(depois, treinador))
  {
    var depois := alunos[i := alunos[i].(ativo := false)];
    forall a | a in depois ensures a in alunos || a == alunos[i].(ativo := false) {
      var k :| 0 <= k < |depois| && depois[k] == a;
    }
    forall a | a in alunos && a != alunos[i] ensures a in depois {
      var k :| 0 <= k < |alunos| && alunos[k] == a;
      assert depois[k] == a;
    }
  }
}
