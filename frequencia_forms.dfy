/**
 * The lesson and attendance forms (frequencia/forms.py): both refuse an end
 * time that is not after the start time, and compare nothing while either
 * time is missing.
 */
module FrequenciaForms {
  import opened Wrappers
  import opened Dates

  datatype ErroHorario = FimNaoPosterior

  /**
   * The shared time rule: with both times given, the end must be strictly
   * later than the start; the data itself is passed through untouched.
   * Times are minutes since midnight, and every `time` value is truthy.
   */
  function CleanHorarios<D>(dados: D, inicio: Option<int>, fim: Option<int>): (r: Result<D, ErroHorario>)
    ensures r.Failure? <==> inicio.Some? && fim.Some? && fim.value <= inicio.value
    ensures r.Success? ==> r.value == dados
  {
    if inicio.Some? && fim.Some? && fim.value <= inicio.value then Failure(FimNaoPosterior)
    else Success(dados)
  }

  /** `AgendaAulaForm.cleaned_data`. */
  datatype DadosAula = DadosAula(
    aluno: Option<int>, data: Option<Date>, inicio: Option<int>, fim: Option<int>,
    status: Option<string>, tipoTreino: string, observacoes: string)

  /** `RegistroPresencaForm.cleaned_data`. */
  datatype DadosRegistro = DadosRegistro(
    aluno: Option<int>, data: Option<Date>, inicio: Option<int>, fim: Option<int>,
    status: Option<string>, observacoes: string)

  /** `AgendaAulaForm.clean`. */
  function AgendaAulaClean(d: DadosAula): (r: Result<DadosAula, ErroHorario>)
    ensures r.Failure? <==> d.inicio.Some? && d.fim.Some? && d.fim.value <= d.inicio.value
    ensures r.Success? ==> r.value == d
  {
    CleanHorarios(d, d.inicio, d.fim)
  }

  /** `RegistroPresencaForm.clean`: the identical rule on the attendance record. */
  function RegistroPresencaClean(d: DadosRegistro): (r: Result<DadosRegistro, ErroHorario>)
    ensures r.Failure? <==> d.inicio.Some? && d.fim.Some? && d.fim.value <= d.inicio.value
    ensures r.Success? ==> r.value == d
  {
    CleanHorarios(d, d.inicio, d.fim)
  }

  /**
   * The two forms accept exactly the same pairs of times: a lesson and the
   * attendance record copied from it are accepted or refused together.
   */
  lemma MesmaRegra(a: DadosAula, g: DadosRegistro)
    requires a.inicio == g.inicio && a.fim == g.fim
    ensures AgendaAulaClean(a).Success? <==> RegistroPresencaClean(g).Success?
  {
  }
}
