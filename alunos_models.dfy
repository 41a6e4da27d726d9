/**
 * Students and their body data (alunos/models.py): age from the birth date,
 * body-mass index (BMI, "IMC") from weight and height, its classification
 * into bands and the display colour, and the monthly tracking record that
 * recomputes its BMI whenever it is saved.
 */
module Alunos {
  import opened Wrappers
  import opened Dates

  /** Python truthiness of an optional decimal field: None and zero are false. */
  predicate Present(x: Option<real>) {
    x.Some? && x.value != 0.0
  }

  /** `peso / altura ** 2`, or None when either is missing or zero. */
  function ImcDe(peso: Option<real>, altura: Option<real>): (r: Option<real>)
    ensures r.Some? <==> Present(peso) && Present(altura)
    ensures r.Some? ==> r.value * (altura.value * altura.value) == peso.value
  {
    if Present(peso) && Present(altura) then
      Some(peso.value / (altura.value * altura.value))
    else
      None
  }

  /** The BMI bands, from the lowest to the highest. */
  datatype Faixa = AbaixoDoPeso | PesoNormal | Sobrepeso | ObesidadeI | ObesidadeII | ObesidadeIII

  function Rank(f: Faixa): nat {
    match f
    case AbaixoDoPeso => 0
    case PesoNormal => 1
    case Sobrepeso => 2
    case ObesidadeI => 3
    case ObesidadeII => 4
    case ObesidadeIII => 5
  }

  /** The band of a BMI: closed-open intervals split at 18.5, 25, 30, 35 and 40. */
  function FaixaDe(imc: real): (f: Faixa)
    ensures f == AbaixoDoPeso <==> imc < 18.5
    ensures f == PesoNormal <==> 18.5 <= imc < 25.0
    ensures f == Sobrepeso <==> 25.0 <= imc < 30.0
    ensures f == ObesidadeI <==> 30.0 <= imc < 35.0
    ensures f == ObesidadeII <==> 35.0 <= imc < 40.0
    ensures f == ObesidadeIII <==> 40.0 <= imc
  {
    if imc < 18.5 then AbaixoDoPeso
    else if 18.5 <= imc < 25.0 then PesoNormal
    else if 25.0 <= imc < 30.0 then Sobrepeso
    else if 30.0 <= imc < 35.0 then ObesidadeI
    else if 35.0 <= imc < 40.0 then ObesidadeII
    else ObesidadeIII
  }

  /** A larger BMI never falls in an earlier band. */
  lemma FaixaMonotone(a: real, b: real)
    requires a <= b
    ensures Rank(FaixaDe(a)) <= Rank(FaixaDe(b))
  {
  }

  function Rotulo(f: Faixa): string {
    match f
    case AbaixoDoPeso => "Abaixo do peso"
    case PesoNormal => "Peso normal"
    case Sobrepeso => "Sobrepeso"
    case ObesidadeI => "Obesidade grau I"
    case ObesidadeII => "Obesidade grau II"
    case ObesidadeIII => "Obesidade grau III"
  }

  const NaoCalculado := "Não calculado"

  /** The text shown for a BMI: the band's label, or "Não calculado" without one. */
  function Classificacao(imc: Option<real>): (s: string)
    ensures s == NaoCalculado <==> imc.None?
    ensures imc.Some? ==> s == Rotulo(FaixaDe(imc.value))
  {
    match imc
    case None => NaoCalculado
    case Some(v) => Rotulo(FaixaDe(v))
  }

  /** Distinct bands have distinct labels, so the label identifies the band. */
  lemma RotuloInjective(f: Faixa, g: Faixa)
    requires Rotulo(f) == Rotulo(g)
    ensures f == g
  {
  }

  /** The display colour of a BMI, which agrees with its band. */
  function Cor(imc: Option<real>): (c: string)
    ensures c == "gray" <==> imc.None?
    ensures c == "blue" <==> imc.Some? && FaixaDe(imc.value) == AbaixoDoPeso
    ensures c == "green" <==> imc.Some? && FaixaDe(imc.value) == PesoNormal
    ensures c == "yellow" <==> imc.Some? && FaixaDe(imc.value) == Sobrepeso
    ensures c == "red" <==> imc.Some? && Rank(FaixaDe(imc.value)) >= 3
  {
    if imc.None? then "gray"
    else if imc.value < 18.5 then "blue"
    else if 18.5 <= imc.value < 25.0 then "green"
    else if 25.0 <= imc.value < 30.0 then "yellow"
    else "red"
  }

  /** The date of the k-th anniversary of a birth date, compared as a (year, month, day) tuple. */
  function Aniversario(nascimento: Date, k: int): Date {
    Date(nascimento.year + k, nascimento.month, nascimento.day)
  }

  /** What a query over students returns: key, trainer and the active flag. */
  datatype AlunoRow = AlunoRow(pk: int, personalTrainer: int, ativo: bool)

  class Aluno {
    var nome: string
    var dataNascimento: Date
    var pesoInicial: Option<real>
    var altura: Option<real>
    var personalTrainer: int
    var ativo: bool

    constructor (nome: string, dataNascimento: Date, pesoInicial: Option<real>,
                 altura: Option<real>, personalTrainer: int)
      ensures this.nome == nome && this.dataNascimento == dataNascimento
      ensures this.pesoInicial == pesoInicial && this.altura == altura
      ensures this.personalTrainer == personalTrainer && ativo
    {
      this.nome := nome;
      this.dataNascimento := dataNascimento;
      this.pesoInicial := pesoInicial;
      this.altura := altura;
      this.personalTrainer := personalTrainer;
      ativo := true;
    }

    /** Completed years: the last anniversary reached on or before today. */
    function Idade(hoje: Date): (r: int)
      reads this
      ensures NotAfter(Aniversario(dataNascimento, r), hoje)
      ensures Before(hoje, Aniversario(dataNascimento, r + 1))
    {
      var idade := hoje.year - dataNascimento.year;
      if hoje.month < dataNascimento.month
         || (hoje.month == dataNascimento.month && hoje.day < dataNascimento.day)
      then idade - 1
      else idade
    }

    function ImcInicial(): (r: Option<real>)
      reads this
      ensures r.Some? <==> Present(pesoInicial) && Present(altura)
      ensures r.Some? ==> r.value * (altura.value * altura.value) == pesoInicial.value
    {
      ImcDe(pesoInicial, altura)
    }

    function ClassificacaoImc(): (s: string)
      reads this
      ensures s == NaoCalculado <==> !(Present(pesoInicial) && Present(altura))
    {
      Classificacao(ImcInicial())
    }

    function CorImc(): (c: string)
      reads this
      ensures c == "gray" <==> !(Present(pesoInicial) && Present(altura))
    {
      Cor(ImcInicial())
    }
  }

  /** A dated body-measurement snapshot of a student. */
  class MedidasCorporais {
    const aluno: Aluno
    var dataMedicao: Date
    var peso: Option<real>

    constructor (aluno: Aluno, dataMedicao: Date, peso: Option<real>)
      ensures this.aluno == aluno && this.dataMedicao == dataMedicao && this.peso == peso
    {
      this.aluno := aluno;
      this.dataMedicao := dataMedicao;
      this.peso := peso;
    }

    /** The measurement's BMI: its own weight over the student's height squared. */
    function Imc(): (r: Option<real>)
      reads this, aluno
      ensures r.Some? <==> Present(peso) && Present(aluno.altura)
      ensures r.Some? ==> r.value * (aluno.altura.value * aluno.altura.value) == peso.value
    {
      ImcDe(peso, aluno.altura)
    }
  }

  /** One tracking record per (student, year, month), with a stored BMI. */
  class AcompanhamentoMensal {
    const aluno: Aluno
    var ano: int
    var mes: int
    var peso: Option<real>
    var imc: Option<real>

    constructor (aluno: Aluno, ano: int, mes: int, peso: Option<real>)
      ensures this.aluno == aluno && this.ano == ano && this.mes == mes
      ensures this.peso == peso && imc.None?
    {
      this.aluno := aluno;
      this.ano := ano;
      this.mes := mes;
      this.peso := peso;
      imc := None;
    }

    /** Recomputes the stored BMI before persisting; keeps it when weight or height is missing. */
    method Save()
      modifies this`imc
      ensures Present(peso) && Present(aluno.altura) ==>
                imc.Some? && imc.value * (aluno.altura.value * aluno.altura.value) == peso.value
      ensures !(Present(peso) && Present(aluno.altura)) ==> imc == old(imc)
    {
      if Present(peso) && Present(aluno.altura) {
        imc := ImcDe(peso, aluno.altura);
      }
    }

    /** The same bands as the student's classification, applied to the stored BMI. */
    function ClassificacaoImc(): (s: string)
      reads this
      ensures s == NaoCalculado <==> imc.None?
      ensures imc.Some? ==> s == Rotulo(FaixaDe(imc.value))
    {
      Classificacao(imc)
    }
  }
}
