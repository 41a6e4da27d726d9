/**
 * The student forms (alunos/forms.py): the phone-number format of
 * `AlunoForm`, the weekday choices of `AgendamentoPadraoForm` and the
 * bounded integer fields of `PlanoFinanceiroForm`.
 */
module AlunosForms {
  import opened Wrappers

  // ---------------------------------------------------------------------
  // Phone number

  /** `\d`, restricted to ASCII digits. */
  predicate Digito(c: char) {
    '0' <= c <= '9'
  }

  /** `\s` and `str.isspace`, restricted to their ASCII members. */
  predicate Espaco(c: char) {
    c == ' ' || c == '\t' || c == '\n' || c == '\r' || c == '\U{000B}' || c == '\U{000C}'
    || c == '\U{001C}' || c == '\U{001D}' || c == '\U{001E}' || c == '\U{001F}'
  }

  predicate Digitos(s: string) {
    forall i :: 0 <= i < |s| ==> Digito(s[i])
  }

  /** `str.lstrip()`: drops the leading whitespace. */
  function TiraEsquerda(s: string): (r: string)
    ensures |r| <= |s| && r == s[|s| - |r|..]
    ensures forall i :: 0 <= i < |s| - |r| ==> Espaco(s[i])
    ensures r == [] || !Espaco(r[0])
  {
    if s == [] || !Espaco(s[0]) then s else TiraEsquerda(s[1..])
  }

  /** `str.rstrip()`: drops the trailing whitespace. */
  function TiraDireita(s: string): (r: string)
    ensures |r| <= |s| && r == s[..|r|]
    ensures forall i :: |r| <= i < |s| ==> Espaco(s[i])
    ensures r == [] || !Espaco(r[|r| - 1])
  {
    if s == [] || !Espaco(s[|s| - 1]) then s else TiraDireita(s[..|s| - 1])
  }

  /** `str.strip()`, which `CharField` applies before validating. */
  function Strip(s: string): (r: string)
    ensures r == [] || (!Espaco(r[0]) && !Espaco(r[|r| - 1]))
    ensures |r| <= |s|
    ensures exists i, j :: 0 <= i <= j <= |s| && r == s[i..j]
              && (forall k :: 0 <= k < i ==> Espaco(s[k]))
              && (forall k :: j <= k < |s| ==> Espaco(s[k]))
  {
    var e := TiraEsquerda(s);
    var r := TiraDireita(e);
    CorteDasPontas(s, e, r);
    r
  }

  /**
   * Whitespace cut from the front of `s`, giving `e`, and then from the back
   * of `e`, giving `r`, leaves a slice of `s` with only whitespace around it.
   */
  lemma CorteDasPontas(s: string, e: string, r: string)
    requires |e| <= |s| && e == s[|s| - |e|..] && forall k :: 0 <= k < |s| - |e| ==> Espaco(s[k])
    requires |r| <= |e| && r == e[..|r|] && forall k :: |r| <= k < |e| ==> Espaco(e[k])
    ensures exists i, j :: 0 <= i <= j <= |s| && r == s[i..j]
              && (forall k :: 0 <= k < i ==> Espaco(s[k]))
              && (forall k :: j <= k < |s| ==> Espaco(s[k]))
  {
    var i := |s| - |e|;
    forall k | i + |r| <= k < |s| ensures Espaco(s[k]) {
      assert s[k] == e[k - i];
    }
    assert r == s[i..i + |r|];
  }

  /** `-\d{4}$`: `$` matches at the end and also before one final newline. */
  predicate CasaFinal(u: string) {
    |u| >= 5 && u[0] == '-' && Digitos(u[1..5]) && (|u| == 5 || (|u| == 6 && u[5] == '\n'))
  }

  /** `\d{4,5}-\d{4}$`: five digits first, then four, as the regex backtracks. */
  predicate CasaNumero(t: string) {
    (|t| >= 5 && Digitos(t[..5]) && CasaFinal(t[5..]))
    || (|t| >= 4 && Digitos(t[..4]) && CasaFinal(t[4..]))
  }

  /** `re.search(r'^\(\d{2}\)\s\d{4,5}-\d{4}$', s)` succeeds. */
  predicate CasaTelefone(s: string) {
    |s| >= 5 && s[0] == '(' && Digito(s[1]) && Digito(s[2]) && s[3] == ')' && Espaco(s[4])
    && CasaNumero(s[5..])
  }

  /** The parts of a phone number in the documented format. */
  datatype Telefone = Telefone(ddd: string, separador: char, prefixo: string, sufixo: string)

  predicate TelefoneBemFormado(f: Telefone) {
    |f.ddd| == 2 && Digitos(f.ddd) && Espaco(f.separador)
    && (|f.prefixo| == 4 || |f.prefixo| == 5) && Digitos(f.prefixo)
    && |f.sufixo| == 4 && Digitos(f.sufixo)
  }

  /** "(", area code, ")", one whitespace, 4 or 5 digits, "-", 4 digits. */
  function Escrever(f: Telefone): string {
    "(" + f.ddd + ")" + [f.separador] + f.prefixo + "-" + f.sufixo
  }

  lemma EscreverCasa(f: Telefone)
    requires TelefoneBemFormado(f)
    ensures CasaTelefone(Escrever(f))
    ensures |Escrever(f)| == 10 + |f.prefixo|
  {
    var s := Escrever(f);
    var n := |f.prefixo|;
    assert s[1..3] == f.ddd;
    assert s[5..][..n] == f.prefixo;
    assert s[5..][n..][1..5] == f.sufixo;
    assert |s[5..][n..]| == 5;
  }

  lemma CasaEscrever(s: string)
    requires CasaTelefone(s) && s[|s| - 1] != '\n'
    ensures exists f :: TelefoneBemFormado(f) && s == Escrever(f)
  {
    var t := s[5..];
    var n := if |t| >= 5 && Digitos(t[..5]) && CasaFinal(t[5..]) then 5 else 4;
    assert |t[n..]| == 5;
    var f := Telefone(s[1..3], s[4], t[..n], t[n..][1..5]);
    assert s == Escrever(f);
  }

  /**
   * A string without a final newline matches the phone pattern exactly when
   * it is a well-formed phone number written out.
   */
  lemma CasaTelefoneSse(s: string)
    requires s == [] || s[|s| - 1] != '\n'
    ensures CasaTelefone(s) <==> exists f :: TelefoneBemFormado(f) && s == Escrever(f)
  {
    if CasaTelefone(s) {
      CasaEscrever(s);
    }
    if exists f :: TelefoneBemFormado(f) && s == Escrever(f) {
      var f :| TelefoneBemFormado(f) && s == Escrever(f);
      EscreverCasa(f);
    }
  }

  /** Because of `$`, the raw pattern also accepts the placeholder followed by a newline. */
  lemma PadraoAceitaQuebraFinal()
    ensures CasaTelefone("(11) 99999-9999\n")
  {
    var s := "(11) 99999-9999\n";
    assert s[5..][5..] == "-9999\n";
    assert s[5..][..5] == "99999";
  }

  datatype ErroCampo = Obrigatorio | FormatoInvalido | AbaixoDoMinimo | AcimaDoMaximo

  /**
   * `AlunoForm.telefone`: stripped, refused when empty (the field is
   * required), then checked against the pattern.
   */
  function CleanTelefone(bruto: string): (r: Result<string, ErroCampo>)
    ensures r.Success? ==> r.value == Strip(bruto) && CasaTelefone(r.value)
    ensures r == Failure(Obrigatorio) <==> Strip(bruto) == []
    ensures r == Failure(FormatoInvalido) <==> Strip(bruto) != [] && !CasaTelefone(Strip(bruto))
  {
    var valor := Strip(bruto);
    if valor == [] then Failure(Obrigatorio)
    else if CasaTelefone(valor) then Success(valor)
    else Failure(FormatoInvalido)
  }

  /** A phone number is accepted iff, once stripped, it is a well-formed number written out. */
  lemma TelefoneAceitoSse(bruto: string)
    ensures CleanTelefone(bruto).Success? <==>
              exists f :: TelefoneBemFormado(f) && Strip(bruto) == Escrever(f)
  {
    CasaTelefoneSse(Strip(bruto));
  }

  /** A match without a final newline has 14 or 15 characters. */
  lemma CasaComprimento(s: string)
    requires CasaTelefone(s) && s[|s| - 1] != '\n'
    ensures |s| == 14 || |s| == 15
  {
    var t := s[5..];
    var n := if |t| >= 5 && Digitos(t[..5]) && CasaFinal(t[5..]) then 5 else 4;
    var u := t[n..];
    assert u[|u| - 1] == s[|s| - 1];
  }

  /** Every accepted phone number has 14 or 15 characters. */
  lemma TelefoneComprimento(bruto: string)
    requires CleanTelefone(bruto).Success?
    ensures |CleanTelefone(bruto).value| == 14 || |CleanTelefone(bruto).value| == 15
  {
    StripSemQuebraFinal(bruto);
    CasaComprimento(Strip(bruto));
  }

  /** A stripped value never ends with a newline. */
  lemma StripSemQuebraFinal(bruto: string)
    ensures Strip(bruto) == [] || Strip(bruto)[|Strip(bruto)| - 1] != '\n'
  {
  }

  const Placeholder := "(11) 99999-9999"

  /** The field's placeholder is itself accepted, unchanged. */
  lemma PlaceholderAceito()
    ensures CleanTelefone(Placeholder) == Success(Placeholder)
  {
    var f := Telefone("11", ' ', "99999", "9999");
    PlaceholderEscrito();
    EscreverCasa(f);
    PlaceholderSemEspacos();
  }

  lemma PlaceholderEscrito()
    ensures Placeholder == Escrever(Telefone("11", ' ', "99999", "9999"))
  {
  }

  lemma PlaceholderSemEspacos()
    ensures Strip(Placeholder) == Placeholder
  {
    assert TiraEsquerda(Placeholder) == Placeholder;
  }

  // ---------------------------------------------------------------------
  // Weekday choices

  /** `DIAS_SEMANA_CHOICES`, numbered as `date.weekday()` numbers days. */
  const DiasSemanaChoices: seq<(int, string)> := [
    (0, "Segunda-feira"), (1, "Terça-feira"), (2, "Quarta-feira"), (3, "Quinta-feira"),
    (4, "Sexta-feira"), (5, "Sábado"), (6, "Domingo")
  ]

  /** `d` is the key of one of the weekday choices. */
  predicate EhEscolha(d: int) {
    exists k :: 0 <= k < |DiasSemanaChoices| && DiasSemanaChoices[k].0 == d
  }

  /** The choice keys are exactly 0 (Monday) through 6 (Sunday). */
  lemma EscolhaSse(d: int)
    ensures EhEscolha(d) <==> 0 <= d <= 6
  {
    if 0 <= d <= 6 {
      assert DiasSemanaChoices[d].0 == d;
    }
  }

  /** `dias_semana` (a `MultipleChoiceField`): every selected value must be a choice; none is fine. */
  function CleanDiasSemana(selecionados: seq<int>): (r: Result<seq<int>, ErroCampo>)
    ensures r.Success? <==> forall i :: 0 <= i < |selecionados| ==> 0 <= selecionados[i] <= 6
    ensures r.Success? ==> r.value == selecionados
  {
    assert forall d :: EhEscolha(d) <==> 0 <= d <= 6 by {
      forall d ensures EhEscolha(d) <==> 0 <= d <= 6 {
        EscolhaSse(d);
      }
    }
    if forall i :: 0 <= i < |selecionados| ==> EhEscolha(selecionados[i])
    then Success(selecionados)
    else Failure(FormatoInvalido)
  }

  // ---------------------------------------------------------------------
  // Bounded integer fields of PlanoFinanceiroForm

  /** An optional `IntegerField(min_value, max_value)`: blank is None, out of range is an error. */
  function CleanInteiro(valor: Option<int>, minimo: int, maximo: int): (r: Result<Option<int>, ErroCampo>)
    ensures valor.None? ==> r == Success(None)
    ensures valor.Some? ==> (r.Success? <==> minimo <= valor.value <= maximo)
    ensures r.Success? ==> r.value == valor
    ensures r == Failure(AbaixoDoMinimo) <==> valor.Some? && valor.value < minimo
    ensures r == Failure(AcimaDoMaximo) <==> valor.Some? && valor.value > maximo && valor.value >= minimo
  {
    if valor.None? then Success(None)
    else if valor.value < minimo then Failure(AbaixoDoMinimo)
    else if valor.value > maximo then Failure(AcimaDoMaximo)
    else Success(valor)
  }

  const DiaVencimentoInicial := 5
  const MesesAntecipadosInicial := 3

  /** `dia_vencimento`: optional, 1..28. */
  function CleanDiaVencimento(valor: Option<int>): (r: Result<Option<int>, ErroCampo>)
    ensures r.Success? <==> valor.None? || 1 <= valor.value <= 28
    ensures r.Success? ==> r.value == valor
  {
    CleanInteiro(valor, 1, 28)
  }

  /** `meses_antecipados`: optional, 1..12. */
  function CleanMesesAntecipados(valor: Option<int>): (r: Result<Option<int>, ErroCampo>)
    ensures r.Success? <==> valor.None? || 1 <= valor.value <= 12
    ensures r.Success? ==> r.value == valor
  {
    CleanInteiro(valor, 1, 12)
  }

  /** The initial values offered by the form pass the form's own bounds. */
  lemma IniciaisValidos()
    ensures CleanDiaVencimento(Some(DiaVencimentoInicial)) == Success(Some(DiaVencimentoInicial))
    ensures CleanMesesAntecipados(Some(MesesAntecipadosInicial)) == Success(Some(MesesAntecipadosInicial))
  {
  }
}
