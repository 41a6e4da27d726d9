# formafit core, modelled in Dafny

formafit is a gym-management web application for personal trainers. It keeps
students ("alunos") with their body data, a weekly lesson agenda with
attendance records ("frequência"), and monthly invoices ("faturas"). This
project models the part of it that is logic rather than framework glue:

- enrolling a student: four weeks of lessons on the chosen weekdays,
  counted from the next Monday, and a contract whose invoices for the coming
  months skip every month the student is already billed for;
- the student's derived values: age, body-mass index (BMI, "IMC"), its band
  and its display colour, and the monthly tracking record that recomputes its
  BMI on save;
- the invoice status rule: a pending invoice saved after its due date
  becomes overdue, a paid one stays paid. On top of it sit the billing
  dashboard's buckets and sums, the list statistics and "mark as paid";
- the form rules: the phone-number pattern, the bounds of the plan fields,
  the weekday choices, "end time after start time", and at most one invoice
  per student and month;
- the calendar's month arithmetic, the grouping of a month's lessons by day,
  the lesson status change, one-click attendance registration and the top-5
  attendance ranking;
- the side menu's active-entry highlighting.

Database tables are sequences: `seq<Aula>`, `seq<Registro>`, `seq<Fatura>`.
Objects that the code updates in place are classes with `modifies` frames,
for example `Agenda`, `Cobranca`, `Aluno`, `FaturaSimples` and
`AcompanhamentoMensal`.

Representations:

- Dates are `(year, month, day)`, compared as tuples the way Python compares
  dates. The `Dates` module also holds day arithmetic, the ordinal and
  weekday numbering (Monday = 0) and month addition.
- Times of day are minutes since midnight.
- Money is integer cents. BMI is `real`.
- "Today" and the next free primary key are parameters.

Each module follows one source file:

| module | file |
|---|---|
| `Cadastro` | `alunos_views.dfy` |
| `Alunos` | `alunos_models.dfy` |
| `AlunosForms` | `alunos_forms.dfy` |
| `Financeiro` | `financeiro_models.dfy` |
| `FinanceiroViews` | `financeiro_views.dfy` |
| `FinanceiroForms` | `financeiro_forms.dfy` |
| `Frequencia` | `frequencia_views.dfy` |
| `FrequenciaForms` | `frequencia_forms.dfy` |
| `FrequenciaFormsNew` | `frequencia_forms_new.dfy` |
| `Nav` | `nav.dfy` |

`Dates` and `Wrappers` (`Option` and `Result`) are shared.

## Model

| member | source | states |
|---|---|---|
| Dates.DaysInMonth | alunos/views.py:201 | The length of a month is 28 to 31 days, and February has 29 days exactly in leap years. |
| Dates.PrevDay | frequencia/views.py:383-385 | The day before a date is a valid date, comes earlier, and has that date as its next day. |
| Dates.WeekdayAddDays | alunos/views.py:129 | Moving n days forward moves the weekday n places, modulo 7. |
| Dates.AddDaysAdd | alunos/views.py:138-142 | Adding a days and then b days is the same as adding a + b days. |
| Dates.AddDaysAfter | alunos/views.py:132 | Adding at least one day gives a strictly later date. |
| Dates.AddMonths | alunos/views.py:191-193 | `relativedelta(months=k)` lands exactly k months later, with the month in 1..12 and the year rolling over. |
| Dates.PlusOneHour | alunos/views.py:125 | The end time is the start plus 60 minutes modulo one day. It is later than the start exactly when the start is before 23:00. |
| Cadastro.DiasAteSegunda | alunos/views.py:129-131 | The offset is 1 to 7 days and lands on a Monday. It is 7 exactly when today is a Monday, so today is never chosen. |
| Cadastro.AncoraEhProximaSegunda | alunos/views.py:128-132 | The anchor is a Monday strictly after today. |
| Cadastro.NenhumaSegundaAntesDaAncora | alunos/views.py:128-132 | No day between today and the anchor is a Monday, so the anchor is the next Monday. |
| Cadastro.Semana | alunos/views.py:140-153 | One week holds one lesson per selected weekday, in selection order. |
| Cadastro.SessoesContagem | alunos/views.py:137-154 | The run creates exactly weeks × selected-weekdays lessons. |
| Cadastro.SessoesSaoAsSessoes | alunos/views.py:137-153 | A lesson is created iff it is the lesson of some week below the bound and some selected weekday. |
| Cadastro.SessaoData | alunos/views.py:137-142 | The lesson of week w and weekday d falls 7w + d days after the anchor Monday, which Ancora defines as today + days-to-Monday. |
| Cadastro.SegundaDaSemana | alunos/views.py:138 | Every week start is a Monday. |
| Cadastro.SessaoDiaDaSemana | alunos/views.py:137-142 | Each lesson's weekday is the weekday selected for it. |
| Cadastro.NaoAntesDaAncora | alunos/views.py:138-142 | No lesson falls before the anchor Monday. |
| Cadastro.SessaoDepoisDeHoje | alunos/views.py:128-142 | Every lesson is strictly after today. |
| Cadastro.SessaoHorario | alunos/views.py:145-153 | A lesson is `agendado`, belongs to the student, and ends 60 minutes (mod one day) after it starts. |
| Cadastro.SessaoPassaNoFormulario | alunos/views.py:125 | The lesson form's time rule accepts a generated lesson iff the lesson starts before 23:00. |
| Cadastro.AgendarSemana | alunos/views.py:140-154 | One week appends exactly that week's lessons, in order, and leaves the earlier rows alone. |
| Cadastro.AgendarSemanas | alunos/views.py:137-154 | The four weeks append exactly the lessons of the four weeks after the anchor. The count is 4 × the number of selected weekdays. |
| Cadastro.CriarAgendamentosPadrao | alunos/views.py:118-154 | The table gains exactly the four weeks of lessons. The returned count is 4 × the number of selected weekdays. |
| Cadastro.ValorFatura | alunos/views.py:185 | The invoice value is the custom value when it is given and nonzero, and the plan's value otherwise. |
| Cadastro.Vencimento | alunos/views.py:196-202 | The due date is in the reference month, on day min(due day, month length). It is valid. |
| Cadastro.DiaDoFormularioSemAjuste | alunos/forms.py:329-331 | A due day the plan form accepts (1..28) is never moved. |
| Cadastro.Periodo | alunos/views.py:189-193 | The i-th invoice references the month i months after today's month, with year rollover. |
| Cadastro.NovaFatura | alunos/views.py:210-220 | A new invoice is for this student and contract, in its period, `pendente`, with original value = final value, and due as Vencimento says. |
| Cadastro.ExisteFatura | alunos/views.py:205-209 | True iff some row has this student, month and year. |
| Cadastro.ExistentesIntactas | alunos/views.py:204-221 | Rows that already existed are kept, in place and unchanged. |
| Cadastro.SoNovasFaturas | alunos/views.py:204-221 | Every added row is the invoice of one of the run's periods. |
| Cadastro.TodosPeriodosCobrados | alunos/views.py:189-221 | After the run, every one of its periods has an invoice for the student. |
| Cadastro.JaCobradoNadaMuda | alunos/views.py:204-221 | On a table where every period is already billed, the run changes nothing. |
| Cadastro.Idempotente | alunos/views.py:189-221 | Running the invoice step twice gives the same table as running it once. |
| Cadastro.PeriodosDistintos | alunos/views.py:189-193 | Distinct turns of the loop reference distinct months. |
| Cadastro.CobradoAntesSse | alunos/views.py:204-209 | At the i-th turn, the existence check sees a row for period i iff the original table had one. |
| Cadastro.ContagemPasso | alunos/views.py:204-221 | One turn adds a row exactly when the original table lacks that turn's period. |
| Cadastro.ContagemCriadas | alunos/views.py:204-221 | The table grows by exactly the number of periods that had no invoice before. |
| Cadastro.UnicidadePreservada | alunos/views.py:204-221 | A table with one invoice per (student, month, year) still has one after the run. |
| Cadastro.Cobranca.CriarContratoFinanceiro | alunos/views.py:161-221 | Always appends the active contract. With a month count given, the invoice table becomes the run's result and the returned count is the number of previously absent periods. With a blank month count (`range(None)` fails after the contract is saved), the result is None and the invoice table is unchanged. |
| Cadastro.ToggleStatus | alunos/views.py:416-425 | For the trainer's own student, `ativo` is negated and returned. For anyone else's, nothing changes. |
| Cadastro.ToggleStatusDuasVezes | alunos/views.py:417-419 | Toggling twice restores `ativo`. |
| Cadastro.PorMes | alunos/views.py:316 | The keys are exactly the months present. Each key maps to its last record. |
| Cadastro.ListaMeses | alunos/views.py:319-330 | There are twelve entries for months 1..12, named as the invoices name them. Each carries its record and `has_data` iff that month has one. |
| Alunos.ImcDe | alunos/models.py:64-66 | A BMI exists iff weight and height are both present and nonzero. Then BMI × height² = weight. |
| Alunos.FaixaDe | alunos/models.py:75-86 | Each band holds iff the BMI lies in that band's closed-open interval; the boundaries are 18.5/25/30/35/40. |
| Alunos.FaixaMonotone | alunos/models.py:75-86 | A larger BMI never falls in an earlier band. |
| Alunos.Classificacao | alunos/models.py:71-86 | The text is "Não calculado" iff there is no BMI, and the band's label otherwise. |
| Alunos.RotuloInjective | alunos/models.py:75-86 | Distinct bands have distinct labels. |
| Alunos.Cor | alunos/models.py:91-102 | Gray iff there is no BMI. Blue, green and yellow iff the band is the first, second or third. Red iff the band is an obesity band. |
| Alunos.Aluno.Idade | alunos/models.py:52-59 | The age is the number of completed years: the last birthday on or before today and the next one after it. |
| Alunos.Aluno.ImcInicial | alunos/models.py:61-66 | The initial BMI exists iff the initial weight and the height are present. Then it is weight / height². |
| Alunos.Aluno.ClassificacaoImc | alunos/models.py:68-86 | The text is "Não calculado" iff the initial BMI cannot be computed. |
| Alunos.Aluno.CorImc | alunos/models.py:88-102 | The colour is gray iff the initial BMI cannot be computed. |
| Alunos.MedidasCorporais.Imc | alunos/models.py:138-143 | The measurement's BMI uses its own weight and the student's height. |
| Alunos.AcompanhamentoMensal.Save | alunos/models.py:225-229 | With weight and height present, the stored BMI becomes weight / height². Otherwise it is kept. |
| Alunos.AcompanhamentoMensal.ClassificacaoImc | alunos/models.py:231-249 | It applies the student's bands to the stored BMI. |
| AlunosForms.Strip | alunos/forms.py:14 | The field's stripped value is a contiguous slice of the input with only whitespace cut from either side, and it starts and ends with a non-space. |
| AlunosForms.EscreverCasa | alunos/forms.py:16 | Every well-formed phone number, written out, matches the pattern. |
| AlunosForms.CasaEscrever | alunos/forms.py:16 | Every match without a final newline is a well-formed phone number written out. |
| AlunosForms.CasaTelefoneSse | alunos/forms.py:15-17 | Without a final newline, matching the pattern is equivalent to being a written-out well-formed phone number. |
| AlunosForms.PadraoAceitaQuebraFinal | alunos/forms.py:16 | Because of how `$` works, the raw pattern also accepts the placeholder followed by a newline. |
| AlunosForms.CleanTelefone | alunos/forms.py:14-18 | An empty input after stripping is "required". Otherwise the stripped value is accepted iff it matches the pattern. |
| AlunosForms.TelefoneAceitoSse | alunos/forms.py:14-18 | A phone number is accepted iff, once stripped, it is a well-formed number written out. |
| AlunosForms.CasaComprimento | alunos/forms.py:16 | A match without a final newline has 14 or 15 characters. |
| AlunosForms.TelefoneComprimento | alunos/forms.py:14-18 | Every accepted phone number has 14 or 15 characters. |
| AlunosForms.PlaceholderAceito | alunos/forms.py:17-20 | The placeholder "(11) 99999-9999" is accepted unchanged. |
| AlunosForms.EscolhaSse | alunos/forms.py:263-271 | The weekday choice keys are exactly 0 (Monday) to 6 (Sunday). |
| AlunosForms.CleanDiasSemana | alunos/forms.py:273-280 | A selection is accepted iff every value is 0..6; the empty selection is accepted. |
| AlunosForms.CleanInteiro | alunos/forms.py:329-332 | Blank gives None. Below the minimum and above the maximum are the matching errors. Otherwise the value is kept. |
| AlunosForms.CleanDiaVencimento | alunos/forms.py:329-340 | The due day is optional and, when given, accepted iff it is in 1..28. |
| AlunosForms.CleanMesesAntecipados | alunos/forms.py:351-361 | The months ahead are optional and, when given, accepted iff they are in 1..12. |
| AlunosForms.IniciaisValidos | alunos/forms.py:329-361 | The initial values 5 and 3 pass the fields' own bounds. |
| Financeiro.StatusAoSalvar | financeiro/models_new.py:51-53 | Overdue iff the invoice was overdue, or pending and past due. Paid iff it was paid. Pending iff it was pending and not yet due. |
| Financeiro.StatusAoSalvarIdempotent | financeiro/models_new.py:49-54 | Saving twice on the same day stores the same status as saving once. |
| Financeiro.NomeDoMes | financeiro/models_new.py:57-64 | Months 1..12 get their Portuguese name. Anything else is exactly "Mês inválido". |
| Financeiro.NomeDoMesInjective | financeiro/models_new.py:59-64 | Distinct months have distinct names. |
| Financeiro.PagaNuncaAtrasada | financeiro/models_new.py:67-70 | A paid invoice is never reported overdue. |
| Financeiro.FaturaSimples.Save | financeiro/models_new.py:49-54 | The status becomes StatusAoSalvar of the old status. After saving, a pending invoice is not past due. |
| Financeiro.FaturaSimples.MesNome | financeiro/models_new.py:56-64 | The result is "Mês inválido" iff the reference month is outside 1..12. |
| Financeiro.FaturaSimples.EstaAtrasada | financeiro/models_new.py:66-70 | Overdue implies unpaid and past due. |
| Financeiro.SalvaAtrasadaCoerente | financeiro/models_new.py:49-70 | Once saved, an invoice reported as overdue carries the overdue status. |
| FinanceiroViews.Filtro | financeiro/views_new.py:63-68 | A filter keeps exactly the rows meeting its lookup and never grows the selection. |
| FinanceiroViews.FiltroOpcional | financeiro/views_new.py:44-55 | An absent parameter keeps every row. A given one keeps exactly the matching rows. |
| FinanceiroViews.ListaFaturas | financeiro/views_new.py:30-55 | The list holds exactly the trainer's invoices with the requested status, month and year. |
| FinanceiroViews.ParticaoContagem | financeiro/views_new.py:65-68 | The pending, overdue and paid counts add up to the total count. |
| FinanceiroViews.ParticaoSoma | financeiro/views_new.py:71-73 | The received and outstanding sums add up to the total sum. |
| FinanceiroViews.EstatisticasLista | financeiro/views_new.py:59-73 | total = pending + overdue + paid, and total value = received + outstanding, both over the trainer's invoices only. Every figure is 0 without such invoices. |
| FinanceiroViews.AnosChoices | financeiro/views_new.py:85-87 | Each reference year appears exactly once, in strictly descending order. |
| FinanceiroViews.OrdenarPorVencimento | financeiro/views_new.py:195 | The result is sorted by due date and is a permutation of its input. |
| FinanceiroViews.TotaisDoMes | financeiro/views_new.py:164-174 | The month's total = received + outstanding. All three are 0 when the trainer has no invoice in that month. |
| FinanceiroViews.Abertas | financeiro/views_new.py:177-188 | The open invoices are exactly the trainer's pending or overdue ones. |
| FinanceiroViews.VencemHoje | financeiro/views_new.py:177-181 | Exactly the trainer's open invoices due today. |
| FinanceiroViews.Atrasadas | financeiro/views_new.py:184-188 | Exactly the trainer's open invoices due before today. |
| FinanceiroViews.ProximosVencimentos | financeiro/views_new.py:191-195 | Exactly the trainer's open invoices due in today+1..today+7, sorted by due date. |
| FinanceiroViews.BucketsDisjuntos | financeiro/views_new.py:177-195 | The overdue, due-today and next-7-days buckets are pairwise disjoint. |
| FinanceiroViews.IndiceFatura | financeiro/views_new.py:217-221 | Finds the invoice with that key belonging to the trainer, and reports none exactly when no row has both. |
| FinanceiroViews.MarcarComoPaga | financeiro/views_new.py:216-223 | Pays an invoice exactly when the trainer-scoped lookup finds it. That invoice ends paid and not overdue whatever its due date, because saving only escalates pending invoices. On a miss (the 404) no row changes, and on a hit only that invoice's status changes. |
| FinanceiroForms.MesesChoicesCompletas | financeiro/forms_new.py:65-70 | The choices are exactly the months 1..12, in order, named as `mes_nome` names them. |
| FinanceiroForms.ExisteConflito | financeiro/forms_new.py:81-90 | True iff some other invoice has this student, month and year. The edited invoice is excluded. |
| FinanceiroForms.Clean | financeiro/forms_new.py:72-95 | Fails iff student, month and year are all given and another invoice has that period. The error names the period. Otherwise the data comes back unchanged. |
| FinanceiroForms.ReSalvarPassa | financeiro/forms_new.py:87-88 | Re-saving an invoice with its period unchanged passes. |
| FinanceiroForms.CriarPreservaUnicidade | financeiro/forms_new.py:78-93 | Adding an accepted new invoice keeps at most one invoice per period. |
| FinanceiroForms.EditarPreservaUnicidade | financeiro/forms_new.py:81-90 | Storing an accepted edit keeps at most one invoice per period. |
| Frequencia.Agenda.AlterarStatus | frequencia/views.py:219-228 | Not found iff the trainer has no such lesson. Invalid iff the new status is not a choice. Only on success does the lesson take the new status, and no other row changes. `alterar_status_rapido` (245-251) behaves the same. |
| Frequencia.Agenda.RegistrarPresencaRapido | frequencia/views.py:441-470 | Refused iff the lesson is missing or already has a record, and then nothing changes. Otherwise exactly one `presente` record is appended, copied from the lesson, and that lesson alone becomes `realizado`. |
| Frequencia.IndiceAula | frequencia/views.py:443 | The lookup finds a lesson with this key and trainer, or reports none iff there is none. |
| Frequencia.JaTemRegistro | frequencia/views.py:446-452 | True iff a record exists for the lesson's student, date and start time. |
| Frequencia.NovoRegistro | frequencia/views.py:459-466 | The new record copies the student, date and times and is `presente`. |
| Frequencia.RegistroUnico | frequencia/views.py:446-470 | After one registration, a second one for the same lesson is refused. |
| Frequencia.ClampMesAno | frequencia/views.py:370-374 | The month is kept iff it is in 1..12 and today's month is used otherwise. The same holds for the year with the range 2020..2030. |
| Frequencia.ClampMesAnoEstavel | frequencia/views.py:370-374 | The clamped month is real, and clamping again changes nothing. |
| Frequencia.UltimoDia | frequencia/views.py:381-385 | It is the last valid day of the month, including December. |
| Frequencia.MesAnterior | frequencia/views.py:402-407 | The result is exactly one month earlier; January wraps to December of the year before. |
| Frequencia.MesProximo | frequencia/views.py:409-414 | The result is exactly one month later; December wraps to January of the year after. |
| Frequencia.MesAnteriorProximoInversos | frequencia/views.py:401-414 | Previous and next undo each other. Next equals adding one month. |
| Frequencia.OrdenarNaAgenda | frequencia/views.py:391 | The result is sorted by date and then start time, and is a permutation of its input. |
| Frequencia.AulasEntre | frequencia/views.py:387-390 | Exactly the trainer's lessons dated in the closed range. |
| Frequencia.AulasDoMes | frequencia/views.py:381-391 | Exactly the trainer's lessons of that month, in calendar order. |
| Frequencia.DoDia | frequencia/views.py:394-399 | Exactly the lessons held on that day number. |
| Frequencia.AulasPorDia | frequencia/views.py:393-399 | A day is a key iff it has lessons. Each key maps to that day's lessons in query order. |
| Frequencia.AulaNoSeuDia | frequencia/views.py:394-399 | Every lesson is in its own day's list and in no other. |
| Frequencia.ContaRealizadas | frequencia/views.py:176-181 | The count is never more than the rows. With RealizadasConcat and RealizadasNenhuma it is exactly the number of rows matching the query. |
| Frequencia.RealizadasConcat | frequencia/views.py:176-181 | The count adds up over two tables, and one row counts 1 exactly when it is a `realizado` lesson of the student dated in the range. |
| Frequencia.RealizadasNenhuma | frequencia/views.py:176-181 | The count is 0 exactly when no row matches the query. |
| Frequencia.ContaPresencas | frequencia/views.py:183-188 | The count is never more than the rows. With PresencasConcat and PresencasNenhuma it is exactly the number of rows matching the query. |
| Frequencia.PresencasConcat | frequencia/views.py:183-188 | The count adds up over two tables, and one row counts 1 exactly when it is a `presente` record of the student dated in the range. |
| Frequencia.PresencasNenhuma | frequencia/views.py:183-188 | The count is 0 exactly when no row matches the query. |
| Frequencia.LinhaDoAluno | frequencia/views.py:190-197 | A line exists iff the student has a realized lesson. It carries presences / total × 100. |
| Frequencia.Elegiveis | frequencia/views.py:172-197 | There are no more lines than students. Every line has realized lessons and carries its exact percentage. |
| Frequencia.ElegiveisSse | frequencia/views.py:175-197 | A line is in the list exactly when it is the line LinhaDoAluno gives for some listed student. |
| Frequencia.ElegiveisUmPorAluno | frequencia/views.py:172-197 | When the student keys are distinct, as the queryset's are, no student has two lines. |
| Frequencia.OrdenarPorPercentual | frequencia/views.py:200 | The result is sorted by percentage, descending, and is a permutation of its input. |
| Frequencia.DoTreinador | frequencia/views.py:173 | Exactly the trainer's students. |
| Frequencia.PrefixoDoOrdenado | frequencia/views.py:200-201 | A prefix of the sorted lines is sorted and drawn from the lines. No line left out beats a kept one. |
| Frequencia.RankingPropriedades | frequencia/views.py:171-201 | The ranking is sorted descending and holds min(eligible, 5) lines. Each line has realized lessons. No student left out has a higher percentage. |
| Frequencia.RankingFrequencia | frequencia/views.py:171-201 | The loop, the sort and the cut produce exactly the ranking. |
| FrequenciaForms.CleanHorarios | frequencia/forms.py:64-68 | Fails iff both times are given and the end is not after the start. Otherwise the data comes back unchanged. |
| FrequenciaForms.AgendaAulaClean | frequencia/forms.py:59-68 | A lesson is refused iff its end time is equal to or earlier than its start; a missing time is not compared. |
| FrequenciaForms.RegistroPresencaClean | frequencia/forms.py:126-135 | The attendance record follows the identical rule. |
| FrequenciaForms.MesmaRegra | frequencia/forms.py:126-135 | The two forms accept exactly the same pairs of times. |
| FrequenciaFormsNew.AgendaAulaClean | frequencia/forms_new.py:58-69 | The simplified form refuses an end time not after the start and returns the data unchanged otherwise. |
| FrequenciaFormsNew.AlunoChoices | frequencia/forms_new.py:50-56 | The selectable students are exactly the trainer's active students. |
| FrequenciaFormsNew.DesativarRemoveDasChoices | frequencia/forms_new.py:53-56 | Deactivating a student adds no choice and drops the deactivated row. Every other choice stays. |
| Nav.AppName | accounts/templatetags/nav.py:30 | The result is the text before the first colon: a prefix of the name containing no colon. |
| Nav.AppNameDe | accounts/templatetags/nav.py:30 | The app of "app:rest" is "app". |
| Nav.NavActive | accounts/templatetags/nav.py:10-38 | The result is always one of the two class strings. Inactive when reversal fails. Active on the exact path, or under a base other than "/". Active only with one of these justifications. |
| Nav.SecaoAtiva | accounts/templatetags/nav.py:29-32 | In the five sections, any path under "/app/" is active. |
| Nav.RaizSoExata | accounts/templatetags/nav.py:35-36 | Outside the sections, the base "/" matches only the root itself. |

## Left out

- The ORM, querysets, pagination and `select_related`. Tables are sequences, and `get_object_or_404` is a lookup that may fail.
- HTTP, JSON responses, redirects, flash messages, templates, login checks and the non-POST branches of the views.
- The clock: `timezone.now()` and `date.today()` are a `hoje` parameter.
- Primary keys: the next auto-increment key is a parameter.
- Cadastro.Cobranca.CriarContratoFinanceiro: requires a due day ≥ 1. A blank due day reaches `dados_financeiros.get('dia_vencimento', 5)` as None. `replace(day=None)` then fails on the first turn, after the contract is saved, and that failure is not modelled.
- Cadastro.CriarAgendamentosPadrao: the guard that runs it only when weekdays, a start time and the checkbox are all given belongs to `form_valid` and is not modelled.
- Cadastro.Cobranca.CriarContratoFinanceiro: the guard that runs it only when a plan is chosen and the checkbox is ticked belongs to `form_valid` and is not modelled.
- Atomicity across the enrollment steps is not modelled.
- Decimal and float arithmetic: BMI and money are exact `real` and integer cents. The two-decimal storage of the tracking BMI is not modelled.
- Frequencia.RankingFrequencia: sorts by the exact percentage. The source sorts by `round(percentual, 1)`, which can tie two students that the exact values separate.
- Frequencia.OrdenarPorPercentual: the stability of Python's sort is built into the definition but is not stated as a contract.
- Frequencia.DoTreinador: keeps the table's order. The source's queryset comes back ordered by `nome`, and with the stable sort that order breaks percentage ties in the top five. The model breaks ties by the order in which the caller passes the students.
- FinanceiroViews.ListaFaturas: the text search, the list ordering by year, month and due date (descending), and status strings outside the three choices (which select nothing) are not modelled.
- `int()` parse errors of GET parameters are not modelled. The calendar takes month and year already as integers.
- `calendar.monthdayscalendar`, `calendar.month_name` and the dashboards' other parts (today's lessons, next lessons, weekly count) are display data.
- `\d` and `\s` are restricted to ASCII, and Unicode digits and spaces are not modelled.
- Dates beyond year 9999 (`MAXYEAR`) are not modelled, so adding days or months never overflows.
- `financeiro.models` (`Fatura`, `ContratoAluno`, `PlanoMensalidade`) is not part of this model. Its records are the datatypes `Fatura`, `Contrato` and `Plano` of `Cadastro`, with only the fields the enrollment sets.
- `frequencia/models.py` is not part of this model. `AgendaAula.STATUS_CHOICES` is a parameter (`choices`), and the lesson and record rows are the datatypes `Aula` and `Registro`.
- Error message texts are reduced to error constructors.
- `registrar_presenca_rapido` turns every exception into an error response, and a missing lesson gives the same refusal. Other database errors are not modelled.
- The `RegistroPresencaForm` student queryset is not modelled. The simplified form's queryset is modelled by FrequenciaFormsNew.AlunoChoices, without its ordering.
