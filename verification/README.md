# ufpb-wizard in Dafny: the Anexo I → Anexo II pipeline

This project models, in Dafny, the pure core of the UFPB travel-expense wizard.
The wizard reads a filled "Anexo I" request for per-diems and tickets, pre-fills the "Anexo II" trip report, validates both forms and renders them back into office-document templates.

Modules, in the order the program uses them:

- `Wrappers`, `Seqs`, `Text`, `Json`, `Dates`: shared vocabulary.
  - `Option` and `Result`, where `Raised` stands for an uncaught Python exception.
  - Subsequences.
  - Python's and JavaScript's string operations.
  - A JSON-like value tree, with ordered dicts.
  - Proleptic Gregorian dates as day ordinals, with the ISO and Brazilian textual forms.
- `Settings`: the three deadlines of `app/settings.py`: 10, 30 and 5 days.
- `Anexo1Import`: the post-processing of an extracted Anexo I:
  - `normalize_text` and `clean`;
  - `_only_digits` and `_parse_br_datetime`;
  - the funding-source checklist and `_map_orgao`;
  - `build_anexo2_prefill` and `_build_warnings`.
- `Placeholders`: `build_placeholders_anexo1` and `build_placeholders_anexo2`, with their helpers.
- `DocxRender`: token substitution in paragraphs and rows, the expansion of leg rows, and the order of the passes in `render_docx_from_template`.
  - A paragraph is a sequence of run texts.
  - A row is a sequence of cells.
  - A cell is a sequence of paragraphs.
- `Validation`: what the three validators share:
  - leg-list normalisation and the leg errors;
  - reading the trip's ends;
  - the mission checks;
  - the deadline arithmetic;
  - the conditional justifications;
  - the per-leg rows.
- `RequestChecks`: the header, flag and justification blocks that the two Anexo I validators share word for word.
- `ValidateAnexo1`, `ValidateAnexo1Wizard`, `ValidateAnexo2`: the three `validate_and_enrich_*` functions.
- `AssistantSanitize`: the removal of personal data before a payload is sent to the assistant.
- `Anexo2Client`: the pure helpers of the Anexo II page script:
  - `onlyDigits`, `isSiape` and `isCPF`;
  - the two date conversions;
  - `composeLocal`, `normalizeDT` and `normalizeAfastList`.

Modelling conventions:

- A Python dict is an ordered list of members.
- `d.get(k)` is `GetOrNull`, and `x or {}` is `OrEmptyObj`.
- `payload[k]` on a missing key, `.get` on a non-dict and a malformed date all raise.
- A mutation such as `payload["trechos"] = ...` or `flags.setdefault(...)` is modelled as a function that returns the new dict.
- Dates compare by day ordinal, and date-times by `(ordinal, hour, minute, second)`.
- `date + timedelta` outside years 1 to 9999 raises, as Python's `OverflowError` does.

Behaviour of the code that is easy to misread:

- `normalize_text` does not merge a label line with the value on the next line. It only:
  - maps `\r` to `\n`;
  - collapses runs of spaces and tabs, and runs of newlines;
  - strips the ends.
- `clean` keeps an empty dict or list that sits inside a list. List elements are tested before they are cleaned (`Anexo1Import.CleanKeepsEmptyDictInList`).
- Leg-row expansion in the code does not resume after the rows it inserted: it visits the inserted copies again. `DocxRender.Render` uses an expansion that resumes after them. The two agree on every table whose inserted copies hold no sentinel token (`DocxRender.RenderAgreesAsWritten`); see Findings and Left out.
- The Anexo I validators are modelled as written, deadline and weekend flags included.

## Model

| member | source | states |
|---|---|---|
| Anexo1Import.NormalizeText | app/services/anexo1_import.py:16-21 | the result has no `\r` and no tab, no two adjacent spaces, no two adjacent newlines, and no white space at either end; deleting all white space from the result and from the input gives the same text, so only white space is changed |
| Anexo1Import.NormalizeTextIdempotent | app/services/anexo1_import.py:16-21 | normalising twice is normalising once |
| Anexo1Import.NormalizeTextFixed | app/services/anexo1_import.py:16-21 | text that already has the normalised shape is left exactly as it is |
| Anexo1Import.CollapseRunsRunFree | app/services/anexo1_import.py:19-20 | after `re.sub(P+, c)` no two characters of the class are adjacent and only `c` of the class remains |
| Anexo1Import.Clean | app/services/anexo1_import.py:132-143 | no dict at any depth keeps a value that is None, "", {} or []; a list keeps no None or ""; scalars are returned unchanged; dicts stay dicts and lists stay lists |
| Anexo1Import.CleanItems | app/services/anexo1_import.py:141-142 | a list keeps exactly its non-blank elements, in order, each cleaned |
| Anexo1Import.CleanLookup | app/services/anexo1_import.py:133-140 | after cleaning, a key holds its cleaned value, or is gone when that value cleans to empty |
| Anexo1Import.CleanIdempotent | app/services/anexo1_import.py:132-143 | cleaning twice is cleaning once |
| Anexo1Import.CleanKeepsEmptyDictInList | app/services/anexo1_import.py:137-142 | `[{"a": None}]` cleans to `[{}]`, while a dict holding such a dict cleans to `{}` |
| Anexo1Import.OnlyDigits | app/services/anexo1_import.py:218-222 | None exactly when the input is None or has no digit; otherwise every digit of the input, in order: an all-digit subsequence of the input as long as its digit count; all-digit input is kept |
| Anexo1Import.OnlyDigitsIdempotent | app/services/anexo1_import.py:218-222 | stripping non-digits again changes nothing |
| Anexo1Import.ParseBrDatetime | app/services/anexo1_import.py:225-234 | None and "" give None; a result is 16 characters and reads back as an ISO date-time with zero seconds |
| Anexo1Import.ParseBrRoundTrip | app/services/anexo1_import.py:225-234 | every valid date-time written `DD/MM/YYYY HH:MM` comes back as its own `YYYY-MM-DDTHH:MM` |
| Anexo1Import.ParseBrSecondsRoundTrip | app/services/anexo1_import.py:228-231 | with `:SS` the first format applies and the seconds are dropped from the result |
| Anexo1Import.ParseBrRejectsMonthFirst | app/services/anexo1_import.py:228-234 | `12/25/2024 14:30` gives None, never a default |
| Anexo1Import.ParseDebitoRecurso | app/services/anexo1_import.py:34-52 | first match wins in the order CCHSA, CAVN, PROJETO, marked Outros (with or without detail), unmarked Outros with a non-blank detail; None exactly when none applies |
| Anexo1Import.MapOrgao | app/services/anexo1_import.py:237-250 | classified by case-insensitive prefix: each tipo exactly when its prefix (CCHSA, CAVN, PROJETO, OUTROS) starts the upper-cased text; no órgão exactly when none does, and always for absent or empty text; the Outros detail is the stripped text after the first colon, kept only when non-empty |
| Anexo1Import.MapOrgaoCaseInsensitive | app/services/anexo1_import.py:240-247 | upper-casing the text changes neither whether an órgão is found nor its tipo |
| Anexo1Import.MapOrgaoOutrosDetail | app/services/anexo1_import.py:247-249 | `OUTROS: v` gives tipo outros with detail v |
| Anexo1Import.MapOrgaoOutrosBare | app/services/anexo1_import.py:247-249 | a bare `OUTROS` gives tipo outros without detail |
| Anexo1Import.DebitoRoundTrip | app/services/anexo1_import.py:34-52 | the string the checklist writes is classified by `_map_orgao` as the option that was marked |
| Anexo1Import.StripTrailingHashes | app/services/anexo1_import.py:263-265 | the text is cut where `\s*#+\s*$` first matches and then stripped; with no match it is only stripped; the result has no white space at either end and is never longer than the input |
| Anexo1Import.SubHashTail | app/services/anexo1_import.py:265 | `re.sub` removes exactly the text from the leftmost match of `\s*#+\s*$` on, and leaves text without a match alone |
| Anexo1Import.HashTailFacts | app/services/anexo1_import.py:265 | the pattern matches nowhere when the right-stripped text does not end in `#`; otherwise its leftmost match starts at the white space before the final run of `#`, and that start is unique |
| Anexo1Import.BuildPrefill | app/services/anexo1_import.py:253-282 | the prefill is a dict that `clean` has pruned |
| Anexo1Import.PrefillTop | app/services/anexo1_import.py:278-279 | `viagem_realizada` is always "sim"; the activities are present exactly when the stripped text is non-empty |
| Anexo1Import.PrefillProposto | app/services/anexo1_import.py:268-271 | name as read; CPF and SIAPE reduced to their digits, each present only when non-empty |
| Anexo1Import.PrefillLeg | app/services/anexo1_import.py:274-277 | each leg's origin, destination and date-time, each present only when non-empty |
| Anexo1Import.PrefillIdaFallback | app/services/anexo1_import.py:259 | the outbound date-time is the leg's own when it parses, otherwise the mission start |
| Anexo1Import.PrefillRetornoFallback | app/services/anexo1_import.py:260 | the return date-time is the leg's own when it parses, otherwise the mission end |
| Anexo1Import.PrefillOrgao | app/services/anexo1_import.py:261-272 | the órgão is absent when unclassified, otherwise the classification with an absent detail dropped |
| Anexo1Import.BuildWarnings | app/services/anexo1_import.py:285-314 | a result means the prefill was a dict; the warnings are a subsequence of the fixed checklist order |
| Anexo1Import.WarningsOfPrefill | app/services/anexo1_import.py:285-314 | on a prefill built from a document the warnings are exactly one per missing part, in checklist order |
| Anexo1Import.OrgaoWarningIff | app/services/anexo1_import.py:296-300 | the detail warning fires exactly for Projetos or Outros without detail; the missing-órgão warning exactly when nothing was classified |
| Anexo1Import.EmptyPrefillWarnings | app/services/anexo1_import.py:285-314 | an empty prefill gives exactly the eight warnings name, CPF, SIAPE, órgão, outbound, return, dates, activities |
| Placeholders.X | app/services/placeholders.py:29-30 | "X" exactly when the flag is set, "" otherwise |
| Placeholders.NormalizeTrechos | app/services/placeholders.py:22-27 | only dicts, in input order (a subsequence holding every dict); a lone dict becomes a one-element list; anything else gives [] |
| Placeholders.NormalizeTrechosIdempotent | app/services/placeholders.py:22-27 | normalising the normalised list changes nothing |
| Placeholders.FmtDate | app/services/placeholders.py:6-8 | succeeds exactly on an ISO date string and gives 10 characters |
| Placeholders.FmtDateIso | app/services/placeholders.py:6-8 | an ISO date comes out as the same date in `DD/MM/YYYY` form |
| Placeholders.FmtDtOpt | app/services/placeholders.py:14-20 | never raises; an empty or unreadable value gives "", anything else 16 characters |
| Placeholders.FmtDtOptIso | app/services/placeholders.py:10-20 | an ISO minute date-time comes out as the same instant in `DD/MM/YYYY HH:MM` form |
| Placeholders.ColumnsOf | app/services/placeholders.py:120-126 | a column succeeds exactly when every leg's text does; the origin, destination and date-time columns are the newline-joins of each leg's `origem or ""`, `destino or ""` and formatted date-time, in leg order |
| Placeholders.ColumnSplit | app/services/placeholders.py:69-75 | splitting a column at its newlines gives back one entry per leg, in input order, when no entry holds a newline |
| Placeholders.FundingMarksOf | app/services/placeholders.py:80-85 | each box is ticked exactly for its own tipo, so at most one is; the detail line shows the detail under its own tipo and is "" otherwise |
| Placeholders.TransportMarksOf | app/services/placeholders.py:87-90 | each transport box is ticked exactly when its mode is in the set |
| Placeholders.Gated | app/services/placeholders.py:92-93 | a justification is "" whenever its flag is false, whatever the payload holds |
| Placeholders.ItineraryOf | app/services/placeholders.py:69-75 | succeeds exactly when the container is a dict and both directions' columns can be joined; the two directions are the columns of the normalised `ida` and `retorno` legs |
| Placeholders.FundingOf | app/services/placeholders.py:44-45 | succeeds exactly when the holder is a dict with a `tipo` and a strippable detail; the box of that `tipo` is ticked and no other, with the stripped detail on its line |
| Placeholders.TransportOf | app/services/placeholders.py:41 | succeeds exactly when `set(transp.get("meios", []))` does; each box is ticked exactly when its mode is in that set |
| Placeholders.MissionOf | app/services/placeholders.py:77-78 | succeeds exactly when both mission ends are readable date-times; they are shown through `_fmt_dt` |
| Placeholders.BuildAnexo1 | app/services/placeholders.py:32-96 | succeeds exactly when every read succeeds (`Anexo1Readable`: the eight required keys, a readable transport block, funding block, ISO filing date, requester block, itinerary and mission, and a dict `justificativas` under a set flag); success needs every required key; day and ticket boxes follow the request kind; the itinerary is the columns of the normalised `trechos` legs; the funding boxes are those of `debito_recurso["tipo"]` with its stripped detail; the transport boxes are those of `transporte["meios"]`; filing date and mission ends go through `_fmt_date` and `_fmt_dt`; requester block and reason as the payload holds them; each justification read only under its flag and "" otherwise |
| Placeholders.ServerTextOf | app/services/placeholders.py:34-65 | succeeds exactly when `servidor` is a dict with all eleven requester keys, an ISO birth date, and a bank block dict with bank, branch and account; CPF and SIAPE are shown as the payload holds them |
| Placeholders.Anexo1FilingDate | app/services/placeholders.py:48 | a filing date given as an ISO date is shown as the same date in `DD/MM/YYYY` form |
| Placeholders.Anexo1RequestKinds | app/services/placeholders.py:50-51 | `diarias_e_passagens` ticks both boxes; each other kind ticks exactly its own |
| Placeholders.BuildAnexo2 | app/services/placeholders.py:98-135 | succeeds exactly when every read succeeds (`Anexo2Readable`: the five required keys, a `proposto` dict with `orgao`, `nome`, `cpf` and `siape`, a readable órgão block, an ISO report date and a readable itinerary), whatever the flags; success needs every required key; the itinerary is the columns of the normalised `afastamento` legs; the órgão boxes are those of `proposto["orgao"]["tipo"]` with its stripped detail; report date through `_fmt_date`; name, CPF, SIAPE and activities as the payload holds them; the two trip-taken boxes follow `viagem_realizada` and are never both ticked; the late justification is the payload's text under its flag and "" otherwise |
| DocxRender.ApplyMapping | app/services/docx_render.py:16-21 | unchanged text is reported unchanged; the first key's token present in the text makes it report a change |
| DocxRender.ApplyMappingStaged | app/services/docx_render.py:16-21 | the loop's text is the one left after handling every key in order, each replacing its token where present; a change is reported exactly when some key's token occurs in the text as the earlier keys left it |
| DocxRender.NoTokenNoChange | app/services/docx_render.py:16-23 | text holding none of the tokens is left alone and reported unchanged |
| DocxRender.ReplaceInParagraph | app/services/docx_render.py:10-30 | the run count is kept; the runs join to the substituted text; unchanged runs stay as they were; after a change every run but the first is "" |
| DocxRender.SplitPlaceholderReplaced | app/services/docx_render.py:11-12 | a token split across two runs is replaced, and the result goes to the first run |
| DocxRender.ReplaceInRow | app/services/docx_render.py:39-42 | every paragraph of every cell is substituted and the row keeps its shape |
| DocxRender.RowWithoutTokensUnchanged | app/services/docx_render.py:32-42 | a row with none of the tokens comes out unchanged |
| DocxRender.ClonesAt | app/services/docx_render.py:54-70 | copy j is the template row (and data row) as before any substitution, filled with leg j's entry |
| DocxRender.OutboundPairExpanded | app/services/docx_render.py:51-70 | a sentinel row with its data row becomes 2·k rows (k legs), one filled pair per leg in order, and the rows above are untouched |
| DocxRender.OutboundSingleExpanded | app/services/docx_render.py:51-70 | a sentinel row without a data row becomes k rows, one per leg in order |
| DocxRender.OutboundPairBlanked | app/services/docx_render.py:71-74 | with no legs the two rows stay, with the three outbound tokens replaced by "" |
| DocxRender.OutboundCheckedFirst | app/services/docx_render.py:51-77 | a row holding both sentinels is expanded as an outbound row |
| DocxRender.NoSentinelUnchanged | app/services/docx_render.py:47-103 | a table without sentinels is left exactly as it is |
| DocxRender.ExpandAfterPlain | app/services/docx_render.py:103 | rows before the first sentinel pass through unchanged |
| DocxRender.AgreeWithoutClones | app/services/docx_render.py:47-103 | with at most one leg per direction the scan as written ends and agrees with the corrected one |
| DocxRender.AgreeWhenCopiesPlain | app/services/docx_render.py:47-103 | when no substituted copy of a sentinel row or of its data row is a sentinel, the scan as written ends within as many iterations as the expanded table has rows, with the corrected expansion |
| DocxRender.ScanAgrees | app/services/docx_render.py:47-103 | the same, for a whole table scanned from its first row |
| DocxRender.RenderAgreesAsWritten | app/services/docx_render.py:106-126 | under that condition, each table `Render` substitutes is the one the code's scan produces |
| DocxRender.ScanSkipsPlain | app/services/docx_render.py:103 | the scan as written passes rows without a sentinel one by one and leaves them unchanged |
| DocxRender.AsWrittenNeverEnds | app/services/docx_render.py:61-75 | the scan as written, given two legs whose entries keep the sentinel, never finishes a one-row table |
| DocxRender.CorrectedEnds | app/services/docx_render.py:44-103 | the corrected scan finishes that same table with one row per leg |
| DocxRender.Render | app/services/docx_render.py:106-126 | paragraphs are substituted in place; with leg lists, tables are expanded and then substituted; without them, only substituted |
| DocxRender.RenderExpandsBeforeSubstituting | app/services/docx_render.py:114-126 | each leg row shows its own origin although the document mapping holds all origins joined |
| Validation.FindLegWithoutDate | app/services/validate_anexo2.py:44-51 | the loop with `break` reports exactly when some leg lacks a date-time |
| Validation.LegListErrors | app/services/validate_anexo1.py:52-63 | one error per empty direction and at most one missing-date error per direction, each exactly when its condition holds; none twice |
| Validation.EndsOf | app/services/validate_anexo1.py:67-71 | the first outbound and last return leg are read; the block fails exactly when one of them does not parse |
| Validation.OrderErrors | app/services/validate_anexo1.py:72-73 | an ordering error exactly when both ends exist and the return is before the outbound |
| Validation.EndsErrors | app/services/validate_anexo1.py:66-76 | a failed read gives its own single error; otherwise the ordering check |
| Validation.ReadLegs | app/services/validate_anexo2.py:35-38 | both lists are normalised and stored back under the key as `{"ida": [...], "retorno": [...]}`; no other key changes |
| Validation.ReadLegsErrors | app/services/validate_anexo2.py:40-59 | each of the six leg errors is present exactly when its condition holds |
| Validation.ReadLegsDistinct | app/services/validate_anexo2.py:40-59 | no leg error is reported twice; all sit under the key or its `.ida`/`.retorno` |
| Validation.CleanLegs | app/services/validate_anexo1.py:52-76 | a legs block without errors read legs in both directions, a date on each leg, and a return not before the outbound |
| Validation.CleanTripNoErrors | app/services/validate_anexo1.py:52-76 | conversely, a clean trip gives a legs block without errors whose ends are the first departure and the last arrival |
| Validation.MissionErrors | app/services/validate_anexo1.py:78-89 | an unreadable mission gives its one error; otherwise each of the three ordering errors exactly when its comparison holds; at most three, none twice |
| Validation.CleanMission | app/services/validate_anexo1.py:78-89 | a mission block without errors saw start ≤ end, the start not before departure, and the end not after the return |
| Validation.MissionInsideNoErrors | app/services/validate_anexo1.py:78-89 | conversely, a mission inside the trip raises no mission error |
| Validation.ShiftDays | app/services/validate_anexo1.py:97 | adding days succeeds exactly inside the calendar and adds to the ordinal |
| Validation.PastLimit | app/services/validate_anexo1.py:95-98 | succeeds exactly for a readable date and a limit inside the calendar; true exactly when the date is more than the offset past the base |
| Validation.Prazo | app/services/validate_anexo1.py:96 | 30 days with air tickets, 10 without |
| Validation.JustificationErrors | app/services/validate_anexo1.py:110-115 | no error without the flag; with it, one error exactly when the text is blank after stripping; a non-dict container raises only when read |
| Validation.BlankJustificationMissing | app/services/validate_anexo2.py:71-73 | a justification of white space only counts as missing |
| Validation.RowsOf | app/services/validate_anexo1.py:120-135 | one row per leg in order: origin and destination kept when truthy and "" for every falsy value (None, 0, false, empty text or container), and the formatted date-time |
| RequestChecks.HeaderErrors | app/services/validate_anexo1.py:38-44 | the kind error exactly for an unknown kind, the date error exactly for a missing filing date; at most two, none twice |
| RequestChecks.RequestFlags | app/services/validate_anexo1.py:92-107 | late = filed past outbound day − prazo when both are known, else the caller's value or false; the weekend flag is only a default; other flags are unchanged; succeeds exactly when `flags` is empty or a dict and, when the deadline is computed, the filing date reads and the limit is a calendar day |
| RequestChecks.JustificationsErrors | app/services/validate_anexo1.py:109-115 | succeeds exactly when both justification checks succeed; at most two errors; none when neither flag is set |
| RequestChecks.JustificationsMeaning | app/services/validate_anexo1.py:109-115 | each justification error is present exactly when its flag is set and its text blank; none twice |
| RequestChecks.JustifiedIff | app/services/validate_anexo1.py:109-115 | the justification checks pass without raising and without errors exactly when each set flag has a justification that is text and not blank |
| ValidateAnexo1.Check | app/services/validate_anexo1.py:34-115 | raises exactly when `trechos` is neither falsy nor a dict, the flag block raises, or a justification check raises |
| ValidateAnexo1.Validate | app/services/validate_anexo1.py:117-138 | raises exactly when the checks raise or, for a request without errors, the placeholder builder raises; rejected exactly when there are errors, with those errors and the flags; accepted results carry the flags, the placeholders built from the rewritten payload, and for each direction the rows of its legs in order (`RowsOf`: origin, destination, formatted date-time) |
| ValidateAnexo1.CheckParts | app/services/validate_anexo1.py:34-115 | the errors are header, legs, mission and justification errors, in that order |
| ValidateAnexo1.ErrorsDistinct | app/services/validate_anexo1.py:34-115 | no error is reported twice |
| ValidateAnexo1.CleanCheck | app/services/validate_anexo1.py:34-89 | no errors means a known kind, a filing date, a clean trip and a mission inside it |
| ValidateAnexo1.CleanPasses | app/services/validate_anexo1.py:34-138 | conversely, a clean request whose flag block reads and whose set flags are justified has no errors, and is accepted exactly when the placeholders can be built |
| ValidateAnexo1.AcceptedMeans | app/services/validate_anexo1.py:109-138 | an accepted request is clean, has one row per leg, and each set flag comes with a non-blank justification |
| ValidateAnexo1.LateFlagRule | app/services/validate_anexo1.py:94-98 | late exactly when filed fewer days before the outbound day than the deadline for its kind |
| ValidateAnexo1Wizard.TripEnds | ufpb-diarias-wizard/app/services/validate_anexo1.py:32-39 | the block fails exactly when either single-leg date-time cannot be read |
| ValidateAnexo1Wizard.Check | ufpb-diarias-wizard/app/services/validate_anexo1.py:19-79 | raises exactly when the flag block raises or a justification check raises |
| ValidateAnexo1Wizard.Validate | ufpb-diarias-wizard/app/services/validate_anexo1.py:80-84 | raises exactly when the checks raise or, for a request without errors, the placeholder builder raises; rejected exactly when there are errors; the accepted outcome has the flags and the builder's placeholders for the payload and those flags |
| ValidateAnexo1Wizard.ErrorsDistinct | ufpb-diarias-wizard/app/services/validate_anexo1.py:21-78 | no error is reported twice |
| ValidateAnexo1Wizard.CleanCheck | ufpb-diarias-wizard/app/services/validate_anexo1.py:21-52 | no errors means a known kind, a filing date, ends in order and a mission inside them |
| ValidateAnexo1Wizard.CleanPasses | ufpb-diarias-wizard/app/services/validate_anexo1.py:19-84 | conversely, a clean request whose flag block reads and whose set flags are justified has no errors, and is accepted exactly when the builder succeeds |
| ValidateAnexo1Wizard.AcceptedMeans | ufpb-diarias-wizard/app/services/validate_anexo1.py:72-84 | an accepted request is clean and each set flag has a non-blank justification |
| ValidateAnexo1Wizard.LateFlagRule | ufpb-diarias-wizard/app/services/validate_anexo1.py:57-61 | the same 30/10-day rule as the application's validator |
| ValidateAnexo2.CheckLegs | app/services/validate_anexo2.py:34-59 | an unreadable `afastamento` gives only the block's error; otherwise the shared legs block |
| ValidateAnexo2.LegsErrors | app/services/validate_anexo2.py:40-58 | each leg error is present exactly when its condition holds |
| ValidateAnexo2.ReportFlags | app/services/validate_anexo2.py:61-69 | with a return and a report date, late = report day past return day + 5; otherwise the caller's value or false; other flags unchanged; succeeds exactly when `flags` is empty or a dict and, when the flag is recomputed, the report date reads and the limit is a calendar day |
| ValidateAnexo2.Check | app/services/validate_anexo2.py:30-74 | raises exactly when the flag block raises or, under a set late flag, the justification is a truthy value that is not text |
| ValidateAnexo2.Validate | app/services/validate_anexo2.py:75-96 | raises exactly when the checks raise or, for a report without errors, the placeholder builder raises; rejected exactly when there are errors; accepted results carry the flags, the placeholders built from the rewritten payload, and for each direction the rows of its legs in order (`RowsOf`: origin, destination, formatted date-time) |
| ValidateAnexo2.ErrorsMeaning | app/services/validate_anexo2.py:40-73 | errors outside the justification field are the leg errors; the justification error is present exactly when the flag is set and the text blank; none twice |
| ValidateAnexo2.AcceptedMeans | app/services/validate_anexo2.py:34-96 | an accepted report had a clean trip, has one row per leg, and a set late flag comes with a non-blank justification |
| ValidateAnexo2.CleanPasses | app/services/validate_anexo2.py:30-96 | conversely, a readable clean trip whose flag block reads and whose late flag, when set, has a non-blank justification has no errors, and is accepted exactly when the placeholders can be built |
| ValidateAnexo2.AcceptedLegsAreLists | app/services/validate_anexo2.py:35-38 | after validation `afastamento` holds exactly the two normalised lists of dicts |
| ValidateAnexo2.LateFlagRule | app/services/validate_anexo2.py:64-67 | late exactly when the report day is more than five days after the return day |
| AssistantSanitize.RemoveKeys | app/services/assistant_sanitize.py:12-22 | dicts stay dicts, lists keep their length, scalars are returned unchanged |
| AssistantSanitize.RemoveKeysClean | app/services/assistant_sanitize.py:6-19 | no sensitive key remains at any depth |
| AssistantSanitize.RemoveKeysLookup | app/services/assistant_sanitize.py:14-19 | a sensitive key is gone; any other key holds its value sanitised |
| AssistantSanitize.RemoveKeysOrder | app/services/assistant_sanitize.py:14-19 | the kept keys are the non-sensitive keys in their original order |
| AssistantSanitize.ListItems | app/services/assistant_sanitize.py:20-21 | list element i is element i sanitised |
| AssistantSanitize.FixedIffClean | app/services/assistant_sanitize.py:12-22 | sanitising changes nothing exactly when no sensitive key occurs |
| AssistantSanitize.Idempotent | app/services/assistant_sanitize.py:24-26 | sanitising twice is sanitising once |
| AssistantSanitize.SanitizePayload | app/services/assistant_sanitize.py:24-26 | no sensitive key at any depth; sensitive top-level keys are gone and the others hold sanitised values |
| Anexo2Client.OnlyDigits | app/static/anexo2.js:964 | null gives ""; the result is every digit of the input, in order: an all-digit subsequence of the input as long as its digit count; all-digit input is kept |
| Anexo2Client.IsSiape | app/static/anexo2.js:971 | true exactly for 4 to 15 characters, all digits |
| Anexo2Client.IsCPF | app/static/anexo2.js:1087-1095 | true only for exactly 11 digits that are not all one digit and not on the list |
| Anexo2Client.IsCPFStandard | app/static/anexo2.js:1097-1105 | valid exactly when both check digits agree with the Receita Federal definition (11 − sum mod 11, 0 for remainders 0 and 1) |
| Anexo2Client.CheckDigitStandard | app/static/anexo2.js:1099-1104 | `(sum·10) % 11` with 10 read as 0 equals the Receita Federal check digit for every sum |
| Anexo2Client.IsCPFLoop | app/static/anexo2.js:1087-1105 | the two weighted-sum loops compute the same verdict as the definition |
| Anexo2Client.ListedRest | app/static/anexo2.js:1091-1095 | past the first two entries the list repeats a digit, so for other numbers only those two matter |
| Anexo2Client.ValidPlainCPF | app/static/anexo2.js:1087-1105 | 52998224725 is accepted |
| Anexo2Client.DigitsOnlyMatter | app/static/anexo2.js:1088 | the verdict depends only on the digits of the text |
| Anexo2Client.SeparatorIgnored | app/static/anexo2.js:1087-1088 | non-digits between the digits change nothing |
| Anexo2Client.ValidFormattedCPF | app/static/anexo2.js:1087-1105 | any text whose digits are 52998224725, such as the dotted form, is accepted |
| Anexo2Client.ListedButWellFormed | app/static/anexo2.js:1091-1095 | 12345678909 has correct check digits yet is rejected by the list |
| Anexo2Client.RepeatedRejected | app/static/anexo2.js:1090 | eleven copies of one digit are rejected |
| Anexo2Client.FormatDateBR | app/static/anexo2.js:974-979 | null and "" give ""; non-ISO text is returned unchanged; an ISO prefix `YYYY-MM-DD` gives `DD/MM/YYYY`, 10 characters with "/" at positions 2 and 5 |
| Anexo2Client.ParseDateBRToISO | app/static/anexo2.js:987-999 | after trimming: an in-range `DD/MM/YYYY` gives `YYYY-MM-DD`; an out-of-range one gives ""; otherwise an ISO prefix passes through cut to 10 characters; null and text of neither shape give "" |
| Anexo2Client.ParseBr | app/static/anexo2.js:987-995 | an exact in-range `DD/MM/YYYY` becomes `YYYY-MM-DD` |
| Anexo2Client.BrRoundTrip | app/static/anexo2.js:974-999 | showing the parsed value of an in-range `DD/MM/YYYY` gives back what was typed |
| Anexo2Client.IsoRoundTrip | app/static/anexo2.js:974-999 | parsing the shown form of an in-range ISO date gives it back |
| Anexo2Client.FormatMatchesServer | app/static/anexo2.js:974-979 | the page shows an ISO date in the same Brazilian form the server prints |
| Anexo2Client.NormalizeDT | app/static/anexo2.js:661-664 | null stays null; 16-character text (a date-time to the minute) gets `":00"` appended; any other text is returned as it is |
| Anexo2Client.NormalizeDTIdempotent | app/static/anexo2.js:661-664 | padding twice is padding once |
| Anexo2Client.NormalizeDTSameInstant | app/static/anexo2.js:661-664 | the padded value is read by the server as the instant the minute field held |
| Anexo2Client.ComposeLocal | app/static/anexo2.js:1013-1018 | a blank state gives the trimmed city; otherwise the city, "/" and the upper-cased state |
| Anexo2Client.ComposeLocalSplits | app/static/anexo2.js:1013-1018 | splitting a composed place at its last "/" gives back the trimmed city and upper-cased state |
| Anexo2Client.NormalizeAfastList | app/static/anexo2.js:215-219 | a lone object becomes a one-element list; a list gives the subsequence of it holding every one of its objects (dicts and lists), as many as it has; anything else gives [] |
| Anexo2Client.AgreesWithServer | app/static/anexo2.js:215-219 | on input without nested lists the page and the server normalise alike |
| Anexo2Client.NestedListDiffers | app/static/anexo2.js:217 | a nested list is kept by the page but dropped by the server |

## Left out

- Text extraction and file conversion (`_extract_text*`, `_convert_doc_to_docx`, `pdf_convert.py`). These use foreign libraries and subprocesses.
- The regular-expression extractors (`find_one`, `find_block`, `parse_destino`, `parse_identificacao`, `parse_missao`, `parse_motivo_viagem`). A parsed document is a record of optional strings (`Anexo1Import.ParsedDocument`).
- Anexo1Import.ParseDebitoRecurso: the marker regexes are abstracted as the booleans and captures they yield (`DebitoMarkers`), so accent and case tolerance of the patterns is not modelled.
- The python-docx object tree, run formatting, nested tables, XML `addnext` and saving. Documents are sequences of paragraphs and tables of rows.
- HTTP routes, draft persistence, the assistant router, the LLM client and the prompt templates. These are I/O or constant text.
- `theme.js`, the DOM-bound parts of `anexo2.js` and `validatePayloadAnexo2`. These depend on the DOM, the JavaScript `Date` and the time zone.
- ValidateAnexo1Wizard.Validate: the wizard's own `build_placeholders_anexo1` is not part of this model, so the validator takes it as the parameter `build`. Which placeholders it builds, and when it raises (the application's version, `Placeholders.BuildAnexo1`, raises on a missing `servidor`, `missao` or `debito_recurso`), are whatever that parameter says; the model only promises that they are passed through, exceptions included.
- Dates.ParseIsoDateTime: reads `YYYY-MM-DD`, optionally followed by `THH:MM[:SS]` with any separator. Fractions of seconds, time-zone offsets and the other `fromisoformat` forms count as unreadable.
- Date-times are naive. An aware-versus-naive comparison, which raises in Python, is not modelled.
- Placeholders.Display: `str()` of a list, a dict or a float is not modelled. Those give "".
- Text.Upper: only ASCII letters change case. Python's and JavaScript's full Unicode case mapping is not modelled.
- Text.IsDigit: only ASCII digits count. Python's `\d` also matches other Unicode decimal digits.
- The aliasing between `flags` and `payload["flags"]`: Python mutates the caller's dict in place, and the model returns the new flags.
- `deepcopy` in `sanitize_payload`: values are immutable here, so "the input is not mutated" holds trivially and is not stated.
- DocxRender.Render: uses the corrected expansion. Where an inserted copy still holds a sentinel token, the code expands that copy again. That happens when a leg entry leaves the sentinel in place, or when a row holds both sentinels. The code then writes more rows than `Render`, or never ends. The model agrees with the code only under `CopiesPlain` (`DocxRender.RenderAgreesAsWritten`).
- DocxRender.ScanAsWritten: a `fuel` bound stands in for the unbounded `while` loop. A `None` result means "not finished within fuel steps".

## Findings

| source | as written | input that shows it | evidently intended | confidence | as-written member | corrected member |
|---|---|---|---|---|---|---|
| app/services/docx_render.py:61-75 | after expanding a sentinel row the scan advances by one or two rows only, so it next visits the copies it just inserted, which still hold the sentinel whenever an entry lacks the origin key | a one-row table holding `{{ida_origem}}` and `rows = {"ida": [{}, {}]}` | resume the scan after the inserted copies, so each sentinel row is expanded once | not executed | DocxRender.AsWrittenNeverEnds | DocxRender.CorrectedEnds |
