# SINAN violence-notification pipeline, modelled in Dafny

SINAN-BIG-DATA-PYTHON reads SINAN notifications of violence against
children and adolescents. SINAN is Brazil's notifiable-diseases information
system. The data arrives as coded records. The project decodes them,
keeps the cases of interest (ages 0 to 17, with some violence flag set)
and derives labelled analytic columns. These are the age band, violence
type, state and municipality names, victim and aggressor sex, the
relationship to the aggressor, the reporting delay in days and the referrals
to the justice system. A dashboard, a DuckDB query layer and a few
maintenance scripts sit around this.

This project models that record-derivation core. It models each copy of a rule
as its own file writes it, without unifying the copies. Each is proved
against a specification of what it should compute. Where the code is
wrong (see "## Findings"), the operations follow the code as written. The
corrected definition has its own name beside them, and lemmas state where
the two differ and where they coincide.

A table is a `Frames.Frame`: a list of column names and a list of rows.
Each row maps column names to cells. A cell is missing, a text, an integer
or a timestamp. A missing key reads as a missing cell. Loops that fill a
column or a list become methods with loop invariants. Each method is proved
equal to the function that specifies it. The properties the code promises
are lemmas about those functions.

Modules, one per source file plus two shared ones:

- `Text`: models the string operations the code uses: `strip`, `upper`,
  `lower`, `title`, `split`, `join`, `replace`, substring tests, decimal
  digits and zero padding.
- `Frames`: models the table operations: column selection, row filtering
  as an ordered subsequence, one column recomputed from each row, and
  `Derives`, which says which columns a step may change.
- `ComprehensiveDicts`: `load_dictionaries` and `apply_dictionaries` of
  `src/processors/sinan_data_processor_comprehensive.py`. This covers
  the code tables, the generated age codes `4000`..`4017` and the
  column-by-column decoding.
- `ComprehensiveFilter`: covers `filter_comprehensive_violence`,
  `create_faixa_etaria` and `map_idade_to_faixa`.
- `ComprehensiveDerived`: covers `create_derived_columns` of the processor
  with its inner helpers.
- `DashboardDerived`: covers `create_derived_columns` of
  `src/dashboard_sinan_real_data.py` with its inner helpers.
- `DashboardFilters`: models, from the dashboard:
  - the checks on preprocessed data and its violence step;
  - the fallback age codes;
  - the sidebar filters;
  - the relationship counting.
- `Preprocess`: models the derivation steps of `scripts/preprocess_data.py`
  and its early exits.
- `DuckdbProcessor`: covers `query_with_filters`,
  `load_filtered_violence_data` and `aggregate_by_filters`, all as query
  text. The final violence filter is modelled on tables.
- `DuckdbAdapter`: covers the column-priority lookups of
  `get_available_years` and `get_available_ufs`, and the query that
  `get_filtered_data` assembles.
- `MunicLoader`: covers the `.cnv` line parser and the dictionary loop of
  `load_municipality_dict`.
- `ManageDb`: covers the 50 MiB chunked split of the database file and its
  join, including the round trip.
- `StatusCasos`: covers the current and the suggested EVOLUCAO status
  classifiers of `scripts/analise_status_casos.py`.

The copies of the same rule differ, and the model keeps each as written:

- The processor's SEXO default is 'Ignorado'. The dashboard's is
  'Não informado'.
- Only the processor's violence test accepts lower-case 'sim'.
- Only the processor's `get_rel` drops a relationship already listed.
- The processor converts only date columns that are not yet timestamps.
  The dashboard re-parses every value from its text, timestamps included.
- The preprocessing run bands ages with its own `get_age_group`, not with
  the processor's `map_idade_to_faixa`.
- The age-code lists differ:
  - the DuckDB processor writes five-character codes for ages 10 to 17;
  - the dashboard fallback and the adapter write the four-digit codes.

## Model

| member | source | states |
|---|---|---|
| ComprehensiveDicts.BuildAgeMapping | src/processors/sinan_data_processor_comprehensive.py:68-76 | the age loop builds exactly the age dictionary: 18 entries, the code of each age 0..17 mapped to its label |
| ComprehensiveDicts.AgeCodesInjective | src/processors/sinan_data_processor_comprehensive.py:70-76 | the number after '40' in a generated code gives back its age, so distinct ages get distinct codes |
| ComprehensiveDicts.AgeCodeCount | src/processors/sinan_data_processor_comprehensive.py:70-76 | the codes of n distinct ages are n distinct strings |
| ComprehensiveDicts.AgeDictionaryShape | src/processors/sinan_data_processor_comprehensive.py:69-77 | the keys of the age dictionary are exactly '4000'..'4017', each with its label; it has 18 entries |
| ComprehensiveDicts.AgeLabelsAreChildAges | src/processors/sinan_data_processor_comprehensive.py:182-186 | the labels the age dictionary decodes to are, in age order, exactly the filter's list of child ages |
| ComprehensiveDicts.AgeDictionaryLabelsAreNotCodes | src/processors/sinan_data_processor_comprehensive.py:69-76 | no age label is an age code |
| ComprehensiveDicts.YesNoShortLabelsAreNotCodes | src/processors/sinan_data_processor_comprehensive.py:37-40 | no label of the VIOL_* yes/no map is one of its codes |
| ComprehensiveDicts.YesNoLabelsAreNotCodes | src/processors/sinan_data_processor_comprehensive.py:62-66 | no label of the REL_TRAB/REDE_* yes/no map is one of its codes |
| ComprehensiveDicts.CsSexoLabelsAreNotCodes | src/processors/sinan_data_processor_comprehensive.py:41 | no CS_SEXO label is a CS_SEXO code |
| ComprehensiveDicts.AutorSexoLabelsAreNotCodes | src/processors/sinan_data_processor_comprehensive.py:42 | no AUTOR_SEXO label is an AUTOR_SEXO code |
| ComprehensiveDicts.AutorAlcoLabelsAreNotCodes | src/processors/sinan_data_processor_comprehensive.py:43 | no AUTOR_ALCO label is an AUTOR_ALCO code |
| ComprehensiveDicts.LocalOcorLabelsAreNotCodes | src/processors/sinan_data_processor_comprehensive.py:44-48 | no LOCAL_OCOR label is a LOCAL_OCOR code |
| ComprehensiveDicts.CsEscolNLabelsAreNotCodes | src/processors/sinan_data_processor_comprehensive.py:49-55 | no CS_ESCOL_N label is a CS_ESCOL_N code |
| ComprehensiveDicts.CsRacaLabelsAreNotCodes | src/processors/sinan_data_processor_comprehensive.py:56-58 | no CS_RACA label is a CS_RACA code |
| ComprehensiveDicts.SitConjugLabelsAreNotCodes | src/processors/sinan_data_processor_comprehensive.py:59-61 | no SIT_CONJUG label is a SIT_CONJUG code |
| ComprehensiveDicts.RelCatLabelsAreNotCodes | src/processors/sinan_data_processor_comprehensive.py:63 | no REL_CAT label is a REL_CAT code |
| ComprehensiveDicts.LoadedLabelsAreNotCodes | src/processors/sinan_data_processor_comprehensive.py:36-77 | in every dictionary load_dictionaries installs, no label is itself a key |
| ComprehensiveDicts.DecodeCell | src/processors/sinan_data_processor_comprehensive.py:148-150 | a decoded cell is text: its dictionary label when str(v) is a key, str(v) itself otherwise |
| ComprehensiveDicts.DecodeCellIdempotent | src/processors/sinan_data_processor_comprehensive.py:148-150 | when no label is a key, decoding a decoded cell changes nothing |
| ComprehensiveDicts.RelColumns | src/processors/sinan_data_processor_comprehensive.py:153 | the relationship flags are exactly the REL_* columns other than REL_TRAB and REL_CAT, in column order |
| ComprehensiveDicts.FirstFive | src/processors/sinan_data_processor_comprehensive.py:155 | xs[:5] is a prefix of at most five names |
| ComprehensiveDicts.RelPlan | src/processors/sinan_data_processor_comprehensive.py:154-158 | the second loop applies the yes/no map to each of the given columns, in order |
| ComprehensiveDicts.MappedColumnsAreNotFlags | src/processors/sinan_data_processor_comprehensive.py:122-153 | none of the mapped columns is a relationship flag, so the two loops touch disjoint columns |
| ComprehensiveDicts.MappedColumnsDistinct | src/processors/sinan_data_processor_comprehensive.py:122-140 | the mapping table names each column once |
| ComprehensiveDicts.ApplyPlanCells | src/processors/sinan_data_processor_comprehensive.py:143-158 | running decoding steps that name each column once keeps the columns and rows and decodes exactly the named columns, each through its own dictionary |
| ComprehensiveDicts.ApplyPlanAppend | src/processors/sinan_data_processor_comprehensive.py:143-158 | running the first loop's steps and then the second's is running their concatenation |
| ComprehensiveDicts.MappingPlanTable | src/processors/sinan_data_processor_comprehensive.py:143-150 | the first loop decodes a column exactly when it is in the mapping table and has a dictionary, with that dictionary |
| ComprehensiveDicts.FullPlanTable | src/processors/sinan_data_processor_comprehensive.py:143-158 | each column is decoded by its dictionary, or by the yes/no map when it is among the first five relationship flags, or not at all |
| ComprehensiveDicts.FullPlanShape | src/processors/sinan_data_processor_comprehensive.py:107-161 | apply_dictionaries is the two loops run one after the other |
| ComprehensiveDicts.DecodeFrameCells | src/processors/sinan_data_processor_comprehensive.py:107-161 | apply_dictionaries keeps columns and rows; each mapped column with a dictionary becomes dict[str(v)] or str(v), the first five relationship flags their yes/no label, every other cell is unchanged |
| ComprehensiveDicts.DecodeFrameIdempotent | src/processors/sinan_data_processor_comprehensive.py:107-161 | with dictionaries whose labels are never keys, applying the decoding twice equals applying it once |
| ComprehensiveDicts.LoadedDecodeIdempotent | src/processors/sinan_data_processor_comprehensive.py:29-161 | apply_dictionaries with the loaded dictionaries is idempotent |
| ComprehensiveDicts.Processor.constructor | src/processors/sinan_data_processor_comprehensive.py:24 | a new processor has no dictionaries |
| ComprehensiveDicts.Processor.LoadDictionaries | src/processors/sinan_data_processor_comprehensive.py:29-78 | after loading, the processor holds the fifteen literal dictionaries and the generated age dictionary |
| ComprehensiveDicts.Processor.ApplyDictionaries | src/processors/sinan_data_processor_comprehensive.py:107-161 | the result is the decoding of the input by the processor's dictionaries |
| ComprehensiveFilter.ViolentIn | src/processors/sinan_data_processor_comprehensive.py:209-225 | the combined row test holds exactly when some available VIOL_* column of the row is affirmative |
| ComprehensiveFilter.ViolenceMask | src/processors/sinan_data_processor_comprehensive.py:211-218 | one column's mask has a flag per row, set exactly when str(v) is one of '1', 'Sim', 'SIM', 'S', 'sim', '1.0' or v is the number 1 |
| ComprehensiveFilter.AnyViolentSnoc | src/processors/sinan_data_processor_comprehensive.py:223-225 | or-ing one more column's mask adds exactly that column's test |
| ComprehensiveFilter.ViolenceConditions | src/processors/sinan_data_processor_comprehensive.py:209-220 | the loop builds one mask per available column, in order |
| ComprehensiveFilter.CombineConditions | src/processors/sinan_data_processor_comprehensive.py:223-225 | the or-ed mask marks a row exactly when some available column is affirmative in it |
| ComprehensiveFilter.KeepViolentRows | src/processors/sinan_data_processor_comprehensive.py:199-246 | selecting by the combined mask is the violence stage, and the input is kept whole without VIOL_* columns |
| ComprehensiveFilter.FilterComprehensiveViolence | src/processors/sinan_data_processor_comprehensive.py:163-255 | the method returns the age stage followed by the violence stage, and the reported share is kept/original times 100, absent for an empty input |
| ComprehensiveFilter.FilterIsSubsequence | src/processors/sinan_data_processor_comprehensive.py:176-246 | the filter keeps the columns and returns a subsequence of the rows, in their order |
| ComprehensiveFilter.FilterKeeps | src/processors/sinan_data_processor_comprehensive.py:176-246 | a row is kept exactly when it passes the age whitelist (unless skipped or NU_IDADE_N is absent) and some present VIOL_* column is affirmative (unless none is present) |
| ComprehensiveFilter.NoViolenceColumnsPassThrough | src/processors/sinan_data_processor_comprehensive.py:243-246 | without VIOL_* columns the violence stage returns its input unchanged |
| ComprehensiveFilter.PercentageBounds | src/processors/sinan_data_processor_comprehensive.py:248-253 | a share is computed exactly for a non-empty input, and then lies in [0, 100] |
| ComprehensiveFilter.FilterPercentage | src/processors/sinan_data_processor_comprehensive.py:248-253 | the share of a filter run never exceeds 100 |
| ComprehensiveFilter.FirstAgeNumber | src/processors/sinan_data_processor_comprehensive.py:285-292 | the search result is the first i in the band whose f'{i:02d} anos' or f'{i} anos' opens the text, or none when no i does |
| ComprehensiveFilter.FindAgeNumber | src/processors/sinan_data_processor_comprehensive.py:285-289 | the for/break loop finds that first number |
| ComprehensiveFilter.MapIdadeToFaixa | src/processors/sinan_data_processor_comprehensive.py:271-336 | map_idade_to_faixa with its search loops gives the band the if-chain defines |
| ComprehensiveFilter.BandOfFound | src/processors/sinan_data_processor_comprehensive.py:285-295 | when some number of the band opens the text, the branch returns the band |
| ComprehensiveFilter.OpensWithOwnAge | src/processors/sinan_data_processor_comprehensive.py:287 | a label written as the padded or plain age followed by ' anos' opens with that age |
| ComprehensiveFilter.TwoToFiveFound | src/processors/sinan_data_processor_comprehensive.py:283-295 | every listed 2-5 label reaches '2-5 anos' |
| ComprehensiveFilter.SixToNineFound | src/processors/sinan_data_processor_comprehensive.py:296-308 | every listed 6-9 label reaches '6-9 anos' |
| ComprehensiveFilter.TenToThirteenFound | src/processors/sinan_data_processor_comprehensive.py:309-321 | every listed 10-13 label reaches '10-13 anos' |
| ComprehensiveFilter.FourteenToSeventeenFound | src/processors/sinan_data_processor_comprehensive.py:322-334 | every listed 14-17 label reaches '14-17 anos' |
| ComprehensiveFilter.AgeBandIsListed | src/processors/sinan_data_processor_comprehensive.py:271-336 | missing and empty values are not informed; every other value gets the band of its stripped text in the label lists, so the search loops never change the outcome |
| ComprehensiveFilter.ListedBandOfChildAge | src/processors/sinan_data_processor_comprehensive.py:279-334 | the label of each age 0..17 is banded into the band of that age |
| ComprehensiveFilter.AgeBandOfDecodedAge | src/processors/sinan_data_processor_comprehensive.py:271-336 | decoding an age code and banding the label gives the band of the age itself |
| ComprehensiveFilter.AgeBandOfStripped | src/processors/sinan_data_processor_comprehensive.py:273-277 | a non-empty text without surrounding whitespace is banded by the label lists alone |
| ComprehensiveFilter.AgeBandRange | src/processors/sinan_data_processor_comprehensive.py:271-336 | every value gets one of the five bands or 'Não informado' |
| ComprehensiveFilter.FaixaEtariaColumn | src/processors/sinan_data_processor_comprehensive.py:267-339 | without NU_IDADE_N the table is returned unchanged; otherwise FAIXA_ETARIA of each row is the band of its NU_IDADE_N and nothing else changes |
| ComprehensiveFilter.CreateFaixaEtaria | src/processors/sinan_data_processor_comprehensive.py:257-344 | applying the helper row by row gives that column |
| ComprehensiveFilter.FaixaEtariaBands | src/processors/sinan_data_processor_comprehensive.py:271-339 | each new FAIXA_ETARIA of a row is 'Não informado' for a missing or empty age, and otherwise the listed band of the stripped text |
| ComprehensiveDerived.ToDatetime | src/processors/sinan_data_processor_comprehensive.py:546-547 | a timestamp is kept, a missing value stays missing, and every result is a timestamp or missing |
| ComprehensiveDerived.ToDatetimeIdempotent | src/processors/sinan_data_processor_comprehensive.py:546-547 | converting a converted column again changes nothing, so skipping an already datetime column is sound |
| ComprehensiveDerived.ParseInteger | src/processors/sinan_data_processor_comprehensive.py:550 | a digit string is read as its decimal value |
| ComprehensiveDerived.ToNumeric | src/processors/sinan_data_processor_comprehensive.py:550 | the coerced value is a number or missing |
| ComprehensiveDerived.ToNumericOfDecimal | src/processors/sinan_data_processor_comprehensive.py:550 | to_numeric reads back every integer written in decimal |
| ComprehensiveDerived.DateStageYear | src/processors/sinan_data_processor_comprehensive.py:544-548 | with DT_NOTIFIC, the new DT_NOTIFIC is the parsed date and ANO_NOTIFIC its year, or missing when the date is missing |
| ComprehensiveDerived.UfCodesAreKeys | src/processors/sinan_data_processor_comprehensive.py:559-567 | the codes of uf_dict are exactly the 27 listed codes |
| ComprehensiveDerived.UfCodesAreTwoDigits | src/processors/sinan_data_processor_comprehensive.py:559-567 | every state code has two digits and opens with 1 to 5 |
| ComprehensiveDerived.UfCodesAreCanonical | src/processors/sinan_data_processor_comprehensive.py:559-567 | every state code is two digits without a leading zero |
| ComprehensiveDerived.IntegerPartDigits | src/processors/sinan_data_processor_comprehensive.py:576-577 | when the text without its first '.' is digits, the part before the point is digits too, so int(float(...)) cannot fail |
| ComprehensiveDerived.CanonicalDecimal | src/processors/sinan_data_processor_comprehensive.py:577 | str(int(...)) of a digit string without a leading zero gives the string back |
| ComprehensiveDerived.PaddedCode | src/processors/sinan_data_processor_comprehensive.py:576-577 | a code padded with zeros and given a fractional part passes the digit test and reads back as the code |
| ComprehensiveDerived.StateNameNumericText | src/processors/sinan_data_processor_comprehensive.py:569-580 | over canonical codes, a code written with leading zeros or a fractional part is looked up as the code |
| ComprehensiveDerived.MapUfNumericText | src/processors/sinan_data_processor_comprehensive.py:569-580 | map_uf names the state of a code also when written '035', '35.0' or '0035.25' |
| ComprehensiveDerived.MapUfNumber | src/processors/sinan_data_processor_comprehensive.py:569-580 | map_uf names the state of the integral number of a code |
| ComprehensiveDerived.MapUfPassThrough | src/processors/sinan_data_processor_comprehensive.py:569-580 | a text that is neither a code nor numeric comes back stripped |
| ComprehensiveDerived.MapMunicipioLookup | src/processors/sinan_data_processor_comprehensive.py:599-603 | with a dictionary of six-character codes, the length test never rejects a listed code: a listed code gets its name, any other text comes back stripped |
| ComprehensiveDerived.KindLabelsMembership | src/processors/sinan_data_processor_comprehensive.py:625-628 | each label is in the list exactly when its kind is affirmed |
| ComprehensiveDerived.KindLabelsClean | src/processors/sinan_data_processor_comprehensive.py:625-628 | every label is non-empty, stripped and free of ',' |
| ComprehensiveDerived.ViolenceLabelsMembership | src/processors/sinan_data_processor_comprehensive.py:616-628 | each label is listed exactly when the row's column holds 'Sim', 'SIM', '1', 'S' or '1.0' once stripped |
| ComprehensiveDerived.AffirmedLabels | src/processors/sinan_data_processor_comprehensive.py:617-628 | the four tests append the affirmed labels in order |
| ComprehensiveDerived.GetViolenceType | src/processors/sinan_data_processor_comprehensive.py:616-631 | get_violence_type returns the joined labels, or 'Não especificado' when none holds |
| ComprehensiveDerived.KindTextRoundTrip | src/processors/sinan_data_processor_comprehensive.py:630-631 | the joined text is never empty, splits back into the labels, and is the sentinel exactly when no kind is affirmed |
| ComprehensiveDerived.ViolenceTypeRoundTrip | src/processors/sinan_data_processor_comprehensive.py:616-633 | TIPO_VIOLENCIA is never empty, split at ',' and stripped gives the affirmed labels in order, and is the sentinel exactly when no kind is affirmed |
| ComprehensiveDerived.SexOfText | src/processors/sinan_data_processor_comprehensive.py:638-641 | 'Masculino' exactly for '1', 'M', 'MASCULINO', 'Feminino' exactly for '2', 'F', 'FEMININO', 'Ignorado' for every other text |
| ComprehensiveDerived.MapSexOfStripped | src/processors/sinan_data_processor_comprehensive.py:637-641 | a stripped text is read by its upper-cased form |
| ComprehensiveDerived.ReportDelay | src/processors/sinan_data_processor_comprehensive.py:652-657 | a delay is kept exactly when both dates exist and the difference lies in [0, 3650] days, and it is that difference |
| ComprehensiveDerived.EncLabels | src/processors/sinan_data_processor_comprehensive.py:668-675 | every label comes from a referred column, every referred column's label is listed, and there are no more labels than columns |
| ComprehensiveDerived.GetEnc | src/processors/sinan_data_processor_comprehensive.py:665-676 | the loop over the four referral columns returns the joined labels, or 'Nenhum' |
| ComprehensiveDerived.ReferredByPaddedOne | src/processors/sinan_data_processor_comprehensive.py:670-671 | a value '01' or '001' counts as a referral like '1' |
| ComprehensiveDerived.EncNamesClean | src/processors/sinan_data_processor_comprehensive.py:672-675 | each referral label is a clean list item that does not open like 'Nenhum' |
| ComprehensiveDerived.EncLabelsText | src/processors/sinan_data_processor_comprehensive.py:676 | the referral text is never empty, splits back into its labels, and is 'Nenhum' exactly when no column is referred |
| ComprehensiveDerived.EncTextCases | src/processors/sinan_data_processor_comprehensive.py:665-676 | ENCAMINHAMENTOS_JUSTICA is never empty, 'Nenhum' exactly when no referral holds, and otherwise splits into the labels of the referred columns |
| ComprehensiveDerived.AutorSexOfText | src/processors/sinan_data_processor_comprehensive.py:685-689 | the result is one of four labels, and 'Outros' exactly for '3' and 'OUTROS' |
| ComprehensiveDerived.MapAutorSexo | src/processors/sinan_data_processor_comprehensive.py:683-689 | the result is one of four labels, and 'Não informado' for a missing value |
| ComprehensiveDerived.MapAutorSexoOfStripped | src/processors/sinan_data_processor_comprehensive.py:685 | a stripped text is read by its upper-cased form |
| ComprehensiveDerived.RelLabels | src/processors/sinan_data_processor_comprehensive.py:724-746 | the names have no repeats, each comes from a set flag, and every set flag's name is listed |
| ComprehensiveDerived.GetRel | src/processors/sinan_data_processor_comprehensive.py:721-747 | the loop with its duplicate check returns the joined names, or 'Não informado' |
| ComprehensiveDerived.RelNameNonEmpty | src/processors/sinan_data_processor_comprehensive.py:729-743 | a column whose suffix holds a character other than '_' gets a non-empty name |
| ComprehensiveDerived.RelTextNonEmpty | src/processors/sinan_data_processor_comprehensive.py:721-747 | GRAU_PARENTESCO is never empty when no flag column is 'REL_' plus underscores |
| ComprehensiveDerived.RelLabelsSame | src/processors/sinan_data_processor_comprehensive.py:724-746 | two rows with the same flags get the same names |
| ComprehensiveDerived.AddLocation | src/processors/sinan_data_processor_comprehensive.py:543-612 | steps 1 to 4 assigned to df one after the other give the located frame |
| ComprehensiveDerived.AddTypeAndDelay | src/processors/sinan_data_processor_comprehensive.py:614-660 | steps 5 to 7 give the typed, sexed and timed frame |
| ComprehensiveDerived.AddClassification | src/processors/sinan_data_processor_comprehensive.py:662-750 | steps 8 to 10 give the classified frame |
| ComprehensiveDerived.CreateDerivedColumns | src/processors/sinan_data_processor_comprehensive.py:534-753 | create_derived_columns is the ten steps in order |
| ComprehensiveDerived.DateStageDerives | src/processors/sinan_data_processor_comprehensive.py:543-550 | step 1 writes only DT_NOTIFIC and ANO_NOTIFIC |
| ComprehensiveDerived.FaixaStageDerives | src/processors/sinan_data_processor_comprehensive.py:555-556 | step 2 writes only FAIXA_ETARIA |
| ComprehensiveDerived.UfStageDerives | src/processors/sinan_data_processor_comprehensive.py:582-590 | step 3 writes only UF_NOTIFIC |
| ComprehensiveDerived.MunicipioStageDerives | src/processors/sinan_data_processor_comprehensive.py:605-609 | step 4 writes only MUNICIPIO_NOTIFIC |
| ComprehensiveDerived.SexStageDerives | src/processors/sinan_data_processor_comprehensive.py:636-643 | step 6 writes only SEXO |
| ComprehensiveDerived.DelayStageDerives | src/processors/sinan_data_processor_comprehensive.py:646-660 | step 7 writes only DT_OCOR and TEMPO_OCOR_DENUNCIA |
| ComprehensiveDerived.EncStageDerives | src/processors/sinan_data_processor_comprehensive.py:663-679 | step 8 writes only ENCAMINHAMENTOS_JUSTICA |
| ComprehensiveDerived.AutorSexoStageDerives | src/processors/sinan_data_processor_comprehensive.py:682-692 | step 9 writes only AUTOR_SEXO_CORRIGIDO |
| ComprehensiveDerived.RelStageDerives | src/processors/sinan_data_processor_comprehensive.py:695-750 | step 10 writes only GRAU_PARENTESCO |
| ComprehensiveDerived.DerivedColumnsDerives | src/processors/sinan_data_processor_comprehensive.py:534-753 | create_derived_columns keeps every row and source column, adds only derived columns, and leaves every other cell as it was |
| ComprehensiveDerived.ViolenceTypeOfSame | src/processors/sinan_data_processor_comprehensive.py:625-628 | get_violence_type reads only the four VIOL_* cells |
| ComprehensiveDerived.DerivedViolenceType | src/processors/sinan_data_processor_comprehensive.py:614-633 | TIPO_VIOLENCIA of the result is get_violence_type of the source row |
| ComprehensiveDerived.EncTextOfSame | src/processors/sinan_data_processor_comprehensive.py:668-671 | get_enc reads only the four ENC_* cells |
| ComprehensiveDerived.DerivedReferrals | src/processors/sinan_data_processor_comprehensive.py:662-679 | ENCAMINHAMENTOS_JUSTICA of the result is get_enc of the source row when the source has a referral column, and 'Não informado' otherwise |
| ComprehensiveDerived.DerivedDelay | src/processors/sinan_data_processor_comprehensive.py:645-660 | with both date columns, TEMPO_OCOR_DENUNCIA of the result is the delay between the two parsed source dates: missing, or whole days in [0, 3650] |
| DashboardDerived.CleanDateAsWritten | src/dashboard_sinan_real_data.py:369-387 | blanks and missing markers become missing, every other value, a timestamp included, is parsed from its text, and the result is a timestamp or missing |
| DashboardDerived.CleanDateAsWrittenDropsTimestamps | src/dashboard_sinan_real_data.py:378-379 | a timestamp whose text holds a '-' does not match YYYYMMDD, so an already converted column comes out missing |
| DashboardDerived.CleanDate | src/dashboard_sinan_real_data.py:369-387 | as intended, beside the date step as written: a timestamp is kept, a missing value stays missing, and every result is a timestamp or missing |
| DashboardDerived.CleanDateIdempotent | src/dashboard_sinan_real_data.py:389-392 | cleaning a cleaned value changes nothing, so the date step is idempotent |
| DashboardDerived.CleanDateOnText | src/dashboard_sinan_real_data.py:374-379 | both versions agree on texts: blanks and 'nan', 'None', 'NaT' become missing, and a parsable text becomes its date |
| DashboardDerived.ProcessDates | src/dashboard_sinan_real_data.py:389-392 | the loop over the five date columns cleans each present one in order with process_date_column as written |
| DashboardDerived.CleanColumnDropsTimestamp | src/dashboard_sinan_real_data.py:369-379 | when the parser accepts digit strings only, a timestamp already in a date column whose text holds a '-' comes out missing |
| DashboardDerived.CleanColumnsCells | src/dashboard_sinan_real_data.py:369-392 | cleaning keeps columns and rows, leaves only timestamps or missing values in a cleaned column, and touches no other column |
| DashboardDerived.YearStageCells | src/dashboard_sinan_real_data.py:394-400 | ANO_NOTIFIC always exists, holds a number or missing, and is the year of a notification date |
| DashboardDerived.DelayStageIsPerRow | src/dashboard_sinan_real_data.py:402-415 | the any() guard changes nothing: with both date columns the delay column is the per-row delay |
| DashboardDerived.DelayCellRange | src/dashboard_sinan_real_data.py:405-415 | a delay is present exactly for two timestamps whose difference lies in [0, 3650] days, and lies in that range |
| DashboardDerived.AddReportDelay | src/dashboard_sinan_real_data.py:402-415 | the assignments on the valid rows give the per-row delay column |
| DashboardDerived.EncLabels | src/dashboard_sinan_real_data.py:437-449 | every label comes from a referred column, every referred column's label is listed, and there are no more labels than columns |
| DashboardDerived.GetEncaminhamentosJustica | src/dashboard_sinan_real_data.py:435-450 | the loop over the four referral columns returns the joined labels, or 'Nenhum' |
| DashboardDerived.EncNameClean | src/dashboard_sinan_real_data.py:442-449 | each referral label is a clean list item that does not open like 'Nenhum' |
| DashboardDerived.EncLabelsText | src/dashboard_sinan_real_data.py:450 | the referral text is never empty, is 'Nenhum' exactly when no column is referred, and otherwise splits back into its labels |
| DashboardDerived.EncTextCases | src/dashboard_sinan_real_data.py:433-454 | ENCAMINHAMENTOS_JUSTICA is never empty, 'Nenhum' exactly when no referral holds, and otherwise splits into the labels of the referred columns |
| DashboardDerived.MapUfMatchesProcessor | src/dashboard_sinan_real_data.py:476-491 | on every value but a timestamp, the dashboard's map_uf with its integer keys gives the processor's map_uf result |
| DashboardDerived.MapUfOfNumber | src/dashboard_sinan_real_data.py:476-491 | a number that is no code is written out as it stands by both copies |
| DashboardDerived.GetViolenceType | src/dashboard_sinan_real_data.py:521-538 | get_violence_type returns the joined labels of the affirmed kinds, or 'Não especificado' |
| DashboardDerived.ViolenceTypeRoundTrip | src/dashboard_sinan_real_data.py:521-540 | TIPO_VIOLENCIA is never empty, lists a kind exactly when the row affirms it, splits back into the labels, and is the sentinel exactly when no kind is affirmed |
| DashboardDerived.SearchAge | src/dashboard_sinan_real_data.py:557-559 | a matched age number is below 100 |
| DashboardDerived.BandOfNumberMatchesProcessor | src/dashboard_sinan_real_data.py:597-610 | the dashboard's band of a number is the processor's, and each band holds exactly its range of years, 18 and over not informed |
| DashboardDerived.AgeNumber | src/dashboard_sinan_real_data.py:556-595 | a number the pattern finds is the one used |
| DashboardDerived.AgeGroupCases | src/dashboard_sinan_real_data.py:544-610 | missing is not informed; 'menor de' anywhere is the first band; otherwise the pattern's number gives the band, and without one the value is not informed |
| DashboardDerived.AgeGroupOfStripped | src/dashboard_sinan_real_data.py:547 | a stripped text is classified as it stands |
| DashboardDerived.TwoDigitAge | src/dashboard_sinan_real_data.py:557 | two digits, a space and 'ano' at the start match with their value |
| DashboardDerived.OneDigitAge | src/dashboard_sinan_real_data.py:557 | one digit, a space and 'ano' at the start match with its value |
| DashboardDerived.KnownTextShape | src/dashboard_sinan_real_data.py:562-595 | every known text has one or two digits followed by ' ano' |
| DashboardDerived.KnownTextsAreMatched | src/dashboard_sinan_real_data.py:557-595 | the list of known texts never decides anything: when the pattern finds no number, no listed text is present |
| DashboardDerived.AgeGroupOfMatched | src/dashboard_sinan_real_data.py:553-610 | a short stripped text with a matched number gets that number's band |
| DashboardDerived.YearsLabelMatched | src/dashboard_sinan_real_data.py:557 | 'NN anos' of a number below 100 is matched with that number |
| DashboardDerived.DecodedAgeGroup | src/dashboard_sinan_real_data.py:544-612 | the decoded label of every age under 18 gets the band of its years, the band the processor's create_faixa_etaria gives it |
| DashboardDerived.OneYearGroup | src/dashboard_sinan_real_data.py:557-600 | '01 ano' is the first band |
| DashboardDerived.YearsLabelGroup | src/dashboard_sinan_real_data.py:557-610 | 'NN anos' gets the band of NN |
| DashboardDerived.InfantTextGroup | src/dashboard_sinan_real_data.py:553-554 | a stripped text opening with 'menor de' is the first band |
| DashboardDerived.InfantLabelGroup | src/dashboard_sinan_real_data.py:553-554 | 'menor de 01 ano' is the first band |
| DashboardDerived.NoDigitNoAge | src/dashboard_sinan_real_data.py:557 | a text without digits has no match |
| DashboardDerived.AgeGroupOfUnmatched | src/dashboard_sinan_real_data.py:557-610 | a short stripped text with no matched number is not informed |
| DashboardDerived.MissingAgeGroup | src/dashboard_sinan_real_data.py:545-546 | a missing value and the text 'nan' are not informed |
| DashboardDerived.AdultAgeNotInformed | src/dashboard_sinan_real_data.py:597-610 | an age of 18 or more written 'NN anos' is not informed, as there is no adult band |
| DashboardDerived.SexOfText | src/dashboard_sinan_real_data.py:621-627 | 'Masculino' exactly for 'M', '1', 'MASCULINO', 'MAS', 'Feminino' exactly for 'F', '2', 'FEMININO', 'FEM', 'Não informado' otherwise |
| DashboardDerived.SexCopiesCompared | src/dashboard_sinan_real_data.py:618-627 | the dashboard's sex labels agree with the processor's on the processor's codes, and differ on 'MAS', 'FEM' and the default |
| DashboardDerived.AutorSexOfText | src/dashboard_sinan_real_data.py:637-650 | each of the five labels is given exactly for its listed texts, a relationship word or any other text is not informed |
| DashboardDerived.RelLabels | src/dashboard_sinan_real_data.py:660-679 | every name comes from a set flag and every set flag's name is listed, with no more names than columns |
| DashboardDerived.GetRelacionamento | src/dashboard_sinan_real_data.py:659-680 | the loop without a duplicate check returns the joined names, or 'Não informado' |
| DashboardDerived.RelLabelsKeepRepeats | src/dashboard_sinan_real_data.py:679 | unlike the processor's copy, a name shared by two set columns is listed twice |
| DashboardDerived.RelDictClean | src/dashboard_sinan_real_data.py:103-130 | every dictionary name is a clean list item |
| DashboardDerived.RelTextCases | src/dashboard_sinan_real_data.py:657-683 | over dictionary columns, GRAU_PARENTESCO is never empty, is 'Não informado' exactly when no flag is set, and otherwise splits back into the names of the set flags |
| DashboardDerived.CleanLabelsText | src/dashboard_sinan_real_data.py:680 | clean labels joined are never empty, the default exactly for none, and split back otherwise |
| DashboardDerived.AddDates | src/dashboard_sinan_real_data.py:389-415 | dates cleaned as written, then the year and the delay, assigned in order, give the dated frame |
| DashboardDerived.AddPlaces | src/dashboard_sinan_real_data.py:432-518 | referrals row by row, then state and municipality, give the placed frame |
| DashboardDerived.AddClassification | src/dashboard_sinan_real_data.py:520-683 | violence type, age group, both sexes and relationship give the classified frame |
| DashboardDerived.CreateDerivedColumns | src/dashboard_sinan_real_data.py:363-685 | create_derived_columns is the stages in the dashboard's order, with the date step as written |
| DashboardDerived.CleanColumnsDerives | src/dashboard_sinan_real_data.py:389-392 | the date loop writes only the date columns |
| DashboardDerived.YearStageDerives | src/dashboard_sinan_real_data.py:394-400 | the year step writes only ANO_NOTIFIC |
| DashboardDerived.DelayStageDerives | src/dashboard_sinan_real_data.py:402-415 | the delay step writes only TEMPO_OCOR_DENUNCIA |
| DashboardDerived.DatedFrameDerives | src/dashboard_sinan_real_data.py:389-415 | dates, year and delay write only their own seven columns |
| DashboardDerived.EncStageDerives | src/dashboard_sinan_real_data.py:432-454 | the referral step writes only ENCAMINHAMENTOS_JUSTICA |
| DashboardDerived.UfStageDerives | src/dashboard_sinan_real_data.py:493-498 | the state step writes only UF_NOTIFIC |
| DashboardDerived.PlacedFrameDerives | src/dashboard_sinan_real_data.py:432-518 | referrals, state and municipality write only their own three columns |
| DashboardDerived.FaixaStageDerives | src/dashboard_sinan_real_data.py:542-614 | the age step writes only FAIXA_ETARIA |
| DashboardDerived.SexStageDerives | src/dashboard_sinan_real_data.py:616-630 | the sex step writes only SEXO |
| DashboardDerived.AutorSexoStageDerives | src/dashboard_sinan_real_data.py:632-653 | the aggressor sex step writes only AUTOR_SEXO_CORRIGIDO |
| DashboardDerived.RelStageDerives | src/dashboard_sinan_real_data.py:655-683 | the relationship step writes only GRAU_PARENTESCO |
| DashboardDerived.ClassifiedFrameDerives | src/dashboard_sinan_real_data.py:520-683 | the five classifications write only their own five columns |
| DashboardDerived.DerivedColumnsDerives | src/dashboard_sinan_real_data.py:363-685 | create_derived_columns keeps every row and source column, adds only derived columns, and leaves every other cell as it was |
| DashboardDerived.DerivedColumnsPresent | src/dashboard_sinan_real_data.py:363-685 | the year, the referrals, the places and the five classifications always exist afterwards |
| DashboardFilters.Missing | src/dashboard_sinan_real_data.py:155-156 | the list comprehension keeps exactly the names the frame lacks |
| DashboardFilters.HasViolenceSome | src/dashboard_sinan_real_data.py:179-186 | a row has violence exactly when some available violence column is marked: its upper-cased stripped text is '1', 'SIM', 'S' or '1.0', or its value equals 1 |
| DashboardFilters.MarkedIn | src/dashboard_sinan_real_data.py:188 | the row filter applies tem_violencia |
| DashboardFilters.TemViolencia | src/dashboard_sinan_real_data.py:179-186 | the loop returning at the first marked column decides HasViolence |
| DashboardFilters.ViolenceStepIsFilter | src/dashboard_sinan_real_data.py:188-196 | the guard on the number of rejected rows changes nothing: with a violence column the step is the violence filter |
| DashboardFilters.ViolenceStepKeeps | src/dashboard_sinan_real_data.py:174-196 | the violence step keeps the columns and the row order, keeps exactly the marked rows when a violence column is present, and every row otherwise |
| DashboardFilters.MissingNone | src/dashboard_sinan_real_data.py:156 | a frame lacks none of the names it has |
| DashboardFilters.DerivedCheckPresent | src/dashboard_sinan_real_data.py:162-168 | create_derived_columns leaves every column the derived check names |
| DashboardFilters.LoadPreprocessedShape | src/dashboard_sinan_real_data.py:153-196 | the pre-processed frame is used exactly when it has the essential columns; then it has every checked derived column and holds only violent rows when a violence column is present; with nothing missing it is only violence-filtered |
| DashboardFilters.LoadPreprocessedData | src/dashboard_sinan_real_data.py:153-196 | the checks with their list comprehensions, the derivation as written and the violence step give LoadPreprocessed |
| DashboardFilters.FallbackAgeCodes | src/dashboard_sinan_real_data.py:276 | the comprehension writes eighteen codes |
| DashboardFilters.PadTwoCases | src/dashboard_sinan_real_data.py:276 | below 100, the two-digit padding is the leading zero written by hand |
| DashboardFilters.FallbackAgeCodeAt | src/dashboard_sinan_real_data.py:276 | the i-th code is the age dictionary's code of i years |
| DashboardFilters.FallbackAgeCodesAreDictionaryCodes | src/dashboard_sinan_real_data.py:274-276 | the hand-written list is the DuckDB processor's list and holds exactly the codes the age dictionary decodes |
| DashboardFilters.FallbackAgeFilterKeeps | src/dashboard_sinan_real_data.py:273-282 | a row passes the fallback age filter exactly when its age code is one of zero to seventeen years |
| DashboardFilters.ApplySidebarFilters | src/dashboard_sinan_real_data.py:849-891 | df_filtrado reassigned by each filter in turn is SidebarFilters |
| DashboardFilters.NarrowsTrans | src/dashboard_sinan_real_data.py:849-891 | two narrowing steps narrow |
| DashboardFilters.SidebarFiltersNarrow | src/dashboard_sinan_real_data.py:849-891 | the filters keep the columns and take a subsequence of the rows, in order |
| DashboardFilters.SidebarFiltersSound | src/dashboard_sinan_real_data.py:849-891 | a surviving row was in the frame, lies in the chosen years when the year column exists, is of the chosen state, and matches a chosen municipality or type wherever its value would be offered |
| DashboardFilters.SidebarFiltersComplete | src/dashboard_sinan_real_data.py:849-891 | a row meeting every chosen criterion survives |
| DashboardFilters.SidebarFiltersAllOptions | src/dashboard_sinan_real_data.py:849-891 | with every box at 'Todos' only the year filter acts |
| DashboardFilters.CollectParentescos | src/dashboard_sinan_real_data.py:1166-1172 | the loop over the rows of df_parentesco builds the concatenation of the informed rows' stripped comma-separated parts |
| DashboardFilters.ParentescosOfKept | src/dashboard_sinan_real_data.py:1166-1172 | collecting the parts of the rows df_parentesco keeps is collecting the parts of the informed rows of df_filtrado |
| DashboardFilters.CountParentescos | src/dashboard_sinan_real_data.py:1174 | Counter holds exactly the listed relationships, each with its number of occurrences |
| DashboardFilters.RelTextParts | src/dashboard_sinan_real_data.py:1166-1172 | a relationship text from dictionary columns is filtered out exactly when no flag is set, and otherwise splits back into the names of the set flags |
| DashboardFilters.ParentescosHoldRowParts | src/dashboard_sinan_real_data.py:1166-1174 | every part of every informed row is counted |
| Preprocess.AgeMaskFailsOnDecoded | scripts/preprocess_data.py:84-92 | on decoded data with NU_IDADE_N and a row, the mask as written compares text with integers and raises |
| Preprocess.DecodedAgeColumn | scripts/preprocess_data.py:78 | decoding keeps NU_IDADE_N and maps each of its values through the age dictionary |
| Preprocess.AgeMaskKeeps | scripts/preprocess_data.py:84-92 | the intended age filter keeps the columns and exactly the rows aged 0 to 17 years or without an age (NaN, 'nan' or 'None'), in order |
| Preprocess.KeepsDecodedRawAge | scripts/preprocess_data.py:78-92 | a decoded row is kept exactly when its raw age is missing, one of the codes of 0 to 17 years, already a child age label, or one of the texts 'nan' and 'None' |
| Preprocess.AgeLabelIsChildAge | scripts/preprocess_data.py:78 | every label of the age dictionary is a child age label |
| Preprocess.ChildCodesPassAgeMask | scripts/preprocess_data.py:84-92 | the code of every age below 18, once decoded, passes the filter |
| Preprocess.AgeGroupOfYearsBands | scripts/preprocess_data.py:105-116 | each band of get_age_group holds exactly its range of years, 18 and over '18+ anos' |
| Preprocess.AgeGroupAsWrittenOnDecoded | scripts/preprocess_data.py:101-118 | on decoded data every value is text, so every row lands in '0-1 anos', age 15 included |
| Preprocess.FaixaOfDecodedAge | scripts/preprocess_data.py:100-118 | banding a decoded age code with the processor's map_idade_to_faixa gives the band of its years |
| Preprocess.FaixaOfDecodedMissing | scripts/preprocess_data.py:102-103 | a decoded missing age, NaN or the text 'nan' or 'None', is not informed |
| Preprocess.GetViolenceType | scripts/preprocess_data.py:125-131 | the loop over the REL_ columns returns the joined labels of the marked ones, or 'Não informado' |
| Preprocess.ViolenceTypeCases | scripts/preprocess_data.py:125-131 | the text is 'Não informado' when no column is marked, and otherwise the joined non-empty list of marked labels |
| Preprocess.RelKindOfPlainName | scripts/preprocess_data.py:129 | a column REL_x without '_' in x is labelled x in title case |
| Preprocess.AddViolenceType | scripts/preprocess_data.py:120-133 | TIPO_VIOLENCIA is built only when absent and some REL_ column exists |
| Preprocess.ParseDates | scripts/preprocess_data.py:135-146 | the loop converts each present date column in order |
| Preprocess.ParseColumnsCells | scripts/preprocess_data.py:135-146 | converting keeps the columns and the row count, leaves converted columns with timestamps or missing values, and no other column changes |
| Preprocess.AddReportDelay | scripts/preprocess_data.py:148-159 | the delay is written only when both date columns exist and some row has both dates |
| Preprocess.DelayStageCells | scripts/preprocess_data.py:148-159 | a row with both dates holds a whole number of days in [0, 3650] or nothing, that number being the difference of two timestamps |
| Preprocess.GetEncaminhamentos | scripts/preprocess_data.py:164-178 | the loop over the four referral columns returns the joined labels, or 'Nenhum' |
| Preprocess.EncTextCases | scripts/preprocess_data.py:164-178 | the referral text is never empty nor 'Não informado', and is 'Nenhum' exactly when no column holds '1' or the number 1 |
| Preprocess.EncNameOpens | scripts/preprocess_data.py:170-177 | every referral label is non-empty and opens with a letter other than N |
| Preprocess.AddReferrals | scripts/preprocess_data.py:161-182 | the referral column is computed when some referral column exists, else 'Não informado' everywhere |
| Preprocess.EncStageCells | scripts/preprocess_data.py:161-182 | every row holds a non-empty referral text, 'Não informado' exactly when no referral column exists |
| Preprocess.PreprocessData | scripts/preprocess_data.py:21-272 | the run succeeds exactly with the raw directory, a Parquet file, non-empty data and an age mask that does not raise, and then hands on the decoded, age-filtered and derived frame as written |
| Preprocess.PreprocessFailsWithAges | scripts/preprocess_data.py:84-92 | on data with NU_IDADE_N and a row the steps as written raise, so the run returns False |
| Preprocess.PreprocessWithoutAges | scripts/preprocess_data.py:84-118 | without NU_IDADE_N the run as written hands on exactly what the corrected run does |
| Preprocess.PreprocessedRows | scripts/preprocess_data.py:84-182 | the corrected run keeps exactly the rows the corrected age filter keeps, and every one carries a referral text |
| DuckdbProcessor.FilterTerms | src/processors/sinan_data_processor_duckdb.py:69-71 | one term per filter, in dict order |
| DuckdbProcessor.WhereClauses | src/processors/sinan_data_processor_duckdb.py:69-71 | the loop over filters.items() builds those terms |
| DuckdbProcessor.FileQueries | src/processors/sinan_data_processor_duckdb.py:64-75 | one query per file, in file order |
| DuckdbProcessor.QueryWithFilters | src/processors/sinan_data_processor_duckdb.py:40-78 | query_with_filters builds one SELECT per file with the filters, joined by UNION ALL, and none without files |
| DuckdbProcessor.QueryOnlyWithFiles | src/processors/sinan_data_processor_duckdb.py:51-54 | there is no query exactly when there are no files |
| DuckdbProcessor.WhereIffFilters | src/processors/sinan_data_processor_duckdb.py:68-73 | a WHERE part appears exactly when there are filters, opening with ' WHERE ' |
| DuckdbProcessor.QueryOpensWithFirstFile | src/processors/sinan_data_processor_duckdb.py:57-78 | the query opens with the SELECT of the first file, with the projection of the columns |
| DuckdbProcessor.SingleFileQuery | src/processors/sinan_data_processor_duckdb.py:63-78 | a single file is queried without UNION ALL |
| DuckdbProcessor.RelColumns | src/processors/sinan_data_processor_duckdb.py:132 | the REL_ columns are exactly the sample's columns opening with 'REL_' |
| DuckdbProcessor.AvailableColumnsSpec | src/processors/sinan_data_processor_duckdb.py:97-136 | a column is asked for exactly when the first file has it and it is listed or a REL_ column |
| DuckdbProcessor.DuckAgeCodesMissTeens | src/processors/sinan_data_processor_duckdb.py:141-145 | the codes of ages 10 to 17 are missing from the list as written, which holds five-character codes there |
| DuckdbProcessor.DuckAgeCodeShape | src/processors/sinan_data_processor_duckdb.py:143 | entry k of that list has four characters encoding k below ten and five from ten on |
| DuckdbProcessor.AgeCodeListMatchesDictionary | src/processors/sinan_data_processor_duckdb.py:141-145 | the intended list holds exactly the 18 codes the age dictionary decodes |
| DuckdbProcessor.ViolenceConditions | src/processors/sinan_data_processor_duckdb.py:161-168 | the loop builds one mask per available VIOL_* column, one flag per row |
| DuckdbProcessor.CombineConditions | src/processors/sinan_data_processor_duckdb.py:170-172 | the or-ed mask marks a row exactly when some available column is affirmative |
| DuckdbProcessor.FilterViolence | src/processors/sinan_data_processor_duckdb.py:153-179 | the masks, or-ed and selected, give the violence step |
| DuckdbProcessor.ViolenceStageSubsequence | src/processors/sinan_data_processor_duckdb.py:153-179 | the violence step keeps the columns and takes a subsequence of the rows |
| DuckdbProcessor.ViolenceStageKeeps | src/processors/sinan_data_processor_duckdb.py:159-174 | when the step runs, a row is kept exactly when a present VIOL_* column holds '1', 'SIM', 'S', '1.0' or the number 1 |
| DuckdbProcessor.ViolenceStageSkipped | src/processors/sinan_data_processor_duckdb.py:154-179 | not asked, an empty table or no VIOL_* column: the loaded table comes back unchanged |
| DuckdbProcessor.LoadFilteredViolenceData | src/processors/sinan_data_processor_duckdb.py:84-179 | without files the call fails at the sample query; otherwise the query asks for the available columns with the age condition as written when asked, and the result is the violence step on the returned table |
| DuckdbProcessor.AggregateFileQueries | src/processors/sinan_data_processor_duckdb.py:200-215 | one aggregate per file, in file order |
| DuckdbProcessor.AggregateByFilters | src/processors/sinan_data_processor_duckdb.py:181-226 | aggregate_by_filters sums per-file counts over the union, and has no query without files |
| DuckdbProcessor.AggregateQueries | src/processors/sinan_data_processor_duckdb.py:200-215 | the loop builds one aggregate per file |
| DuckdbProcessor.AggregateGroupsEachFile | src/processors/sinan_data_processor_duckdb.py:214 | every per-file aggregate ends by grouping on the outer query's columns |
| DuckdbProcessor.AggregateFiltersEachFile | src/processors/sinan_data_processor_duckdb.py:201-214 | every per-file aggregate opens with its file's COUNT select, followed by the same WHERE part as the plain query, which opens with ' WHERE ' exactly when there are filters |
| DuckdbProcessor.AggregateOnlyWithFiles | src/processors/sinan_data_processor_duckdb.py:192-224 | there is an aggregate query exactly when there are files, and it opens by summing the counts per group |
| DuckdbAdapter.FirstPresent | src/processors/sinan_duckdb_adapter.py:43 | the first candidate the table has, or none exactly when it has none |
| DuckdbAdapter.YearColumnPriority | src/processors/sinan_duckdb_adapter.py:17-27 | NU_ANO is preferred to DT_NOTIFIC, and no query is made without either |
| DuckdbAdapter.InsertYear | src/processors/sinan_duckdb_adapter.py:21 | inserting adds exactly one element |
| DuckdbAdapter.InsertYearAscending | src/processors/sinan_duckdb_adapter.py:21 | inserting into an ascending list keeps it ascending |
| DuckdbAdapter.SortYearsSpec | src/processors/sinan_duckdb_adapter.py:21 | sorted() returns an ascending permutation of the years |
| DuckdbAdapter.GetAvailableYears | src/processors/sinan_duckdb_adapter.py:12-30 | the years are the sorted permutation of what the query returns, and empty without a year column or on an error |
| DuckdbAdapter.UfColumnPriority | src/processors/sinan_duckdb_adapter.py:37-52 | UF_NOTIFIC is preferred, then SG_UF_NOT, then SG_UF |
| DuckdbAdapter.GetAvailableUfs | src/processors/sinan_duckdb_adapter.py:32-55 | the states are what the query returns, in its order, and empty without a state column or on an error |
| DuckdbAdapter.RenderAll | src/processors/sinan_duckdb_adapter.py:134 | every clause is rendered, in order |
| DuckdbAdapter.BuildFilteredQuery | src/processors/sinan_duckdb_adapter.py:61-134 | the query is the rendered clauses joined by spaces |
| DuckdbAdapter.CollectClauses | src/processors/sinan_duckdb_adapter.py:79-132 | the clauses are the head, the age clause on the raw view, then the year and state clauses |
| DuckdbAdapter.AppendUfClause | src/processors/sinan_duckdb_adapter.py:110-132 | the state clause is appended when there is one |
| DuckdbAdapter.SnapshotColumnsShape | src/processors/sinan_duckdb_adapter.py:67-73 | the snapshot projection names 13 distinct columns |
| DuckdbAdapter.FilteredQueryOpens | src/processors/sinan_duckdb_adapter.py:79-86 | every query opens with the projection of its mode and WHERE 1=1 |
| DuckdbAdapter.AgeClauseOnlyRaw | src/processors/sinan_duckdb_adapter.py:90-94 | the age clause is present exactly when the raw view is read |
| DuckdbAdapter.YearClauseSpec | src/processors/sinan_duckdb_adapter.py:96-108 | a year clause is added exactly for a year range on a table with DT_NOTIFIC or NU_ANO, preferring DT_NOTIFIC, and bounds the year by both ends |
| DuckdbAdapter.UfClauseSpec | src/processors/sinan_duckdb_adapter.py:110-132 | a state clause is added exactly for a mapped state name other than '' and 'Todos' on a table with SG_UF_NOT or SG_UF, comparing SG_UF_NOT when present with the state's code |
| DuckdbAdapter.UfMapInvertsStateNames | src/processors/sinan_duckdb_adapter.py:113-122 | uf_map is the exact inverse of the processor's uf_dict |
| DuckdbAdapter.GetFilteredData | src/processors/sinan_duckdb_adapter.py:61-158 | the query is the built query; a failure gives the empty table; the snapshot result is returned as fetched and the raw result decoded and violence-filtered with the age stage skipped |
| MunicLoader.FirstCode | src/utils/munic_dict_loader.py:44-53 | the index found is the first six-digit token of the line; none is found exactly when no token is a six-digit code |
| MunicLoader.NamedEntry | src/utils/munic_dict_loader.py:55-59 | an entry is produced only with a non-empty name whose lower-cased form is none of the three "ignored" names |
| MunicLoader.EntryOf | src/utils/munic_dict_loader.py:36-59 | the entry of a line's tokens always carries a six-digit code |
| MunicLoader.ParseLine | src/utils/munic_dict_loader.py:28-59 | whatever one line contributes has a six-digit code |
| MunicLoader.FindCode | src/utils/munic_dict_loader.py:40-53 | the token loop stops at the first six-digit token, returns it, and returns the tokens after it without a trailing repeated code; no code is returned exactly when the line has none |
| MunicLoader.ParseEntry | src/utils/munic_dict_loader.py:28-59 | the imperative line body (skip, split, length test, token loop, name test) gives exactly the entry the line specification gives |
| MunicLoader.SkippedLine | src/utils/munic_dict_loader.py:30-31 | comment lines (starting with ';' after stripping) and blank lines add nothing |
| MunicLoader.ShortLine | src/utils/munic_dict_loader.py:37 | a line of fewer than three whitespace-separated tokens adds nothing |
| MunicLoader.ParsedLine | src/utils/munic_dict_loader.py:36-59 | a line that adds an entry has at least three tokens, its code is the first six-digit token, its name is the following tokens joined by single spaces minus a trailing code, and the name is neither empty nor ignored |
| MunicLoader.ParseAll | src/utils/munic_dict_loader.py:28 | the entries of a file are those of its lines, one per line, in order |
| MunicLoader.LoadMunicipalityDict | src/utils/munic_dict_loader.py:12-66 | the file loop over the globbed files, skipping unreadable ones, yields the dictionary of every readable file's lines applied in order |
| MunicLoader.LoadLines | src/utils/munic_dict_loader.py:28-59 | the line loop of one file applies that file's line entries in order to the dictionary so far |
| MunicLoader.ApplyAppend | src/utils/munic_dict_loader.py:23-59 | applying the entries of one file after another is applying their concatenation |
| MunicLoader.LoadAllEntries | src/utils/munic_dict_loader.py:21-64 | reading the files one by one equals applying all their lines as a single list to the empty dictionary |
| MunicLoader.NoFiles | src/utils/munic_dict_loader.py:18-21 | with no matching file the dictionary is empty |
| MunicLoader.AllEntriesCodes | src/utils/munic_dict_loader.py:44-55 | every entry any line of any file gives has a six-digit code |
| MunicLoader.ApplyKeys | src/utils/munic_dict_loader.py:59 | the keys entries add to a dictionary are six-digit codes |
| MunicLoader.LoadAllKeys | src/utils/munic_dict_loader.py:12-66 | every key of the loaded dictionary is a six-digit code |
| MunicLoader.ApplyUntouched | src/utils/munic_dict_loader.py:59 | a code no entry gives keeps its membership and value |
| MunicLoader.ApplyLastWins | src/utils/munic_dict_loader.py:59 | the last entry that gives a code decides that code's name |
| MunicLoader.LoadAllLastWins | src/utils/munic_dict_loader.py:12-66 | across all files a line's code is a key and maps to its name when no later line gives the same code |
| MunicLoader.LoadAllUntouched | src/utils/munic_dict_loader.py:12-66 | a code that no line of any file gives is not a key |
| ManageDb.ChunksFrom | scripts/manage_db.py:19-33 | reading from a position cuts non-empty chunks of at most the chunk size, all but the last exactly that size, and none at all exactly when the position is at the end |
| ManageDb.FlattenChunks | scripts/manage_db.py:19-33 | the chunks concatenated give back the bytes from the starting position |
| ManageDb.ChunksCount | scripts/manage_db.py:19-33 | the number of chunks k satisfies (k-1)·size < remaining bytes <= k·size |
| ManageDb.DecimalBelowThousand | scripts/manage_db.py:26 | an index below 1000 has at most three decimal digits |
| ManageDb.PaddedIndexLength | scripts/manage_db.py:26 | the zero-padded part index below 1000 is exactly three characters |
| ManageDb.PartNameOrder | scripts/manage_db.py:26 | part names of indices below 1000 sort lexicographically in index order |
| ManageDb.PartNameMatches | scripts/manage_db.py:26 | every part name matches the "sinan.duckdb.part" prefix that join_database globs for |
| ManageDb.NamedFromParts | scripts/manage_db.py:26-30 | the i-th part written is named with index k+i and holds the i-th chunk |
| ManageDb.SplitDatabase | scripts/manage_db.py:8-35 | without the database nothing is written; otherwise the parts written are the named chunks of the file |
| ManageDb.ReadParts | scripts/manage_db.py:19-33 | the read loop writes each chunk under the next numbered part name, in order |
| ManageDb.SplitPartsShape | scripts/manage_db.py:19-33 | the split has (k-1)·CHUNK_SIZE < size <= k·CHUNK_SIZE parts, none for an empty file, full parts but the last, a non-empty last part, and part i named with index i |
| ManageDb.Insert | scripts/manage_db.py:44 | inserting a name adds exactly that name to the multiset of names |
| ManageDb.InsertSorted | scripts/manage_db.py:44 | inserting into a sorted list keeps it sorted |
| ManageDb.SortNames | scripts/manage_db.py:44 | sorted() returns a lexicographically sorted permutation of the names |
| ManageDb.SortedUnique | scripts/manage_db.py:44 | two sorted lists with the same multiset are equal, so the sorted order is determined |
| ManageDb.Matching | scripts/manage_db.py:44 | the glob keeps exactly the listed names with the part prefix, each as often as it is listed |
| ManageDb.JoinedNames | scripts/manage_db.py:44 | the parts to join are the matching names, sorted, and a name is among them exactly when it is listed and has the part prefix |
| ManageDb.JoinResultSome | scripts/manage_db.py:46-48 | joining produces output exactly when some listed name has the part prefix |
| ManageDb.JoinDatabase | scripts/manage_db.py:37-59 | the result is True exactly when output was written, and that output is the sorted matching parts' contents concatenated |
| ManageDb.PartsContents | scripts/manage_db.py:52-56 | concatenating the files named by parts gives the concatenation of the parts' bytes |
| ManageDb.PartNamesSorted | scripts/manage_db.py:26 | at most 1000 names given by index are sorted and each occurs once |
| ManageDb.SplitPartsAtMostThousand | scripts/manage_db.py:19-33 | a file of at most 1000 chunks splits into at most 1000 parts |
| ManageDb.SplitNamesMatch | scripts/manage_db.py:26 | every part the split writes matches the join glob |
| ManageDb.MatchingExactly | scripts/manage_db.py:44 | when the directory holds exactly the split's parts, each listed once, the glob finds exactly those parts |
| ManageDb.JoinedNamesOfSplit | scripts/manage_db.py:8-59 | the join reads back the split's parts in the order they were written |
| ManageDb.SplitJoinRoundTrip | scripts/manage_db.py:8-59 | splitting a non-empty file of at most 1000 parts and joining its parts gives the file back; an empty file leaves nothing to join |
| StatusCasos.CurrentStatus | scripts/analise_status_casos.py:81-94 | a missing or empty value is not informed |
| StatusCasos.CurrentCodes | scripts/analise_status_casos.py:85-94 | after strip and upper-case, a value is closed, abandoned or ignored exactly when it is one of that status's three codes; otherwise it is other with its normalised text |
| StatusCasos.CurrentBlank | scripts/analise_status_casos.py:83-85 | a blank value is not caught by the empty test and becomes other with empty text |
| StatusCasos.SuggestedStatus | scripts/analise_status_casos.py:153-157 | a missing value is not informed |
| StatusCasos.SuggestedRefinesCurrent | scripts/analise_status_casos.py:156-163 | wherever the current mapping recognises a code, the suggested one gives the same status |
| StatusCasos.SuggestedPrefixes | scripts/analise_status_casos.py:164-169 | text starting Y04, Y08 or Y09 is closed, abandoned or ignored whatever follows |
| StatusCasos.SuggestedDigits | scripts/analise_status_casos.py:170-179 | a digit string is classified by its integer value, 4, 8 and 9 by status and any other as that code |
| StatusCasos.NonNull | scripts/analise_status_casos.py:147 | dropna keeps exactly the present values |
| StatusCasos.Unique | scripts/analise_status_casos.py:147 | unique keeps each value of the column once and loses none |
| StatusCasos.SuggestedValues | scripts/analise_status_casos.py:147-152 | the values looked at are at most fifty distinct present values of the column |
| StatusCasos.SuggestMapping | scripts/analise_status_casos.py:150-181 | the suggested mapping has exactly the first fifty distinct present values as keys, at most fifty of them, each mapped to its suggested status |
| StatusCasos.DistinctCard | scripts/analise_status_casos.py:152 | distinct values make a set of the same size, so the mapping has as many keys as values looked at |
| DuckdbProcessor.ViolentIn | src/processors/sinan_data_processor_duckdb.py:159-174 | the kept-row test is exactly "some available violence column holds a violent value" |
| DuckdbProcessor.ViolenceMask | src/processors/sinan_data_processor_duckdb.py:163-168 | one entry per row, true exactly when the row's value in that column reads '1', 'SIM', 'S' or '1.0' or is the number 1 |
| Preprocess.RelKinds | scripts/preprocess_data.py:126-130 | the kinds listed are exactly the titled names of the REL_ columns marked '1' or 'Sim', no more than there are columns |
| Preprocess.EncLabels | scripts/preprocess_data.py:165-177 | the labels listed are exactly the names of the referral columns holding 1, no more than there are columns |
| DashboardFilters.DerivedCheckAlwaysDerived | src/dashboard_sinan_real_data.py:162-168 | a table holding every column the derivation always adds passes the derived-column check with nothing missing |

## Left out

- File and database I/O: reading Parquet, CSV and `.cnv` files, DuckDB execution, writing Parquet and JSON metadata. File listings, file contents, the columns a table has and query results are parameters. Queries are modelled as the text they would run.
- Calendar parsing by `pd.to_datetime` is a parameter `parse` from text to a timestamp. A timestamp keeps its day number, its year and its text. The model keeps only what is done around the parse: missing markers, the YYYYMMDD text, and the day difference with its [0, 3650] bound.
- ComprehensiveDerived.ToDatetime: this step, also used by the preprocessing's date step, parses a `Num` cell from its decimal text. `pd.to_datetime` on an integer column reads the integers as nanoseconds since the epoch. That reading is not modelled, and no proved property depends on it.
- Float arithmetic: percentages, the memory and size reports, `formatar_numero_br`, and the dtype down-casting of the preprocessing run.
- The Streamlit interface: page layout, charts, widgets and caching. The sidebar selections are parameters of the filter step. The 100-municipality limit on the option list is presentation and is not modelled.
- Case conversion and regular expressions cover ASCII and the Latin-1 letters only. `\s` and `\d` in the dashboard's age pattern are ASCII whitespace and digits.
- Frames.CellText, ComprehensiveDicts.DecodeCell: a cell has one missing value, and `astype(str)` renders it as 'nan'. pandas renders a missing value as 'None' in a text column read from Parquet and as 'nan' in a numeric one. The model keeps only 'nan', so a decoded missing value of a text column reads 'nan' here where the program reads 'None'. The age filter and the band of a missing age (Preprocess.AgeMaskKeeps, Preprocess.KeepsDecodedRawAge, Preprocess.FaixaOfDecodedMissing) accept both texts as missing.
- ComprehensiveDerived.ParseInteger, ComprehensiveDerived.ToNumeric: only an optionally negative decimal digit text is read as a number. `pd.to_numeric(errors='coerce')` also reads '+2020', ' 2020 ', '2020.0' and exponent forms. The model turns those into missing values. NU_ANO holds plain digit text, so the year fallback is unaffected for it.
- Text.IsSpace, Text.IsDigit: both are ASCII only. Python's `strip()`, `split()` and `isspace()` also treat \x1c-\x1f, \x85 and the Latin-1 \xa0 as whitespace. `isdigit()` also accepts the Latin-1 superscripts '¹', '²' and '³', on which the following `int()` raises ValueError. Neither is modelled. Members that depend on them read such text as non-space, non-digit text and take the "not digits" branch: Text.Strip, Text.SplitWhitespace, Text.IsDigits, MunicLoader.FirstCode, MunicLoader.ParseLine, StatusCasos.CurrentOf, StatusCasos.SuggestedOf, both copies of `map_uf` (ComprehensiveDerived.MapUf, DashboardDerived.MapUf), and the referral tests (ComprehensiveDerived.ReferredByPaddedOne, Preprocess.Referred).
- `str.contains` in the sidebar's violence-type filter reads the selected type as a regular expression. The type labels hold no regular-expression metacharacters, so it is modelled as a plain substring test.
- `replace([...], None)` on an object column in the dashboard's date step forward-fills in some pandas versions. It is modelled as replacing the value by a missing one.
- pandas dtype dispatch is represented by the cell kinds. A numeric column holds integer `Num` cells, so float values are not modelled, and `== 1` tests for `Num(1)`.
- The `int(float(val))` parse in `map_uf` accepts digits with at most one decimal point. Signs, exponents and other `float()` syntax fall through to the stripped text.
- ComprehensiveDerived.MapUfNumericText, ComprehensiveDerived.PaddedCode, ComprehensiveDerived.IntegerPartDigits and the dashboard's copy of `map_uf` (DashboardDerived.MapUfMatchesProcessor): `int(float(val))` is read as the digits before the point, exactly. Python's double rounding is not modelled: '34.99999999999999999' becomes 35.0 in Python but reads as 34 here, and integers beyond 2^53 lose precision in Python but not here.
- A KeyError from a selected state or municipality column that is missing is modelled as no row matching. Year values that are not numbers are dropped by the year filter rather than raising.
- The `MinimalProcessor` fallback of the dashboard, the fallback loading paths that catch exceptions, and the exception handlers are left out. Each caught error is modelled by the result the handler returns, where that result is part of a modelled operation.
- The adapter's class header and constructor are missing from `src/processors/sinan_duckdb_adapter.py`. The connection is therefore a parameter and there is no constructor to model. Its `municipio` and `violence_type` arguments are accepted and, as in the source, never reach the query.
- Column order: a subset such as `df[available_columns]` is modelled as the list of selected names. New columns are appended at the end, as pandas does.
- Printing, logging and progress messages are left out.
- Preprocess.PreprocessedRows and Preprocess.Preprocessed describe the run with the corrected age filter and age bands. The run as written returns False on any data with NU_IDADE_N and a row (Preprocess.PreprocessFailsWithAges), so it never hands those rows on.
- The operational scripts (`start_railway.py`, `run_dashboard.py`, cache cleaning, the verification and exploration scripts, the snapshot creator) are not part of this model.

## Findings

| source | as written | input that shows it | evidently intended | confidence | as-written member | corrected member |
|---|---|---|---|---|---|---|
| src/processors/sinan_data_processor_duckdb.py:143 | the age list is '4000' followed by '400' + str(i) for i in 1..17, which gives '40010'..'40017' for ages 10 to 17 | NU_IDADE_N = '4015' (15 years) is not in the IN list, so every record aged 10 to 17 is dropped | the 18 codes '4000'..'4017' that the age dictionary and the adapter use | high, not executed | DuckdbProcessor.DuckAgeCodesMissTeens | DuckdbProcessor.AgeCodeListMatchesDictionary |
| scripts/preprocess_data.py:84-92 | the age mask compares NU_IDADE_N with 0 and 18 after apply_dictionaries has turned every age into text | any decoded table with an age column and a row, e.g. NU_IDADE_N = '05 anos': comparing a str with an int raises TypeError | keep rows aged 0 to 17, and rows without an age (NaN, 'nan' or 'None'), on the decoded labels | high, not executed | Preprocess.AgeMaskFailsOnDecoded | Preprocess.AgeMaskKeeps |
| scripts/preprocess_data.py:101-118 | get_age_group takes any value that is not an int or float as age 0 | the decoded '15 anos' (age 15) is grouped as '0-1 anos' | the band of the decoded age, '14-17 anos' for 15 | high, not executed | Preprocess.AgeGroupAsWrittenOnDecoded | Preprocess.FaixaOfDecodedAge |
| src/dashboard_sinan_real_data.py:369-387 | process_date_column turns every value into text and parses it as YYYYMMDD, including values that are already timestamps | a preprocessed DT_NOTIFIC timestamp, whose text after astype(str) is '2020-01-05' (or '2020-01-05 08:30:00' with a time), comes out missing; this rests on pandas parsing with format='%Y%m%d' strictly, as the requires on the parser states | keep a value that is already a timestamp | medium, not executed | DashboardDerived.CleanDateAsWrittenDropsTimestamps | DashboardDerived.CleanDateIdempotent |
