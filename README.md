# colombia-nit-api: the NIT lookup, modelled in Dafny

The service looks up a Colombian company by its NIT (tax identification number).
It draws on two public registries: datos.gov.co and RUES (the Registro Único
Empresarial y Social). The result is one consolidated `Empresa` record. The model
covers the three core files: the two source adapters and the orchestrator
(`src/services.py`), the pydantic records (`src/models.py`), and the two exception
types (`src/exceptions.py`).

- `wrappers.dfy`: the `Option` and `Result` datatypes.
- `exceptions.dfy` (module `Exceptions`): `NitNotFoundError` and `DataSourceError`.
  Each is a datatype holding its constructor arguments. Its `str()` message is a
  member function.
- `models.dfy` (module `Models`) has three parts:
  - `Ciiu`, a code/description pair with `None` defaults.
  - The `Empresa` record. `Empresa(**kwargs)` is modelled as `NewEmpresa`, a function
    from a keyword map to either a record or a validation error. Keywords are
    `EmpresaField` constructors, and values are `None`, a string, a `Ciiu` or a list of
    strings. `NewEmpresa` type-checks every keyword, fills in the declared defaults and
    strips surrounding whitespace from every string other than those inside a `Ciiu`
    (`str_strip_whitespace=True`).
  - The whitespace trimming itself, with its properties: it strips exactly the
    surrounding whitespace, it is idempotent, and it fixes stripped strings.
- `services.dfy` (module `Services`):
  - `DatosGovCoService` and `RuesService` are classes with their `base_url`. The
    network is a parameter: `consultar` is a function of the response its one request
    would get. A response is a transport failure, an unparsable body, or the parsed
    JSON. The adapter's outcome is a record, no data, or a raised `DataSourceError`.
  - `ConsultaNitService.ConsultarNit` follows `consultar_nit` step by step:
    - it queries datos.gov.co;
    - it queries RUES only when the datos.gov.co record is non-empty, passing that
      record's `codigo_camara` and `matricula`;
    - it propagates the first `DataSourceError`;
    - it raises `NitNotFoundError` when neither source has data;
    - otherwise it merges.
  - `UnificarDatos` is `_unificar_datos`. Its helper method `EmpresaData` fills the
    `empresa_data` dictionary one assignment at a time, as the source does: `fuentes`
    by appends, the renamed scalars, the primary CIIU members with their defaults, the
    primary CIIU object and the three RUES slots. `UnificarDatos` then calls `Empresa(**empresa_data)`.
  - The merge is specified by the predicate `MergedFrom`, and `MergedFromUnique` shows
    that it admits exactly one record. What it says:
    - datos.gov.co wins wherever its value is truthy, and RUES fills the rest;
    - `nit` is always the argument;
    - the primary CIIU code and description each default independently;
    - the three secondary CIIU slots come from RUES alone;
    - `fuentes` lists each source with non-empty data once, datos.gov.co first.

Python truthiness is modelled explicitly:
- a string value is truthy when it is present and not `""`;
- a record is truthy when it has at least one key;
- `a or b` is `Or`;
- `dict.get` is `Get`, and it gives `None` for a missing key and for a JSON `null` alike.

Four behaviours of the code are easy to misread; the model follows the code:
- **The RUES key is not always 12 characters.** When the chamber code and the
  registration number together exceed 12 characters, `'0' * (12 - n)` is empty and the
  key is just the two joined, so it is longer than 12. `CodigoRues` states both cases.
- **The `IndexError` branch can never be taken.** The datos.gov.co adapter returns
  `None` for an empty list before it indexes anything, so an empty array never takes
  the `IndexError` path. The model has no such error path.
- **A `null` `registros` gives no data.** In a successful RUES answer, a `registros`
  member that is present but `null` gives `None` (no data) rather than an empty record,
  because `data.get("registros", {})` returns the `null`.
- **The primary CIIU object keeps the padding.** `ciiu_principal` is built from the
  primary code and description before `Empresa` strips them, and `Ciiu` has no stripping
  of its own. A padded value therefore stays padded inside `ciiu_principal`, while the
  flat `cod_ciiu_act_econ_pri` holds it stripped (`CiiuPrincipalKeepsPadding`).

## Model

| member | source | states |
|---|---|---|
| Exceptions.NitNotFoundError.Message | src/exceptions.py:7 | the message is exactly the fixed prefix `No se encontró información para el NIT: ` followed by the NIT |
| Exceptions.DataSourceError.Message | src/exceptions.py:17 | the message is exactly `Error en la fuente de datos '`, the source name, `': ` and the text of the caught exception, in that order |
| Exceptions.NotFoundMessageRoundTrip | src/exceptions.py:5-7 | reading the NIT back out of a `NitNotFoundError` message gives exactly the NIT it was built with, so different NITs never share a message |
| Exceptions.NotFoundMessageContainsNit | src/exceptions.py:5-7 | the `NitNotFoundError` message contains the NIT |
| Exceptions.DataSourceMessageNamesSource | src/exceptions.py:14-17 | the `DataSourceError` message starts with the fixed prefix and the quoted source name, and contains the source name |
| Models.Strip | src/models.py:37 | the stripped string has no surrounding whitespace and is no longer than the input |
| Models.StripPadded | src/models.py:37 | a stripped text padded with whitespace on either side strips back to exactly that text |
| Models.StripFixesStripped | src/models.py:37 | stripping leaves a string unchanged if and only if it has no surrounding whitespace |
| Models.StripIdempotent | src/models.py:37 | stripping twice is the same as stripping once |
| Models.CiiuDefaults | src/models.py:9-10 | `Ciiu()` has both members `None`, and giving one member leaves the other `None` |
| Models.NewEmpresa | src/models.py:13-37 | construction succeeds if and only if every attribute is given a value of its declared type or has a default; a failure names exactly the attributes that do not; on success every attribute reads back as the supplied value, stripped, or as its default |
| Models.NitIsRequired | src/models.py:18 | without `nit` the construction fails and names `nit` |
| Models.BareEmpresa | src/models.py:17-35 | `Empresa(nit=n)` has every optional scalar `None`, primary code "9999", primary description "Actividad No Homologada CIIU v4", empty `Ciiu()` in all four CIIU slots, no sources, and `nit` stripped |
| Models.FieldValuesDetermine | src/models.py:17-35 | two records with the same value for every attribute are equal |
| Models.RebuildRoundTrip | src/models.py:13-37 | rebuilding a record from its own attributes gives the same record back when its strings are already stripped |
| Models.NewEmpresaIsNormal | src/models.py:37 | every string of a constructed record, in the scalars and in `fuentes`, is stripped whatever was supplied |
| Services.GetValorPrefersGov | src/services.py:134-135 | `get_valor` gives the datos.gov.co value when it is truthy and the RUES value otherwise; the result is truthy if and only if one of the two sources has a truthy value |
| Services.Zeros | src/services.py:73 | `'0' * n` is n zeros when n is positive and empty otherwise |
| Services.CodigoRues | src/services.py:72-74 | the RUES key starts with the chamber code, ends with the registration number and has only zeros between them; it is exactly 12 long when the two fit, and it is the two joined when they do not |
| Services.CodigoRuesUnique | src/services.py:72-74 | any string with the properties in the `CodigoRues` contract is the key |
| Services.CodigoRuesExample | src/services.py:72-74 | chamber "12" and registration "12345" give the key "120000012345" |
| Services.DatosGovCoService.constructor | src/services.py:32-33 | the adapter keeps the base URL it is given, with the public datos.gov.co endpoint as default |
| Services.DatosGovCoService.UrlDeterminesNit | src/services.py:36 | `Url(nit)` is the base URL, `?nit=` and the NIT; different NITs give different request URLs, so a response answers the request for exactly one NIT |
| Services.DatosGovCoService.Consultar | src/services.py:35-51 | it raises a `DataSourceError` naming datos.gov.co, carrying the caught exception, exactly when the request or the parsing fails; it gives `None` exactly for an empty array; otherwise it gives the first record |
| Services.RuesService.constructor | src/services.py:60-61 | the adapter keeps the base URL it is given, with the public RUES endpoint as default |
| Services.RuesService.RequestUrl | src/services.py:64-76 | no request is made exactly when the chamber code or the registration number is missing or empty; otherwise the URL is the base URL, `/` and the RUES key |
| Services.RuesService.Consultar | src/services.py:63-93 | without both hints it gives `None` whatever the response; with them it raises a `DataSourceError` naming RUES exactly when the request or the parsing fails; it gives data exactly when `codigo_error` is "0000" and `registros` is not `null`, namely `registros`, or `{}` when that member is missing; any other code gives `None` and is not an error |
| Services.PrimaryValue | src/services.py:154-155 | a primary CIIU member is the datos.gov.co value if truthy, else the RUES value if truthy, else the default; it is never empty when the default is not |
| Services.PrimaryStrippedIsStrip | src/services.py:154-155 | stripping the chosen primary value is the same as choosing among the stripped values, because the default is already stripped |
| Services.RuesSlot | src/services.py:169-192 | a secondary CIIU slot is the empty `Ciiu()` exactly when RUES has neither a truthy code nor a truthy description under its keys; otherwise it holds both raw RUES values, a missing one as `None` |
| Services.FuentesListMerged | src/services.py:127-131 | the list built by the two appends names each source exactly when its data is non-empty, without duplicates, datos.gov.co first |
| Services.FuentesShape | src/services.py:127-131 | any list meeting those three conditions is exactly the list the two appends build |
| Services.MergeRecordScalars | src/services.py:138-149 | the merged record gives each renamed attribute `get_valor` of its datos.gov.co and RUES keys, stripped |
| Services.MergedFromIsMergeRecord | src/services.py:123-195 | every record meeting the merge specification is the one record written out attribute by attribute |
| Services.MergedFromUnique | src/services.py:123-195 | two records that both meet the merge specification for the same inputs are equal |
| Services.CiiuPrincipalNeverEmpty | src/services.py:158-167 | after the merge, `ciiu_principal` has a truthy code and a truthy description, so its empty `Ciiu()` branch is never taken |
| Services.CiiuDefaultsWhenAbsent | src/services.py:153-165 | when neither source has a primary CIIU code or description, the flat members and `ciiu_principal` all take the defaults "9999" and "Actividad No Homologada CIIU v4" |
| Services.CiiuPrincipalKeepsPadding | src/services.py:153-165 | a datos.gov.co primary code padded with whitespace is stored stripped in `cod_ciiu_act_econ_pri` but padded in `ciiu_principal` |
| Services.GovOnlyMerge | src/services.py:127-192 | with RUES silent, `fuentes` is just datos.gov.co, all three secondary slots are empty, and each renamed scalar is the datos.gov.co value when truthy and `None` otherwise |
| Services.BothSourcesMerge | src/services.py:133-192 | with both sources answering, datos.gov.co's name and legal organisation win, RUES fills in the company type and the first secondary slot, absent values stay `None`, the missing primary description defaults, and `fuentes` lists both in query order |
| Services.BothSourcesScenario | src/services.py:123-195 | the two-source example (datos.gov.co with name, primary code and RUES hints; RUES with another name, company type and secondary CIIU pair) merges to the expected record for any NIT |
| Services.EmpresaDataFilled | src/services.py:137-192 | after the renamed scalars, `nit`, `fuentes` and the six later assignments, the dictionary has a keyword for every attribute, each holding the value the merge assigns it |
| Services.MergeKwargsAcceptable | src/services.py:195 | every keyword of the merged dictionary has its attribute's declared type |
| Services.MergeKwargsBuild | src/services.py:195 | `Empresa(**empresa_data)` on that dictionary succeeds, and the record meets the merge specification |
| Services.MergedFuentes | src/services.py:150 | the source names have no surrounding whitespace, so the record keeps `fuentes` as built |
| Services.ConsultaNitService.constructor | src/services.py:100-102 | the orchestrator keeps the two adapters it is given |
| Services.ConsultaNitService.ConsultarNit | src/services.py:104-121 | RUES is queried, with datos.gov.co's chamber code and registration number, exactly when datos.gov.co gives a non-empty record; an adapter's `DataSourceError` is propagated unchanged, datos.gov.co's first; without data from either source the result is `NitNotFoundError(nit)`; otherwise it is the merge of the datos.gov.co record and the RUES record, or `{}` |
| Services.ConsultaNitService.UnificarDatos | src/services.py:123-195 | the result is the record the merge specification describes, which is the only one |
| Services.ConsultaNitService.EmpresaData | src/services.py:127-192 | the dictionary built step by step has a keyword for every attribute, each holding the value the merge assigns it |

## Left out

- HTTP itself (`requests.get`, the 10-second timeout, `raise_for_status`) and the JSON
  decoder are not modelled. The adapters take the response as a parameter: a transport
  failure, an unparsable body, or a parsed body.
- Logging (`logging.error` and `logging.warning`) is not modelled. It has no effect on
  results.
- `DataSource` is an abstract base class with one abstract method. The orchestrator
  holds the two concrete adapters instead, because the core only ever uses these two.
- JSON bodies other than the shapes above are not modelled: a datos.gov.co body that is
  not an array of objects, a RUES body that is not an object, and values other than
  strings and `null` (records map keys to optional strings). For some of these the code
  gives no data: a falsy datos.gov.co body (`null`, `{}`, `""`, `0`, `false`) returns
  `None`, and a falsy first element (`[null]`, `[0]`, `[""]`, `[[]]`) is returned and
  then treated as no data, ending in `NitNotFoundError`. A RUES body whose
  `codigo_error` is not a string (`1001`, `0`) never equals "0000" and gives `None`.
  A RUES body with code "0000" whose `registros` is falsy but not an object (`[]`,
  `""`, `0`, `false`) gives no data, like `null`: the merge goes ahead with
  datos.gov.co alone. Other bodies of the wrong shape make the code raise `KeyError`,
  `TypeError` or `AttributeError` rather than `DataSourceError`. A falsy non-string
  value (`0`, `false`, `[]`, `{}`) from datos.gov.co makes `get_valor` fall back to RUES. Under a primary CIIU key it gives way to RUES or the
  default. In a CIIU slot whose other member is falsy too it counts as absent. Any
  non-string value that `Empresa(**empresa_data)` or `Ciiu(...)` receives, falsy or
  not, makes pydantic raise `ValidationError`: for example a RUES fallback
  `{"razon_social": 0}`, a slot `(0, "X")`, or datos.gov.co `{"razon_social": 5}`,
  because pydantic does not turn a number into a string.
- `str(codigo_camara)` of non-string hints is not modelled: the hints are strings.
- The contents of `original_exception` are not modelled. It is an opaque token that
  keeps a class name and its `str()` text.
- Keyword arguments that `Empresa` does not declare cannot be written, because keywords
  are `EmpresaField` constructors. The merge passes none.
- Pydantic coercion of `Ciiu` from a dict, `validate_assignment`, and `model_dump_json`
  are not modelled. The merge passes `Ciiu` instances and never assigns attributes
  after construction.
- `Models.Strip`: it strips the Unicode White_Space characters that pydantic's trimming
  removes. It does not strip the ASCII separators U+001C..U+001F, which Python's
  `str.strip` would. No other normalisation is modelled.
- Key and attribute order of dictionaries and of the JSON output is not modelled.
  `fuentes` is a list and keeps its order.
- The serverless handlers (Azure Functions, AWS Lambda, Google Cloud Functions) are not
  modelled. They are callers of the core.
- Services.DatosGovCoService.Url: the URL builder carries no contract of its own. Its
  property is stated by `Services.DatosGovCoService.UrlDeterminesNit`.
- Services.GetValor: the helper carries no contract of its own. Its properties are
  stated by `Services.GetValorPrefersGov`.
- Services.ConsultaNitService.EmpresaData: the source builds the dictionary inline in
  `_unificar_datos`. The model gives it its own method so that its filling-in is
  proved apart from the construction of `Empresa`.
- Services.ConsultaNitService.ConsultarNit: the result records whether RUES was
  queried in a ghost out-parameter. The query's hint values are stated through
  `RuesOutcome`.
