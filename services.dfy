/** The NIT lookup (src/services.py): two source adapters, datos.gov.co and RUES, and the
    orchestrator that queries them in turn and merges what they return into one `Empresa`.

    The network is not modelled. Each adapter takes as a parameter the response its one
    request would receive: a transport failure, a body that does not parse, or a parsed
    JSON body. Only the parts of the body the code reads are kept. */
module Services {
  import opened Wrappers
  import opened Exceptions
  import opened Models

  /** The source name datos.gov.co errors and `fuentes` entries carry. */
  const GovSourceName: string := "datos.gov.co"

  /** The source name RUES errors and `fuentes` entries carry. */
  const RuesSourceName: string := "rues.org.co"

  const DefaultGovBaseUrl: string := "https://www.datos.gov.co/resource/c82u-588k.json"
  const DefaultRuesBaseUrl: string := "https://ruesapi.rues.org.co/WEB2/api/Expediente/DetalleRM"

  /** The length of a RUES key when chamber code and registration number fit in it. */
  const RuesKeyLength: int := 12

  /** The `codigo_error` of a successful RUES answer. */
  const RuesSuccessCode: string := "0000"

  // ---------------------------------------------------------------------------
  // JSON records and Python truthiness
  // ---------------------------------------------------------------------------

  /** A JSON object as an adapter returns it: string keys, string or null values. */
  type Record = map<string, Option<string>>

  /** `m.get(k)`: None for a missing key and for a null value alike. */
  function Get(m: Record, k: string): Option<string>
  {
    if k in m then m[k] else None
  }

  /** Python truthiness of an optional string: neither None nor "". */
  predicate Truthy(v: Option<string>)
  {
    v.Some? && v.value != ""
  }

  /** Python's `a or b` on optional strings. */
  function Or(a: Option<string>, b: Option<string>): Option<string>
  {
    if Truthy(a) then a else b
  }

  /** `get_valor(key_gov, key_rues)`: `gov_data.get(key_gov) or rues_data.get(key_rues)`. */
  function GetValor(gov_data: Record, rues_data: Record, key_gov: string, key_rues: string): Option<string>
  {
    Or(Get(gov_data, key_gov), Get(rues_data, key_rues))
  }

  /** datos.gov.co's value wins whenever it is truthy; otherwise RUES's value is taken,
      whatever it is. The result is truthy exactly when one of the two sources has a
      truthy value. */
  lemma GetValorPrefersGov(gov_data: Record, rues_data: Record, key_gov: string, key_rues: string)
    ensures Truthy(Get(gov_data, key_gov)) ==> GetValor(gov_data, rues_data, key_gov, key_rues) == Get(gov_data, key_gov)
    ensures !Truthy(Get(gov_data, key_gov)) ==> GetValor(gov_data, rues_data, key_gov, key_rues) == Get(rues_data, key_rues)
    ensures Truthy(GetValor(gov_data, rues_data, key_gov, key_rues))
        <==> Truthy(Get(gov_data, key_gov)) || Truthy(Get(rues_data, key_rues))
  {
  }

  // ---------------------------------------------------------------------------
  // The RUES key
  // ---------------------------------------------------------------------------

  /** `'0' * n`: n zeros, none when n is not positive. */
  function Zeros(n: int): (r: string)
    ensures |r| == if n > 0 then n else 0
    ensures forall i :: 0 <= i < |r| ==> r[i] == '0'
  {
    if n <= 0 then "" else Zeros(n - 1) + "0"
  }

  /** `codigo_rues`: the chamber code, then zeros, then the registration number. When the
      two fit in 12 characters the key is exactly 12 long; when they do not, no zero is
      added and the key is the two joined. */
  function CodigoRues(codigo_camara: string, matricula: string): (r: string)
    ensures |codigo_camara| + |matricula| <= RuesKeyLength ==> |r| == RuesKeyLength
    ensures |codigo_camara| + |matricula| > RuesKeyLength ==> r == codigo_camara + matricula
    ensures |r| >= |codigo_camara| + |matricula|
    ensures r[..|codigo_camara|] == codigo_camara
    ensures r[|r| - |matricula|..] == matricula
    ensures forall i :: |codigo_camara| <= i < |r| - |matricula| ==> r[i] == '0'
  {
    var relleno := Zeros(RuesKeyLength - (|codigo_camara| + |matricula|));
    assert relleno == [] ==> codigo_camara + relleno + matricula == codigo_camara + matricula;
    codigo_camara + relleno + matricula
  }

  /** The contract of `CodigoRues` pins the key down: any string with those properties is
      the key. */
  lemma CodigoRuesUnique(codigo_camara: string, matricula: string, s: string)
    requires |s| == if |codigo_camara| + |matricula| <= RuesKeyLength then RuesKeyLength else |codigo_camara| + |matricula|
    requires s[..|codigo_camara|] == codigo_camara
    requires s[|s| - |matricula|..] == matricula
    requires forall i :: |codigo_camara| <= i < |s| - |matricula| ==> s[i] == '0'
    ensures s == CodigoRues(codigo_camara, matricula)
  {
    var r := CodigoRues(codigo_camara, matricula);
    assert |r| == |s|;
    forall i | 0 <= i < |s| ensures s[i] == r[i] {
      if i < |codigo_camara| {
        assert s[i] == s[..|codigo_camara|][i] && r[i] == r[..|codigo_camara|][i];
      } else if i >= |s| - |matricula| {
        assert s[i] == s[|s| - |matricula|..][i - (|s| - |matricula|)];
        assert r[i] == r[|r| - |matricula|..][i - (|r| - |matricula|)];
      }
    }
  }

  /** Chamber "12" and registration "12345" give key "120000012345". */
  lemma CodigoRuesExample()
    ensures CodigoRues("12", "12345") == "120000012345"
  {
    var s := "120000012345";
    assert s[..2] == "12" && s[7..] == "12345";
    CodigoRuesUnique("12", "12345", s);
  }

  // ---------------------------------------------------------------------------
  // Responses and adapter outcomes
  // ---------------------------------------------------------------------------

  /** What one HTTP request yields. `RequestFailed` stands for every `RequestException`
      that `requests.get` or `raise_for_status` raises (connection error, timeout,
      non-2xx status); `Unparsable` for the `ValueError` of `response.json()`. */
  datatype Transport<B> =
    | RequestFailed(exc: OriginalException)
    | Unparsable(exc: OriginalException)
    | Parsed(body: B)

  /** datos.gov.co answers with a JSON array of records. */
  type GovResponse = Transport<seq<Record>>

  /** A member of a JSON object: missing, null, or present with a value. */
  datatype JsonMember<T> = Absent | Null | Present(value: T)

  /** The two members of a RUES answer the adapter reads. */
  datatype RuesBody = RuesBody(codigo_error: Option<string>, registros: JsonMember<Record>)

  type RuesResponse = Transport<RuesBody>

  /** What an adapter's `consultar` gives: a record, None, or a raised `DataSourceError`. */
  datatype Outcome = Data(record: Record) | NoData | Raised(error: DataSourceError)

  /** `if data:` on an adapter's result: a record with at least one key. */
  predicate HasData(o: Outcome)
  {
    o.Data? && o.record != map[]
  }

  /** `data or {}` on an adapter's result. */
  function OrEmpty(o: Outcome): Record
  {
    if o.Data? then o.record else map[]
  }

  /** `DatosGovCoService`: looks a NIT up in the datos.gov.co company registry. */
  class DatosGovCoService {
    const base_url: string

    constructor(base_url: string := DefaultGovBaseUrl)
      ensures this.base_url == base_url
    {
      this.base_url := base_url;
    }

    /** The URL requested for `nit`: the base URL with `nit` as query parameter. */
    function Url(nit: string): string
    {
      base_url + "?nit=" + nit
    }

    /** Different NITs give different request URLs, so each response answers the
        request for exactly one NIT. */
    lemma UrlDeterminesNit(nit1: string, nit2: string)
      ensures Url(nit1) == Url(nit2) ==> nit1 == nit2
    {
      if Url(nit1) == Url(nit2) {
        assert "?nit=" + nit1 == Url(nit1)[|base_url|..] == Url(nit2)[|base_url|..] == "?nit=" + nit2;
        assert nit1 == ("?nit=" + nit1)[5..];
        assert nit2 == ("?nit=" + nit2)[5..];
      }
    }

    /** `consultar(nit)`, given `response`, the answer to the one request it makes: a GET
        of `Url(nit)`. It raises a `DataSourceError` naming datos.gov.co, with the caught
        exception, exactly when the request or the parsing failed; it gives None exactly
        for an empty array, and otherwise the array's first record. */
    function Consultar(nit: string, response: GovResponse): (r: Outcome)
      ensures r.Raised? <==> !response.Parsed?
      ensures r.Raised? ==> r.error == DataSourceError(GovSourceName, response.exc)
      ensures r.NoData? <==> response == Parsed([])
      ensures r.Data? ==> response.Parsed? && |response.body| > 0 && r.record == response.body[0]
    {
      match response
      case RequestFailed(e) => Raised(DataSourceError(GovSourceName, e))
      case Unparsable(e) => Raised(DataSourceError(GovSourceName, e))
      case Parsed(data) => if data == [] then NoData else Data(data[0])
    }
  }

  /** `RuesService`: looks a company up in RUES by chamber code and registration number. */
  class RuesService {
    const base_url: string

    constructor(base_url: string := DefaultRuesBaseUrl)
      ensures this.base_url == base_url
    {
      this.base_url := base_url;
    }

    /** The URL `consultar` requests with these hints, or None when it makes no request
        because a hint is missing or empty. */
    function RequestUrl(codigo_camara: Option<string>, matricula: Option<string>): (u: Option<string>)
      ensures u.None? <==> !Truthy(codigo_camara) || !Truthy(matricula)
      ensures u.Some? ==> u.value == base_url + "/" + CodigoRues(codigo_camara.value, matricula.value)
    {
      if !Truthy(codigo_camara) || !Truthy(matricula) then None
      else Some(base_url + "/" + CodigoRues(codigo_camara.value, matricula.value))
    }

    /** `consultar(nit, codigo_camara=..., matricula=...)`, given the response to the
        request it makes. Without both hints it gives None whatever the response. With
        them it raises a `DataSourceError` naming RUES exactly when the request or the
        parsing failed; a parsed answer gives its `registros` (an empty record when the
        member is missing, None when it is null) if `codigo_error` is "0000", and None
        for any other code, which is not an error. */
    function Consultar(nit: string, codigo_camara: Option<string>, matricula: Option<string>, response: RuesResponse): (r: Outcome)
      ensures RequestUrl(codigo_camara, matricula).None? ==> r == NoData
      ensures RequestUrl(codigo_camara, matricula).Some? ==>
        && (r.Raised? <==> !response.Parsed?)
        && (r.Raised? ==> r.error == DataSourceError(RuesSourceName, response.exc))
        && (r.Data? <==> response.Parsed? && response.body.codigo_error == Some(RuesSuccessCode) && !response.body.registros.Null?)
        && (r.Data? && response.body.registros.Present? ==> r.record == response.body.registros.value)
        && (r.Data? && response.body.registros.Absent? ==> r.record == map[])
    {
      if !Truthy(codigo_camara) || !Truthy(matricula) then NoData
      else
        match response
        case RequestFailed(e) => Raised(DataSourceError(RuesSourceName, e))
        case Unparsable(e) => Raised(DataSourceError(RuesSourceName, e))
        case Parsed(data) =>
          if data.codigo_error == Some(RuesSuccessCode) then
            match data.registros
            case Absent => Data(map[])
            case Null => NoData
            case Present(registros) => Data(registros)
          else NoData
    }
  }

  // ---------------------------------------------------------------------------
  // The merge (`_unificar_datos`)
  // ---------------------------------------------------------------------------

  /** The keys datos.gov.co and RUES use for one scalar attribute. */
  datatype SourceKeys = SourceKeys(gov_key: string, rues_key: string)

  /** The merge's renaming table: for each scalar attribute `get_valor` fills in, the key
      it reads from each source; None for the attributes merged another way. */
  function ScalarKeys(f: EmpresaField): Option<SourceKeys>
  {
    match f
    case RazonSocial => Some(SourceKeys("razon_social", "razon_social"))
    case Dv => Some(SourceKeys("digito_verificacion", "dv"))
    case CamaraComercio => Some(SourceKeys("camara_comercio", "camara"))
    case Matricula => Some(SourceKeys("matricula", "matricula"))
    case Estado => Some(SourceKeys("estado_matricula", "estado"))
    case FechaMatricula => Some(SourceKeys("fecha_matricula", "fecha_matricula"))
    case FechaRenovacion => Some(SourceKeys("fecha_renovacion", "fecha_renovacion"))
    case UltimoAnoRenovado => Some(SourceKeys("ultimo_ano_renovado", "ultimo_ano_renovado"))
    case TipoSociedad => Some(SourceKeys("tipo_sociedad", "tipo_sociedad"))
    case OrganizacionJuridica => Some(SourceKeys("organizacion_juridica", "organizacion_juridica"))
    case _ => None
  }

  /** `get_valor` with the keys the renaming table gives the attribute `f` (None for an
      attribute outside the table). */
  function ValorOf(gov_data: Record, rues_data: Record, f: EmpresaField): Option<string>
  {
    match ScalarKeys(f)
    case Some(keys) => GetValor(gov_data, rues_data, keys.gov_key, keys.rues_key)
    case None => None
  }

  /** The scalar attribute `f` of the renaming table as the merge fills it in. */
  function MergedScalar(gov_data: Record, rues_data: Record, f: EmpresaField): Option<string>
  {
    StripOpt(ValorOf(gov_data, rues_data, f))
  }

  /** The attribute `f` of the renaming table read from `e`; None for the others. */
  function ScalarOf(e: Empresa, f: EmpresaField): Option<string>
  {
    match f
    case RazonSocial => e.razon_social
    case Dv => e.dv
    case CamaraComercio => e.camara_comercio
    case Matricula => e.matricula
    case Estado => e.estado
    case FechaMatricula => e.fecha_matricula
    case FechaRenovacion => e.fecha_renovacion
    case UltimoAnoRenovado => e.ultimo_ano_renovado
    case TipoSociedad => e.tipo_sociedad
    case OrganizacionJuridica => e.organizacion_juridica
    case _ => None
  }

  /** Each attribute of the renaming table holds the merged value under its keys. */
  predicate ScalarsMerged(e: Empresa, gov_data: Record, rues_data: Record)
  {
    forall f :: ScalarKeys(f).Some? ==> ScalarOf(e, f) == MergedScalar(gov_data, rues_data, f)
  }

  /** `get_valor(key, key) or default` for a primary CIIU member, which both sources name
      alike: datos.gov.co's value if truthy, else RUES's if truthy, else the default. The
      default is only taken when neither source has a truthy value. */
  function PrimaryValue(gov_data: Record, rues_data: Record, key: string, default: string): (r: string)
    ensures Truthy(Get(gov_data, key)) ==> r == Get(gov_data, key).value
    ensures !Truthy(Get(gov_data, key)) && Truthy(Get(rues_data, key)) ==> r == Get(rues_data, key).value
    ensures !Truthy(Get(gov_data, key)) && !Truthy(Get(rues_data, key)) ==> r == default
    ensures default != "" ==> r != ""
  {
    var v := GetValor(gov_data, rues_data, key, key);
    if Truthy(v) then v.value else default
  }

  /** The stripped value of a primary CIIU member: the chosen source value stripped, or the
      default, which has no surrounding whitespace to strip (`PrimaryStrippedIsStrip`). */
  function StrippedPrimary(gov_data: Record, rues_data: Record, key: string, default: string): string
  {
    var v := GetValor(gov_data, rues_data, key, key);
    if Truthy(v) then Strip(v.value) else default
  }

  /** `StrippedPrimary` is `Strip` applied after the default is chosen, as `Empresa`'s
      validation does, whenever the default itself is stripped. */
  lemma PrimaryStrippedIsStrip(gov_data: Record, rues_data: Record, key: string, default: string)
    requires IsStripped(default)
    ensures StrippedPrimary(gov_data, rues_data, key, default) == Strip(PrimaryValue(gov_data, rues_data, key, default))
  {
    StripFixesStripped(default);
  }

  /** A secondary CIIU slot, read from RUES alone: the raw code/description pair when
      either member is truthy, and the empty `Ciiu()` exactly when neither is. */
  function RuesSlot(rues_data: Record, key_codigo: string, key_descripcion: string): (c: Ciiu)
    ensures c == Ciiu() <==> !Truthy(Get(rues_data, key_codigo)) && !Truthy(Get(rues_data, key_descripcion))
    ensures c != Ciiu() ==> c == Ciiu(Get(rues_data, key_codigo), Get(rues_data, key_descripcion))
  {
    var codigo := Get(rues_data, key_codigo);
    var descripcion := Get(rues_data, key_descripcion);
    if Truthy(codigo) || Truthy(descripcion) then Ciiu(codigo, descripcion) else Ciiu()
  }

  predicate NoDuplicates(s: seq<string>)
  {
    forall i, j :: 0 <= i < j < |s| ==> s[i] != s[j]
  }

  /** The record `_unificar_datos(nit, gov_data, rues_data)` yields:
      - `nit` is the argument (stripped), never a source's value;
      - each scalar of the renaming table is datos.gov.co's value under its key when that
        is truthy, else RUES's value under its key (stripped);
      - the primary CIIU code and description each default on their own, and
        `ciiu_principal` holds the two chosen values as they were before stripping;
      - the three secondary CIIU slots come from RUES alone;
      - `fuentes` names each source exactly when its data is non-empty, once, with
        datos.gov.co first. */
  ghost predicate MergedFrom(e: Empresa, nit: string, gov_data: Record, rues_data: Record)
  {
    var codigo := PrimaryValue(gov_data, rues_data, "cod_ciiu_act_econ_pri", DefaultCiiuCode);
    var descripcion := PrimaryValue(gov_data, rues_data, "desc_ciiu_act_econ_pri", DefaultCiiuDescription);
    && e.nit == Strip(nit)
    && ScalarsMerged(e, gov_data, rues_data)
    && e.cod_ciiu_act_econ_pri == Some(StrippedPrimary(gov_data, rues_data, "cod_ciiu_act_econ_pri", DefaultCiiuCode))
    && e.desc_ciiu_act_econ_pri == Some(StrippedPrimary(gov_data, rues_data, "desc_ciiu_act_econ_pri", DefaultCiiuDescription))
    && e.ciiu_principal == Some(Ciiu(Some(codigo), Some(descripcion)))
    && e.ciiu2 == Some(RuesSlot(rues_data, "cod_ciiu_act_econ_sec", "desc_ciiu_act_econ_sec"))
    && e.ciiu3 == Some(RuesSlot(rues_data, "ciiu3", "desc_ciiu3"))
    && e.ciiu4 == Some(RuesSlot(rues_data, "ciiu4", "desc_ciiu4"))
    && (forall s :: s in e.fuentes <==>
          (s == GovSourceName && gov_data != map[]) || (s == RuesSourceName && rues_data != map[]))
    && NoDuplicates(e.fuentes)
    && (gov_data != map[] ==> e.fuentes != [] && e.fuentes[0] == GovSourceName)
  }

  /** A list without duplicates is no longer than the set its elements come from. */
  lemma {:induction false} NoDuplicatesBound(s: seq<string>, names: set<string>)
    requires NoDuplicates(s)
    requires forall i :: 0 <= i < |s| ==> s[i] in names
    ensures |s| <= |names|
  {
    if s != [] {
      forall i | 0 <= i < |s| - 1 ensures s[1..][i] in names - {s[0]} {
        assert s[1..][i] == s[i + 1];
      }
      NoDuplicatesBound(s[1..], names - {s[0]});
    }
  }

  /** The `fuentes` conditions of `MergedFrom` leave four lists: [], [datos.gov.co],
      [rues.org.co] and [datos.gov.co, rues.org.co]. */
  lemma FuentesShape(fuentes: seq<string>, gov_data: Record, rues_data: Record)
    requires forall s :: s in fuentes <==>
      (s == GovSourceName && gov_data != map[]) || (s == RuesSourceName && rues_data != map[])
    requires NoDuplicates(fuentes)
    requires gov_data != map[] ==> fuentes != [] && fuentes[0] == GovSourceName
    ensures fuentes == (if gov_data != map[] then [GovSourceName] else [])
                     + (if rues_data != map[] then [RuesSourceName] else [])
  {
    assert GovSourceName != RuesSourceName;
    var names := (if gov_data != map[] then {GovSourceName} else {})
               + (if rues_data != map[] then {RuesSourceName} else {});
    forall i | 0 <= i < |fuentes| ensures fuentes[i] in names {
      assert fuentes[i] in fuentes;
    }
    NoDuplicatesBound(fuentes, names);
    if gov_data != map[] && rues_data != map[] {
      assert RuesSourceName in fuentes;
      assert |fuentes| == 2;
      assert fuentes[1] in fuentes;
    } else if gov_data != map[] {
      assert |fuentes| == 1;
    } else if rues_data != map[] {
      assert RuesSourceName in fuentes;
      assert |fuentes| == 1;
    } else {
      assert |fuentes| == 0;
    }
  }

  /** The one record `MergedFrom` admits, written out attribute by attribute. */
  function MergeRecord(nit: string, gov_data: Record, rues_data: Record): Empresa
  {
    var codigo := PrimaryValue(gov_data, rues_data, "cod_ciiu_act_econ_pri", DefaultCiiuCode);
    var descripcion := PrimaryValue(gov_data, rues_data, "desc_ciiu_act_econ_pri", DefaultCiiuDescription);
    Empresa(
      MergedScalar(gov_data, rues_data, RazonSocial),
      Strip(nit),
      MergedScalar(gov_data, rues_data, Dv),
      MergedScalar(gov_data, rues_data, CamaraComercio),
      MergedScalar(gov_data, rues_data, Matricula),
      MergedScalar(gov_data, rues_data, Estado),
      MergedScalar(gov_data, rues_data, FechaMatricula),
      MergedScalar(gov_data, rues_data, FechaRenovacion),
      MergedScalar(gov_data, rues_data, UltimoAnoRenovado),
      MergedScalar(gov_data, rues_data, TipoSociedad),
      MergedScalar(gov_data, rues_data, OrganizacionJuridica),
      Some(Ciiu(Some(codigo), Some(descripcion))),
      Some(StrippedPrimary(gov_data, rues_data, "cod_ciiu_act_econ_pri", DefaultCiiuCode)),
      Some(StrippedPrimary(gov_data, rues_data, "desc_ciiu_act_econ_pri", DefaultCiiuDescription)),
      Some(RuesSlot(rues_data, "cod_ciiu_act_econ_sec", "desc_ciiu_act_econ_sec")),
      Some(RuesSlot(rues_data, "ciiu3", "desc_ciiu3")),
      Some(RuesSlot(rues_data, "ciiu4", "desc_ciiu4")),
      (if gov_data != map[] then [GovSourceName] else [])
        + (if rues_data != map[] then [RuesSourceName] else []))
  }

  /** Every record `MergedFrom` admits is `MergeRecord`. */
  lemma MergedFromIsMergeRecord(e: Empresa, nit: string, gov_data: Record, rues_data: Record)
    requires MergedFrom(e, nit, gov_data, rues_data)
    ensures e == MergeRecord(nit, gov_data, rues_data)
  {
    var m := MergeRecord(nit, gov_data, rues_data);
    FuentesShape(e.fuentes, gov_data, rues_data);
    MergeRecordScalars(nit, gov_data, rues_data);
    assert forall f :: ScalarKeys(f).Some? ==> ScalarOf(e, f) == ScalarOf(m, f);
    ScalarsDetermine(e, m);
  }

  /** `MergeRecord` fills in the renaming table as `ScalarsMerged` demands. */
  lemma MergeRecordScalars(nit: string, gov_data: Record, rues_data: Record)
    ensures ScalarsMerged(MergeRecord(nit, gov_data, rues_data), gov_data, rues_data)
  {
    var m := MergeRecord(nit, gov_data, rues_data);
    forall f | ScalarKeys(f).Some? ensures ScalarOf(m, f) == MergedScalar(gov_data, rues_data, f) {
      match f
      case RazonSocial =>
      case Dv =>
      case CamaraComercio =>
      case Matricula =>
      case Estado =>
      case FechaMatricula =>
      case FechaRenovacion =>
      case UltimoAnoRenovado =>
      case TipoSociedad =>
      case OrganizacionJuridica =>
      case _ =>
    }
  }

  /** Two records that agree on `ScalarOf` agree on every attribute of the renaming table. */
  lemma ScalarsDetermine(e1: Empresa, e2: Empresa)
    requires forall f :: ScalarKeys(f).Some? ==> ScalarOf(e1, f) == ScalarOf(e2, f)
    ensures e1.razon_social == e2.razon_social
    ensures e1.dv == e2.dv
    ensures e1.camara_comercio == e2.camara_comercio
    ensures e1.matricula == e2.matricula
    ensures e1.estado == e2.estado
    ensures e1.fecha_matricula == e2.fecha_matricula
    ensures e1.fecha_renovacion == e2.fecha_renovacion
    ensures e1.ultimo_ano_renovado == e2.ultimo_ano_renovado
    ensures e1.tipo_sociedad == e2.tipo_sociedad
    ensures e1.organizacion_juridica == e2.organizacion_juridica
  {
    assert ScalarOf(e1, RazonSocial) == ScalarOf(e2, RazonSocial);
    assert ScalarOf(e1, Dv) == ScalarOf(e2, Dv);
    assert ScalarOf(e1, CamaraComercio) == ScalarOf(e2, CamaraComercio);
    assert ScalarOf(e1, Matricula) == ScalarOf(e2, Matricula);
    assert ScalarOf(e1, Estado) == ScalarOf(e2, Estado);
    assert ScalarOf(e1, FechaMatricula) == ScalarOf(e2, FechaMatricula);
    assert ScalarOf(e1, FechaRenovacion) == ScalarOf(e2, FechaRenovacion);
    assert ScalarOf(e1, UltimoAnoRenovado) == ScalarOf(e2, UltimoAnoRenovado);
    assert ScalarOf(e1, TipoSociedad) == ScalarOf(e2, TipoSociedad);
    assert ScalarOf(e1, OrganizacionJuridica) == ScalarOf(e2, OrganizacionJuridica);
  }

  /** `MergedFrom` determines the record: there is exactly one merge of two inputs. */
  lemma MergedFromUnique(e1: Empresa, e2: Empresa, nit: string, gov_data: Record, rues_data: Record)
    requires MergedFrom(e1, nit, gov_data, rues_data) && MergedFrom(e2, nit, gov_data, rues_data)
    ensures e1 == e2
  {
    MergedFromIsMergeRecord(e1, nit, gov_data, rues_data);
    MergedFromIsMergeRecord(e2, nit, gov_data, rues_data);
  }

  /** The merge never leaves `ciiu_principal` empty: both its members are truthy strings,
      so the `else` branch that would build an empty `Ciiu()` is never taken. */
  lemma CiiuPrincipalNeverEmpty(e: Empresa, nit: string, gov_data: Record, rues_data: Record)
    requires MergedFrom(e, nit, gov_data, rues_data)
    ensures e.ciiu_principal.Some?
    ensures Truthy(e.ciiu_principal.value.codigo) && Truthy(e.ciiu_principal.value.descripcion)
  {
    var codigo := PrimaryValue(gov_data, rues_data, "cod_ciiu_act_econ_pri", DefaultCiiuCode);
    var descripcion := PrimaryValue(gov_data, rues_data, "desc_ciiu_act_econ_pri", DefaultCiiuDescription);
    assert e.ciiu_principal == Some(Ciiu(Some(codigo), Some(descripcion)));
  }

  /** When neither source has a primary CIIU code or description, the merge takes both
      defaults, in the flat members and in `ciiu_principal` alike. */
  lemma CiiuDefaultsWhenAbsent(e: Empresa, nit: string, gov_data: Record, rues_data: Record)
    requires MergedFrom(e, nit, gov_data, rues_data)
    requires !Truthy(Get(gov_data, "cod_ciiu_act_econ_pri")) && !Truthy(Get(rues_data, "cod_ciiu_act_econ_pri"))
    requires !Truthy(Get(gov_data, "desc_ciiu_act_econ_pri")) && !Truthy(Get(rues_data, "desc_ciiu_act_econ_pri"))
    ensures e.cod_ciiu_act_econ_pri == Some(DefaultCiiuCode)
    ensures e.desc_ciiu_act_econ_pri == Some(DefaultCiiuDescription)
    ensures e.ciiu_principal == Some(Ciiu(Some(DefaultCiiuCode), Some(DefaultCiiuDescription)))
  {
    GetValorPrefersGov(gov_data, rues_data, "cod_ciiu_act_econ_pri", "cod_ciiu_act_econ_pri");
    GetValorPrefersGov(gov_data, rues_data, "desc_ciiu_act_econ_pri", "desc_ciiu_act_econ_pri");
  }

  /** `ciiu_principal` is built before `Empresa` strips anything, so a datos.gov.co code
      padded with whitespace is kept padded there while the flat member holds it
      stripped: the two disagree. */
  lemma CiiuPrincipalKeepsPadding(e: Empresa, nit: string, gov_data: Record, rues_data: Record,
                                  pre: string, code: string, post: string)
    requires MergedFrom(e, nit, gov_data, rues_data)
    requires Get(gov_data, "cod_ciiu_act_econ_pri") == Some(pre + code + post)
    requires AllWhitespace(pre) && AllWhitespace(post) && IsStripped(code) && code != ""
    ensures e.cod_ciiu_act_econ_pri == Some(code)
    ensures e.ciiu_principal.Some? && e.ciiu_principal.value.codigo == Some(pre + code + post)
  {
    GetValorPrefersGov(gov_data, rues_data, "cod_ciiu_act_econ_pri", "cod_ciiu_act_econ_pri");
    StripPadded(pre, code, post);
  }

  /** With RUES silent, only datos.gov.co is listed as a source, every secondary slot is the
      empty `Ciiu()`, and each scalar is datos.gov.co's value when truthy and None
      otherwise. */
  lemma GovOnlyMerge(e: Empresa, nit: string, gov_data: Record)
    requires MergedFrom(e, nit, gov_data, map[])
    requires gov_data != map[]
    ensures e.fuentes == [GovSourceName]
    ensures e.ciiu2 == Some(Ciiu()) && e.ciiu3 == Some(Ciiu()) && e.ciiu4 == Some(Ciiu())
    ensures forall f :: ScalarKeys(f).Some? ==>
      var gov := Get(gov_data, ScalarKeys(f).value.gov_key);
      ScalarOf(e, f) == StripOpt(if Truthy(gov) then gov else None)
  {
    FuentesShape(e.fuentes, gov_data, map[]);
  }

  /** A datos.gov.co record with a name, a primary CIIU code, the RUES hints and a legal
      organisation type. */
  function ScenarioGov(): Record
  {
    map["razon_social" := Some("EMPRESA GOV"), "cod_ciiu_act_econ_pri" := Some("G4711"),
        "codigo_camara" := Some("12"), "matricula" := Some("12345"),
        "organizacion_juridica" := Some("SAS")]
  }

  /** A RUES record with another name, a company type and a secondary CIIU pair. */
  function ScenarioRues(): Record
  {
    map["razon_social" := Some("EMPRESA RUES"), "tipo_sociedad" := Some("Sociedad Anonima"),
        "cod_ciiu_act_econ_sec" := Some("B0810"), "desc_ciiu_act_econ_sec" := Some("Extracción de piedra")]
  }

  /** The entries of `ScenarioGov` the merge reads. */
  lemma ScenarioGovEntries()
    ensures Get(ScenarioGov(), "razon_social") == Some("EMPRESA GOV")
    ensures Get(ScenarioGov(), "organizacion_juridica") == Some("SAS")
    ensures Get(ScenarioGov(), "tipo_sociedad") == None
    ensures Get(ScenarioGov(), "digito_verificacion") == None
    ensures Get(ScenarioGov(), "cod_ciiu_act_econ_pri") == Some("G4711")
    ensures Get(ScenarioGov(), "desc_ciiu_act_econ_pri") == None
  {
  }

  /** The entries of `ScenarioRues` the merge reads. */
  lemma ScenarioRuesEntries()
    ensures Get(ScenarioRues(), "tipo_sociedad") == Some("Sociedad Anonima")
    ensures Get(ScenarioRues(), "dv") == None
    ensures Get(ScenarioRues(), "desc_ciiu_act_econ_pri") == None
    ensures Get(ScenarioRues(), "cod_ciiu_act_econ_sec") == Some("B0810")
    ensures Get(ScenarioRues(), "desc_ciiu_act_econ_sec") == Some("Extracción de piedra")
    ensures Get(ScenarioRues(), "ciiu3") == None && Get(ScenarioRues(), "desc_ciiu3") == None
    ensures Get(ScenarioRues(), "ciiu4") == None && Get(ScenarioRues(), "desc_ciiu4") == None
  {
  }

  /** Merging records with these entries: datos.gov.co's name wins over RUES's, RUES fills
      in the company type and the first secondary slot, the primary description
      defaults, and both sources are listed in query order. */
  lemma BothSourcesMerge(e: Empresa, nit: string, gov_data: Record, rues_data: Record,
                         name: string, org: string, tipo: string, code: string,
                         sec_code: string, sec_desc: string)
    requires MergedFrom(e, nit, gov_data, rues_data)
    requires IsStripped(name) && IsStripped(org) && IsStripped(tipo) && IsStripped(code)
    requires name != "" && org != "" && code != ""
    requires Get(gov_data, "razon_social") == Some(name)
    requires Get(gov_data, "organizacion_juridica") == Some(org)
    requires Get(gov_data, "tipo_sociedad") == None && Get(rues_data, "tipo_sociedad") == Some(tipo)
    requires Get(gov_data, "digito_verificacion") == None && Get(rues_data, "dv") == None
    requires Get(gov_data, "cod_ciiu_act_econ_pri") == Some(code)
    requires Get(gov_data, "desc_ciiu_act_econ_pri") == None && Get(rues_data, "desc_ciiu_act_econ_pri") == None
    requires Get(rues_data, "cod_ciiu_act_econ_sec") == Some(sec_code)
    requires Get(rues_data, "desc_ciiu_act_econ_sec") == Some(sec_desc)
    requires sec_code != ""
    requires Get(rues_data, "ciiu3") == None && Get(rues_data, "desc_ciiu3") == None
    requires Get(rues_data, "ciiu4") == None && Get(rues_data, "desc_ciiu4") == None
    ensures e.razon_social == Some(name)
    ensures e.organizacion_juridica == Some(org)
    ensures e.tipo_sociedad == Some(tipo)
    ensures e.dv == None
    ensures e.cod_ciiu_act_econ_pri == Some(code)
    ensures e.desc_ciiu_act_econ_pri == Some(DefaultCiiuDescription)
    ensures e.ciiu_principal == Some(Ciiu(Some(code), Some(DefaultCiiuDescription)))
    ensures e.ciiu2 == Some(Ciiu(Some(sec_code), Some(sec_desc)))
    ensures e.ciiu3 == Some(Ciiu()) && e.ciiu4 == Some(Ciiu())
    ensures e.fuentes == [GovSourceName, RuesSourceName]
  {
    assert "razon_social" in gov_data && "tipo_sociedad" in rues_data;
    FuentesShape(e.fuentes, gov_data, rues_data);
    StripFixesStripped(name);
    StripFixesStripped(org);
    StripFixesStripped(tipo);
    StripFixesStripped(code);
    assert ScalarOf(e, RazonSocial) == MergedScalar(gov_data, rues_data, RazonSocial);
    assert ScalarOf(e, OrganizacionJuridica) == MergedScalar(gov_data, rues_data, OrganizacionJuridica);
    assert ScalarOf(e, TipoSociedad) == MergedScalar(gov_data, rues_data, TipoSociedad);
    assert ScalarOf(e, Dv) == MergedScalar(gov_data, rues_data, Dv);
  }

  /** The values of the two records carry no surrounding whitespace. */
  lemma ScenarioValuesStripped()
    ensures IsStripped("EMPRESA GOV") && IsStripped("SAS")
    ensures IsStripped("Sociedad Anonima") && IsStripped("G4711")
  {
  }

  /** The two records above merged, for any NIT. */
  lemma BothSourcesScenario(e: Empresa, nit: string)
    requires MergedFrom(e, nit, ScenarioGov(), ScenarioRues())
    ensures e.razon_social == Some("EMPRESA GOV") && e.tipo_sociedad == Some("Sociedad Anonima")
    ensures e.organizacion_juridica == Some("SAS") && e.dv == None
    ensures e.ciiu_principal == Some(Ciiu(Some("G4711"), Some(DefaultCiiuDescription)))
    ensures e.desc_ciiu_act_econ_pri == Some(DefaultCiiuDescription)
    ensures e.ciiu2 == Some(Ciiu(Some("B0810"), Some("Extracción de piedra")))
    ensures e.ciiu3 == Some(Ciiu()) && e.ciiu4 == Some(Ciiu())
    ensures e.fuentes == [GovSourceName, RuesSourceName]
  {
    ScenarioGovEntries();
    ScenarioRuesEntries();
    ScenarioValuesStripped();
    BothSourcesMerge(e, nit, ScenarioGov(), ScenarioRues(),
                     "EMPRESA GOV", "SAS", "Sociedad Anonima", "G4711", "B0810", "Extracción de piedra");
  }

  /** A list holding datos.gov.co when its data is non-empty, then RUES when its data is
      non-empty, meets the `fuentes` conditions of `MergedFrom`. */
  lemma FuentesListMerged(gov_data: Record, rues_data: Record)
    ensures var fuentes := (if gov_data != map[] then [GovSourceName] else [])
                         + (if rues_data != map[] then [RuesSourceName] else []);
      && (forall s :: s in fuentes <==>
            (s == GovSourceName && gov_data != map[]) || (s == RuesSourceName && rues_data != map[]))
      && NoDuplicates(fuentes)
      && (gov_data != map[] ==> fuentes != [] && fuentes[0] == GovSourceName)
  {
    assert GovSourceName != RuesSourceName;
  }

  // ---------------------------------------------------------------------------
  // The orchestrator (`ConsultaNitService`)
  // ---------------------------------------------------------------------------

  /** The value `_unificar_datos` gives the keyword `f` of `empresa_data`: the raw value
      the merge chose (stripping is left to `Empresa`). */
  function MergeKwarg(nit: string, gov_data: Record, rues_data: Record, f: EmpresaField): Value
  {
    match f
    case Nit => VStr(nit)
    case CodCiiuActEconPri => VStr(PrimaryValue(gov_data, rues_data, "cod_ciiu_act_econ_pri", DefaultCiiuCode))
    case DescCiiuActEconPri => VStr(PrimaryValue(gov_data, rues_data, "desc_ciiu_act_econ_pri", DefaultCiiuDescription))
    case CiiuPrincipal => VCiiu(Ciiu(
      Some(PrimaryValue(gov_data, rues_data, "cod_ciiu_act_econ_pri", DefaultCiiuCode)),
      Some(PrimaryValue(gov_data, rues_data, "desc_ciiu_act_econ_pri", DefaultCiiuDescription))))
    case Ciiu2 => VCiiu(RuesSlot(rues_data, "cod_ciiu_act_econ_sec", "desc_ciiu_act_econ_sec"))
    case Ciiu3 => VCiiu(RuesSlot(rues_data, "ciiu3", "desc_ciiu3"))
    case Ciiu4 => VCiiu(RuesSlot(rues_data, "ciiu4", "desc_ciiu4"))
    case Fuentes => VList((if gov_data != map[] then [GovSourceName] else [])
                        + (if rues_data != map[] then [RuesSourceName] else []))
    case _ => OptStrValue(ValorOf(gov_data, rues_data, f))
  }

  /** Every keyword set so far holds the value the merge gives it. */
  predicate KwargsSoFar(kw: Kwargs, nit: string, gov_data: Record, rues_data: Record)
  {
    forall f {:trigger kw[f]} :: f in kw ==> kw[f] == MergeKwarg(nit, gov_data, rues_data, f)
  }

  /** The keyword arguments `_unificar_datos` hands to `Empresa(**empresa_data)`: one for
      every attribute, each holding the value the merge gives it. */
  predicate MergeKwargs(kw: Kwargs, nit: string, gov_data: Record, rues_data: Record)
  {
    (forall f :: f in kw) && KwargsSoFar(kw, nit, gov_data, rues_data)
  }

  /** The attributes `_unificar_datos` sets outside the renaming table: `nit` and
      `fuentes`, which the dictionary literal holds, and the six it assigns afterwards. */
  predicate OutsideRenamingTable(f: EmpresaField)
  {
    f == Nit || f == Fuentes || f == CodCiiuActEconPri || f == DescCiiuActEconPri
    || f == CiiuPrincipal || f == Ciiu2 || f == Ciiu3 || f == Ciiu4
  }

  /** Every attribute is a row of the renaming table or one the merge sets outside it. */
  lemma EveryAttribute(f: EmpresaField)
    ensures ScalarKeys(f).Some? || OutsideRenamingTable(f)
  {
  }

  /** A row of the renaming table is given `get_valor` of its keys. */
  lemma ScalarKwarg(nit: string, gov_data: Record, rues_data: Record, f: EmpresaField)
    requires ScalarKeys(f).Some?
    ensures MergeKwarg(nit, gov_data, rues_data, f) == OptStrValue(ValorOf(gov_data, rues_data, f))
  {
  }

  /** The dictionary `_unificar_datos` builds: the renamed scalars with `nit` and
      `fuentes` (the dictionary literal), then the six later assignments (the primary CIIU
      members, `ciiu_principal` and the three RUES slots), each set to the value the merge
      gives it. */
  lemma EmpresaDataFilled(renamed: Kwargs, nit: string, gov_data: Record, rues_data: Record,
                          fuentes: Value, codigo: Value, descripcion: Value,
                          ciiu_principal: Value, ciiu2: Value, ciiu3: Value, ciiu4: Value)
    requires forall f :: f in renamed <==> ScalarKeys(f).Some?
    requires forall f :: f in renamed ==> renamed[f] == MergeKwarg(nit, gov_data, rues_data, f)
    requires fuentes == VList((if gov_data != map[] then [GovSourceName] else [])
                            + (if rues_data != map[] then [RuesSourceName] else []))
    requires codigo == VStr(PrimaryValue(gov_data, rues_data, "cod_ciiu_act_econ_pri", DefaultCiiuCode))
    requires descripcion == VStr(PrimaryValue(gov_data, rues_data, "desc_ciiu_act_econ_pri", DefaultCiiuDescription))
    requires ciiu_principal == VCiiu(Ciiu(
      Some(PrimaryValue(gov_data, rues_data, "cod_ciiu_act_econ_pri", DefaultCiiuCode)),
      Some(PrimaryValue(gov_data, rues_data, "desc_ciiu_act_econ_pri", DefaultCiiuDescription))))
    requires ciiu2 == VCiiu(RuesSlot(rues_data, "cod_ciiu_act_econ_sec", "desc_ciiu_act_econ_sec"))
    requires ciiu3 == VCiiu(RuesSlot(rues_data, "ciiu3", "desc_ciiu3"))
    requires ciiu4 == VCiiu(RuesSlot(rues_data, "ciiu4", "desc_ciiu4"))
    ensures MergeKwargs(renamed[Nit := VStr(nit)][Fuentes := fuentes]
      [CodCiiuActEconPri := codigo][DescCiiuActEconPri := descripcion][CiiuPrincipal := ciiu_principal]
      [Ciiu2 := ciiu2][Ciiu3 := ciiu3][Ciiu4 := ciiu4], nit, gov_data, rues_data)
  {
    IdentityKwargs(nit, gov_data, rues_data);
    PrimaryKwargs(nit, gov_data, rues_data);
    SlotKwargs(nit, gov_data, rues_data);
    FilledChain(renamed, VStr(nit), fuentes, codigo, descripcion, ciiu_principal, ciiu2, ciiu3, ciiu4);
    var kw := renamed[Nit := VStr(nit)][Fuentes := fuentes]
      [CodCiiuActEconPri := codigo][DescCiiuActEconPri := descripcion][CiiuPrincipal := ciiu_principal]
      [Ciiu2 := ciiu2][Ciiu3 := ciiu3][Ciiu4 := ciiu4];
    forall f ensures f in kw && kw[f] == MergeKwarg(nit, gov_data, rues_data, f) {
      EveryAttribute(f);
    }
  }

  /** `nit` and `fuentes` as the merge gives them. */
  lemma IdentityKwargs(nit: string, gov_data: Record, rues_data: Record)
    ensures MergeKwarg(nit, gov_data, rues_data, Nit) == VStr(nit)
    ensures MergeKwarg(nit, gov_data, rues_data, Fuentes)
         == VList((if gov_data != map[] then [GovSourceName] else [])
                + (if rues_data != map[] then [RuesSourceName] else []))
  {
  }

  /** The primary CIIU keywords: the chosen code and description, and the object made of
      them. */
  lemma PrimaryKwargs(nit: string, gov_data: Record, rues_data: Record)
    ensures MergeKwarg(nit, gov_data, rues_data, CodCiiuActEconPri)
         == VStr(PrimaryValue(gov_data, rues_data, "cod_ciiu_act_econ_pri", DefaultCiiuCode))
    ensures MergeKwarg(nit, gov_data, rues_data, DescCiiuActEconPri)
         == VStr(PrimaryValue(gov_data, rues_data, "desc_ciiu_act_econ_pri", DefaultCiiuDescription))
    ensures MergeKwarg(nit, gov_data, rues_data, CiiuPrincipal) == VCiiu(Ciiu(
      Some(PrimaryValue(gov_data, rues_data, "cod_ciiu_act_econ_pri", DefaultCiiuCode)),
      Some(PrimaryValue(gov_data, rues_data, "desc_ciiu_act_econ_pri", DefaultCiiuDescription))))
  {
  }

  /** The three RUES slots as the merge gives them. */
  lemma SlotKwargs(nit: string, gov_data: Record, rues_data: Record)
    ensures MergeKwarg(nit, gov_data, rues_data, Ciiu2)
         == VCiiu(RuesSlot(rues_data, "cod_ciiu_act_econ_sec", "desc_ciiu_act_econ_sec"))
    ensures MergeKwarg(nit, gov_data, rues_data, Ciiu3) == VCiiu(RuesSlot(rues_data, "ciiu3", "desc_ciiu3"))
    ensures MergeKwarg(nit, gov_data, rues_data, Ciiu4) == VCiiu(RuesSlot(rues_data, "ciiu4", "desc_ciiu4"))
  {
  }

  /** What the renamed scalars become once `nit`, `fuentes` and the six later assignments
      of `_unificar_datos` are added. */
  lemma FilledChain(renamed: Kwargs, nit: Value, fuentes: Value, codigo: Value, descripcion: Value,
                    ciiu_principal: Value, ciiu2: Value, ciiu3: Value, ciiu4: Value)
    ensures var kw := renamed[Nit := nit][Fuentes := fuentes]
      [CodCiiuActEconPri := codigo][DescCiiuActEconPri := descripcion][CiiuPrincipal := ciiu_principal]
      [Ciiu2 := ciiu2][Ciiu3 := ciiu3][Ciiu4 := ciiu4];
      && kw[Nit] == nit && kw[Fuentes] == fuentes
      && kw[CodCiiuActEconPri] == codigo && kw[DescCiiuActEconPri] == descripcion
      && kw[CiiuPrincipal] == ciiu_principal && kw[Ciiu2] == ciiu2 && kw[Ciiu3] == ciiu3 && kw[Ciiu4] == ciiu4
      && (forall f :: f in kw <==> f in renamed || OutsideRenamingTable(f))
      && (forall f :: f in renamed && !OutsideRenamingTable(f) ==> kw[f] == renamed[f])
  {
    var kw := renamed[Nit := nit][Fuentes := fuentes]
      [CodCiiuActEconPri := codigo][DescCiiuActEconPri := descripcion][CiiuPrincipal := ciiu_principal]
      [Ciiu2 := ciiu2][Ciiu3 := ciiu3][Ciiu4 := ciiu4];
    forall f ensures (f in kw <==> f in renamed || OutsideRenamingTable(f))
                  && (f in renamed && !OutsideRenamingTable(f) ==> kw[f] == renamed[f]) {
      if !OutsideRenamingTable(f) {
        assert f != Nit && f != Fuentes && f != CodCiiuActEconPri && f != DescCiiuActEconPri;
        assert f != CiiuPrincipal && f != Ciiu2 && f != Ciiu3 && f != Ciiu4;
      }
    }
  }

  /** Every attribute of the renaming table reads back from `FieldValue` through `ScalarOf`. */
  lemma ScalarOfFieldValue(e: Empresa, f: EmpresaField)
    requires ScalarKeys(f).Some?
    ensures FieldValue(e, f) == OptStrValue(ScalarOf(e, f))
  {
  }

  /** The merge's keyword arguments are all of the declared types. */
  lemma MergeKwargsAcceptable(kw: Kwargs, nit: string, gov_data: Record, rues_data: Record)
    requires MergeKwargs(kw, nit, gov_data, rues_data)
    ensures forall f :: Acceptable(kw, f)
  {
    forall f ensures Acceptable(kw, f) {
      assert kw[f] == MergeKwarg(nit, gov_data, rues_data, f);
    }
  }

  /** `Empresa(**empresa_data)` on the merge's keyword arguments succeeds and gives the
      record `MergedFrom` describes. */
  lemma MergeKwargsBuild(kw: Kwargs, nit: string, gov_data: Record, rues_data: Record)
    requires MergeKwargs(kw, nit, gov_data, rues_data)
    ensures NewEmpresa(kw).Success?
    ensures MergedFrom(NewEmpresa(kw).value, nit, gov_data, rues_data)
  {
    FuentesKwarg(kw, nit, gov_data, rues_data);
    MergeKwargsAcceptable(kw, nit, gov_data, rues_data);
    var e := NewEmpresa(kw).value;
    MergedScalarsRead(e, kw, nit, gov_data, rues_data);
    MergedPrimaryRead(e, kw, nit, gov_data, rues_data);
    MergedSlotsRead(e, kw, nit, gov_data, rues_data);
    assert FieldValue(e, Nit) == Supplied(kw, Nit);
    assert FieldValue(e, Fuentes) == Supplied(kw, Fuentes);
    MergedFuentes(e, kw, gov_data, rues_data);
    FuentesListMerged(gov_data, rues_data);
  }

  lemma FuentesKwarg(kw: Kwargs, nit: string, gov_data: Record, rues_data: Record)
    requires MergeKwargs(kw, nit, gov_data, rues_data)
    ensures Fuentes in kw
    ensures kw[Fuentes] == VList((if gov_data != map[] then [GovSourceName] else [])
                               + (if rues_data != map[] then [RuesSourceName] else []))
  {
    assert kw[Fuentes] == MergeKwarg(nit, gov_data, rues_data, Fuentes);
  }

  lemma MergedScalarsRead(e: Empresa, kw: Kwargs, nit: string, gov_data: Record, rues_data: Record)
    requires MergeKwargs(kw, nit, gov_data, rues_data)
    requires forall f :: FieldValue(e, f) == Supplied(kw, f)
    ensures ScalarsMerged(e, gov_data, rues_data)
  {
    forall f | ScalarKeys(f).Some? ensures ScalarOf(e, f) == MergedScalar(gov_data, rues_data, f) {
      ScalarOfFieldValue(e, f);
      ScalarKwarg(nit, gov_data, rues_data, f);
      assert FieldValue(e, f) == Supplied(kw, f);
    }
  }

  lemma MergedPrimaryRead(e: Empresa, kw: Kwargs, nit: string, gov_data: Record, rues_data: Record)
    requires MergeKwargs(kw, nit, gov_data, rues_data)
    requires forall f :: FieldValue(e, f) == Supplied(kw, f)
    ensures e.cod_ciiu_act_econ_pri == Some(StrippedPrimary(gov_data, rues_data, "cod_ciiu_act_econ_pri", DefaultCiiuCode))
    ensures e.desc_ciiu_act_econ_pri == Some(StrippedPrimary(gov_data, rues_data, "desc_ciiu_act_econ_pri", DefaultCiiuDescription))
    ensures e.ciiu_principal == Some(Ciiu(
      Some(PrimaryValue(gov_data, rues_data, "cod_ciiu_act_econ_pri", DefaultCiiuCode)),
      Some(PrimaryValue(gov_data, rues_data, "desc_ciiu_act_econ_pri", DefaultCiiuDescription))))
  {
    PrimaryCodeRead(e, kw, nit, gov_data, rues_data);
    PrimaryDescriptionRead(e, kw, nit, gov_data, rues_data);
    assert FieldValue(e, CiiuPrincipal) == Supplied(kw, CiiuPrincipal);
  }

  lemma PrimaryCodeRead(e: Empresa, kw: Kwargs, nit: string, gov_data: Record, rues_data: Record)
    requires MergeKwargs(kw, nit, gov_data, rues_data)
    requires forall f :: FieldValue(e, f) == Supplied(kw, f)
    ensures e.cod_ciiu_act_econ_pri == Some(StrippedPrimary(gov_data, rues_data, "cod_ciiu_act_econ_pri", DefaultCiiuCode))
  {
    DefaultsStripped();
    assert FieldValue(e, CodCiiuActEconPri) == Supplied(kw, CodCiiuActEconPri);
    StripChosen(e.cod_ciiu_act_econ_pri, gov_data, rues_data, "cod_ciiu_act_econ_pri", DefaultCiiuCode);
  }

  lemma PrimaryDescriptionRead(e: Empresa, kw: Kwargs, nit: string, gov_data: Record, rues_data: Record)
    requires MergeKwargs(kw, nit, gov_data, rues_data)
    requires forall f :: FieldValue(e, f) == Supplied(kw, f)
    ensures e.desc_ciiu_act_econ_pri == Some(StrippedPrimary(gov_data, rues_data, "desc_ciiu_act_econ_pri", DefaultCiiuDescription))
  {
    DefaultsStripped();
    assert FieldValue(e, DescCiiuActEconPri) == Supplied(kw, DescCiiuActEconPri);
    StripChosen(e.desc_ciiu_act_econ_pri, gov_data, rues_data, "desc_ciiu_act_econ_pri", DefaultCiiuDescription);
  }

  lemma StripChosen(stored: Option<string>, gov_data: Record, rues_data: Record, key: string, default: string)
    requires IsStripped(default)
    requires OptStrValue(stored) == Normalize(VStr(PrimaryValue(gov_data, rues_data, key, default)))
    ensures stored == Some(StrippedPrimary(gov_data, rues_data, key, default))
  {
    PrimaryStrippedIsStrip(gov_data, rues_data, key, default);
  }

  lemma MergedSlotsRead(e: Empresa, kw: Kwargs, nit: string, gov_data: Record, rues_data: Record)
    requires MergeKwargs(kw, nit, gov_data, rues_data)
    requires forall f :: FieldValue(e, f) == Supplied(kw, f)
    ensures e.ciiu2 == Some(RuesSlot(rues_data, "cod_ciiu_act_econ_sec", "desc_ciiu_act_econ_sec"))
    ensures e.ciiu3 == Some(RuesSlot(rues_data, "ciiu3", "desc_ciiu3"))
    ensures e.ciiu4 == Some(RuesSlot(rues_data, "ciiu4", "desc_ciiu4"))
  {
    assert FieldValue(e, Ciiu2) == Supplied(kw, Ciiu2);
    assert FieldValue(e, Ciiu3) == Supplied(kw, Ciiu3);
    assert FieldValue(e, Ciiu4) == Supplied(kw, Ciiu4);
  }

  /** The source names carry no surrounding whitespace, so `Empresa` keeps `fuentes` as
      the merge built it. */
  lemma MergedFuentes(e: Empresa, kw: Kwargs, gov_data: Record, rues_data: Record)
    requires Fuentes in kw
    requires kw[Fuentes] == VList((if gov_data != map[] then [GovSourceName] else [])
                                + (if rues_data != map[] then [RuesSourceName] else []))
    requires FieldValue(e, Fuentes) == Supplied(kw, Fuentes)
    ensures e.fuentes == (if gov_data != map[] then [GovSourceName] else [])
                       + (if rues_data != map[] then [RuesSourceName] else [])
  {
    var fuentes := (if gov_data != map[] then [GovSourceName] else [])
                 + (if rues_data != map[] then [RuesSourceName] else []);
    assert IsStripped(GovSourceName) && IsStripped(RuesSourceName);
    assert forall i :: 0 <= i < |fuentes| ==> IsStripped(fuentes[i]);
    NormalizeFixesNormal(VList(fuentes));
  }

  /** What `consultar_nit` raises: `NitNotFoundError`, or the `DataSourceError` of the
      source that failed. */
  datatype ConsultaError =
    | NitNotFound(not_found: NitNotFoundError)
    | SourceFailed(failure: DataSourceError)

  /** `ConsultaNitService`: queries datos.gov.co, then RUES with the chamber code and
      registration number datos.gov.co gave, and merges the two answers. */
  class ConsultaNitService {
    const datos_gov_co_service: DatosGovCoService
    const rues_service: RuesService

    constructor(datos_gov_co_service: DatosGovCoService, rues_service: RuesService)
      ensures this.datos_gov_co_service == datos_gov_co_service
      ensures this.rues_service == rues_service
    {
      this.datos_gov_co_service := datos_gov_co_service;
      this.rues_service := rues_service;
    }

    /** What datos.gov.co gives for `nit` on this response. */
    function GovOutcome(nit: string, gov_response: GovResponse): Outcome
    {
      datos_gov_co_service.Consultar(nit, gov_response)
    }

    /** What RUES gives when it is asked with the hints of datos.gov.co's record. */
    function RuesOutcome(nit: string, gov_data: Record, rues_response: RuesResponse): Outcome
    {
      rues_service.Consultar(nit, Get(gov_data, "codigo_camara"), Get(gov_data, "matricula"), rues_response)
    }

    /** `consultar_nit(nit)`, given the response each source would send. RUES is asked,
        with the chamber code and registration number of datos.gov.co's record, exactly
        when datos.gov.co found a non-empty record. The first source that raises
        decides the error; otherwise the lookup fails with `NitNotFoundError(nit)`
        exactly when no source has data, and succeeds with the merge of what both
        gave. */
    method ConsultarNit(nit: string, gov_response: GovResponse, rues_response: RuesResponse)
      returns (r: Result<Empresa, ConsultaError>, ghost rues_consulted: bool)
      ensures rues_consulted <==> HasData(GovOutcome(nit, gov_response))
      ensures GovOutcome(nit, gov_response).Raised? ==>
        r == Failure(SourceFailed(GovOutcome(nit, gov_response).error))
      ensures !GovOutcome(nit, gov_response).Raised? && !HasData(GovOutcome(nit, gov_response)) ==>
        r == Failure(NitNotFound(NitNotFoundError(nit)))
      ensures HasData(GovOutcome(nit, gov_response)) ==>
        var gov_data := GovOutcome(nit, gov_response).record;
        var rues := RuesOutcome(nit, gov_data, rues_response);
        && (rues.Raised? ==> r == Failure(SourceFailed(rues.error)))
        && (!rues.Raised? ==> r.Success? && MergedFrom(r.value, nit, gov_data, OrEmpty(rues)))
    {
      var gov := datos_gov_co_service.Consultar(nit, gov_response);
      if gov.Raised? {
        return Failure(SourceFailed(gov.error)), false;
      }
      var rues: Outcome := NoData;
      rues_consulted := false;
      if HasData(gov) {
        rues := rues_service.Consultar(nit, Get(gov.record, "codigo_camara"), Get(gov.record, "matricula"), rues_response);
        rues_consulted := true;
        if rues.Raised? {
          return Failure(SourceFailed(rues.error)), rues_consulted;
        }
      }
      if !HasData(gov) && !HasData(rues) {
        return Failure(NitNotFound(NitNotFoundError(nit))), rues_consulted;
      }
      var empresa := UnificarDatos(nit, OrEmpty(gov), OrEmpty(rues));
      r := Success(empresa);
    }

    /** `_unificar_datos(nit, gov_data, rues_data)`: builds the keyword arguments of
        `Empresa` and constructs it. The result is the record `MergedFrom` describes, the
        only one (`MergedFromUnique`). */
    method UnificarDatos(nit: string, gov_data: Record, rues_data: Record) returns (e: Empresa)
      ensures MergedFrom(e, nit, gov_data, rues_data)
    {
      var empresa_data := EmpresaData(nit, gov_data, rues_data);
      MergeKwargsBuild(empresa_data, nit, gov_data, rues_data);
      e := NewEmpresa(empresa_data).value;
    }

    /** The dictionary `empresa_data` of `_unificar_datos`, filled in step by step: the
        list of sources that answered, the renamed scalar attributes, the primary CIIU
        code and description with their defaults, the primary CIIU object and the three
        RUES slots. Each keyword holds the value `MergeKwarg` gives it, and every
        attribute of `Empresa` is a keyword. */
    method EmpresaData(nit: string, gov_data: Record, rues_data: Record) returns (empresa_data: Kwargs)
      ensures MergeKwargs(empresa_data, nit, gov_data, rues_data)
    {
      var fuentes: seq<string> := [];
      if gov_data != map[] {
        fuentes := fuentes + [GovSourceName];
      }
      if rues_data != map[] {
        fuentes := fuentes + [RuesSourceName];
      }

      // One keyword per row of the renaming table, then `nit` and `fuentes`.
      empresa_data := map f | ScalarKeys(f).Some? :: OptStrValue(ValorOf(gov_data, rues_data, f));
      ghost var renamed := empresa_data;
      assert forall f :: f in renamed ==> renamed[f] == MergeKwarg(nit, gov_data, rues_data, f) by {
        forall f | f in renamed ensures renamed[f] == MergeKwarg(nit, gov_data, rues_data, f) {
          ScalarKwarg(nit, gov_data, rues_data, f);
        }
      }
      empresa_data := empresa_data[Nit := VStr(nit)];
      empresa_data := empresa_data[Fuentes := VList(fuentes)];

      // The primary CIIU members, each `get_valor(...) or` its default.
      var codigo := PrimaryValue(gov_data, rues_data, "cod_ciiu_act_econ_pri", DefaultCiiuCode);
      empresa_data := empresa_data[CodCiiuActEconPri := VStr(codigo)];
      var descripcion := PrimaryValue(gov_data, rues_data, "desc_ciiu_act_econ_pri", DefaultCiiuDescription);
      empresa_data := empresa_data[DescCiiuActEconPri := VStr(descripcion)];

      // `ciiu_principal` from the two members just set; both are non-empty, so the
      // empty `Ciiu()` branch is never taken.
      var ciiu_principal_codigo := Some(codigo);
      var ciiu_principal_descripcion := Some(descripcion);
      var ciiu_principal :=
        if Truthy(ciiu_principal_codigo) || Truthy(ciiu_principal_descripcion)
        then Ciiu(ciiu_principal_codigo, ciiu_principal_descripcion)
        else Ciiu();
      empresa_data := empresa_data[CiiuPrincipal := VCiiu(ciiu_principal)];

      // The secondary slots, from RUES alone.
      var ciiu2 := RuesSlot(rues_data, "cod_ciiu_act_econ_sec", "desc_ciiu_act_econ_sec");
      empresa_data := empresa_data[Ciiu2 := VCiiu(ciiu2)];
      var ciiu3 := RuesSlot(rues_data, "ciiu3", "desc_ciiu3");
      empresa_data := empresa_data[Ciiu3 := VCiiu(ciiu3)];
      var ciiu4 := RuesSlot(rues_data, "ciiu4", "desc_ciiu4");
      empresa_data := empresa_data[Ciiu4 := VCiiu(ciiu4)];

      EmpresaDataFilled(renamed, nit, gov_data, rues_data, VList(fuentes), VStr(codigo), VStr(descripcion),
                        VCiiu(ciiu_principal), VCiiu(ciiu2), VCiiu(ciiu3), VCiiu(ciiu4));
    }
  }
}
