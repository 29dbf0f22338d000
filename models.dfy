/** The record types of the NIT lookup (src/models.py): the `Ciiu` code/description pair
    and the consolidated `Empresa` record. Both are pydantic models; `Empresa(**kwargs)`
    is modelled as `NewEmpresa`, which checks each keyword argument against the declared
    type of its attribute, fills in the defaults of the attributes left out, and strips
    surrounding whitespace from every string other than those inside a `Ciiu`
    (`str_strip_whitespace=True`). */
module Models {
  import opened Wrappers

  /** The default primary CIIU code. */
  const DefaultCiiuCode: string := "9999"

  /** The default primary CIIU description. */
  const DefaultCiiuDescription: string := "Actividad No Homologada CIIU v4"

  // ---------------------------------------------------------------------------
  // Whitespace stripping (`str_strip_whitespace`)
  // ---------------------------------------------------------------------------

  /** The characters with the Unicode White_Space property, which is what the trimming
      done by pydantic's validator removes. */
  predicate IsWhitespace(c: char)
  {
    c in WhitespaceChars
  }

  /** U+0009..U+000D, space, U+0085, U+00A0, U+1680, U+2000..U+200A, U+2028, U+2029,
      U+202F, U+205F and U+3000. */
  const WhitespaceChars: set<char> :=
    {'\t', '\n', '\U{B}', '\U{C}', '\r', ' ', '\U{85}', '\U{A0}', '\U{1680}',
     '\U{2000}', '\U{2001}', '\U{2002}', '\U{2003}', '\U{2004}', '\U{2005}',
     '\U{2006}', '\U{2007}', '\U{2008}', '\U{2009}', '\U{200A}',
     '\U{2028}', '\U{2029}', '\U{202F}', '\U{205F}', '\U{3000}'}

  predicate AllWhitespace(s: string)
  {
    forall i :: 0 <= i < |s| ==> IsWhitespace(s[i])
  }

  /** `s` neither starts nor ends with whitespace. */
  predicate IsStripped(s: string)
  {
    s == [] || (!IsWhitespace(s[0]) && !IsWhitespace(s[|s| - 1]))
  }

  /** The number of whitespace characters `s` starts with. */
  function LeadingWhitespace(s: string): (n: nat)
    ensures n <= |s| && AllWhitespace(s[..n])
    ensures n == |s| || !IsWhitespace(s[n])
  {
    if s != [] && IsWhitespace(s[0]) then 1 + LeadingWhitespace(s[1..]) else 0
  }

  /** Drops the leading whitespace of `s`. */
  function TrimStart(s: string): (r: string)
    ensures |r| <= |s|
    ensures r == [] || !IsWhitespace(r[0])
  {
    s[LeadingWhitespace(s)..]
  }

  /** Drops the trailing whitespace of `s`. */
  function TrimEnd(s: string): (r: string)
    ensures |r| <= |s| && r == s[..|r|]
    ensures r == [] || !IsWhitespace(r[|r| - 1])
  {
    if s != [] && IsWhitespace(s[|s| - 1]) then TrimEnd(s[..|s| - 1]) else s
  }

  /** The trimming of `str_strip_whitespace`: `s` without its surrounding Unicode whitespace. */
  function Strip(s: string): (r: string)
    ensures IsStripped(r)
    ensures |r| <= |s|
  {
    TrimEnd(TrimStart(s))
  }

  lemma {:induction false} LeadingWhitespaceSkips(pre: string, x: string)
    requires AllWhitespace(pre)
    requires x == [] || !IsWhitespace(x[0])
    ensures LeadingWhitespace(pre + x) == |pre|
  {
    if pre != [] {
      assert (pre + x)[1..] == pre[1..] + x;
      LeadingWhitespaceSkips(pre[1..], x);
    } else {
      assert pre + x == x;
    }
  }

  lemma TrimStartSkips(pre: string, x: string)
    requires AllWhitespace(pre)
    requires x == [] || !IsWhitespace(x[0])
    ensures TrimStart(pre + x) == x
  {
    LeadingWhitespaceSkips(pre, x);
    assert (pre + x)[|pre|..] == x;
  }

  lemma {:induction false} TrimEndSkips(x: string, post: string)
    requires AllWhitespace(post)
    requires x == [] || !IsWhitespace(x[|x| - 1])
    ensures TrimEnd(x + post) == x
  {
    if post != [] {
      var n := |x + post|;
      assert (x + post)[..n - 1] == x + post[..|post| - 1];
      TrimEndSkips(x, post[..|post| - 1]);
    } else {
      assert x + post == x;
    }
  }

  /** Stripping removes exactly the surrounding whitespace: a stripped text padded with
      whitespace on either side strips back to itself. Together with `IsStripped(Strip(s))`
      this determines `Strip` on every string. */
  lemma StripPadded(pre: string, mid: string, post: string)
    requires AllWhitespace(pre) && AllWhitespace(post) && IsStripped(mid)
    ensures Strip(pre + mid + post) == mid
  {
    if mid == [] {
      assert pre + mid + post == (pre + post) + [];
      assert AllWhitespace(pre + post);
      TrimStartSkips(pre + post, []);
      assert TrimStart(pre + mid + post) == [];
    } else {
      assert pre + mid + post == pre + (mid + post);
      TrimStartSkips(pre, mid + post);
      TrimEndSkips(mid, post);
    }
  }

  /** Stripping leaves a string unchanged exactly when it has no surrounding whitespace. */
  lemma StripFixesStripped(s: string)
    ensures Strip(s) == s <==> IsStripped(s)
  {
    if IsStripped(s) {
      assert [] + s + [] == s;
      StripPadded([], s, []);
    }
  }

  /** Stripping twice is stripping once. */
  lemma StripIdempotent(s: string)
    ensures Strip(Strip(s)) == Strip(s)
  {
    StripFixesStripped(Strip(s));
  }

  /** The CIIU defaults carry no surrounding whitespace. */
  lemma DefaultsStripped()
    ensures IsStripped(DefaultCiiuCode) && IsStripped(DefaultCiiuDescription)
  {
  }

  /** `Strip` on an optional string. */
  function StripOpt(v: Option<string>): Option<string>
  {
    match v
    case None => None
    case Some(s) => Some(Strip(s))
  }

  // ---------------------------------------------------------------------------
  // Ciiu
  // ---------------------------------------------------------------------------

  /** A CIIU classification: code and description, each None unless given. This model
      has no whitespace stripping of its own. */
  datatype Ciiu = Ciiu(codigo: Option<string> := None, descripcion: Option<string> := None)

  /** `Ciiu()` is the pair with both members None, and building it from one member leaves
      the other None. */
  lemma CiiuDefaults(codigo: string, descripcion: string)
    ensures Ciiu() == Ciiu(None, None)
    ensures Ciiu(codigo := Some(codigo)) == Ciiu(Some(codigo), None)
    ensures Ciiu(descripcion := Some(descripcion)) == Ciiu(None, Some(descripcion))
  {
  }

  // ---------------------------------------------------------------------------
  // Empresa
  // ---------------------------------------------------------------------------

  /** The attributes of `Empresa`, in declaration order; each constructor stands for the
      same-named snake_case attribute, which is also its keyword and its JSON key. */
  datatype EmpresaField =
    | RazonSocial | Nit | Dv | CamaraComercio | Matricula | Estado
    | FechaMatricula | FechaRenovacion | UltimoAnoRenovado | TipoSociedad
    | OrganizacionJuridica | CiiuPrincipal | CodCiiuActEconPri | DescCiiuActEconPri
    | Ciiu2 | Ciiu3 | Ciiu4 | Fuentes


  /** Every attribute of `Empresa`. */
  const AllFields: set<EmpresaField> :=
    {RazonSocial, Nit, Dv, CamaraComercio, Matricula, Estado,
     FechaMatricula, FechaRenovacion, UltimoAnoRenovado, TipoSociedad,
     OrganizacionJuridica, CiiuPrincipal, CodCiiuActEconPri, DescCiiuActEconPri,
     Ciiu2, Ciiu3, Ciiu4, Fuentes}

  lemma InAllFields(f: EmpresaField)
    ensures f in AllFields
  {
    match f
    case RazonSocial => case Nit => case Dv => case CamaraComercio => case Matricula =>
    case Estado => case FechaMatricula => case FechaRenovacion => case UltimoAnoRenovado =>
    case TipoSociedad => case OrganizacionJuridica => case CiiuPrincipal =>
    case CodCiiuActEconPri => case DescCiiuActEconPri => case Ciiu2 => case Ciiu3 =>
    case Ciiu4 => case Fuentes =>
  }

  /** A keyword-argument value: None, a string, a `Ciiu` instance or a list of strings. */
  datatype Value = VNone | VStr(s: string) | VCiiu(c: Ciiu) | VList(items: seq<string>)

  /** The declared type of an attribute: `str`, `Optional[str]`, `Optional[Ciiu]` or
      `List[str]`. */
  datatype FieldType = Str | OptStr | OptCiiu | StrList

  /** An attribute's declared type and its default (None: the attribute is required). */
  datatype FieldSpec = FieldSpec(ty: FieldType, default: Option<Value>)

  /** The declaration of each attribute of `Empresa`. */
  function Spec(f: EmpresaField): FieldSpec
  {
    match f
    case Nit => FieldSpec(Str, None)
    case CiiuPrincipal | Ciiu2 | Ciiu3 | Ciiu4 => FieldSpec(OptCiiu, Some(VCiiu(Ciiu())))
    case CodCiiuActEconPri => FieldSpec(OptStr, Some(VStr(DefaultCiiuCode)))
    case DescCiiuActEconPri => FieldSpec(OptStr, Some(VStr(DefaultCiiuDescription)))
    case Fuentes => FieldSpec(StrList, Some(VList([])))
    case _ => FieldSpec(OptStr, Some(VNone))
  }

  predicate HasType(v: Value, ty: FieldType)
  {
    match ty
    case Str => v.VStr?
    case OptStr => v.VNone? || v.VStr?
    case OptCiiu => v.VNone? || v.VCiiu?
    case StrList => v.VList?
  }

  /** Keyword arguments of `Empresa(...)`. */
  type Kwargs = map<EmpresaField, Value>

  /** The attribute is given a value of its declared type, or is left out and has a
      default. */
  predicate Acceptable(kw: Kwargs, f: EmpresaField)
  {
    if f in kw then HasType(kw[f], Spec(f).ty) else Spec(f).default.Some?
  }

  /** Strips every string a value holds directly (instances of `Ciiu` are kept as they
      are). */
  function Normalize(v: Value): Value
  {
    match v
    case VStr(s) => VStr(Strip(s))
    case VList(xs) => VList(seq(|xs|, i requires 0 <= i < |xs| => Strip(xs[i])))
    case _ => v
  }

  /** The value attribute `f` ends up with: the supplied one, stripped, or the default. */
  function Supplied(kw: Kwargs, f: EmpresaField): Value
  {
    if f in kw then Normalize(kw[f])
    else match Spec(f).default
      case Some(d) => d
      case None => VNone
  }

  /** The consolidated company record. */
  datatype Empresa = Empresa(
    razon_social: Option<string>,
    nit: string,
    dv: Option<string>,
    camara_comercio: Option<string>,
    matricula: Option<string>,
    estado: Option<string>,
    fecha_matricula: Option<string>,
    fecha_renovacion: Option<string>,
    ultimo_ano_renovado: Option<string>,
    tipo_sociedad: Option<string>,
    organizacion_juridica: Option<string>,
    ciiu_principal: Option<Ciiu>,
    cod_ciiu_act_econ_pri: Option<string>,
    desc_ciiu_act_econ_pri: Option<string>,
    ciiu2: Option<Ciiu>,
    ciiu3: Option<Ciiu>,
    ciiu4: Option<Ciiu>,
    fuentes: seq<string>)

  function OptStrValue(v: Option<string>): Value
  {
    match v
    case None => VNone
    case Some(s) => VStr(s)
  }

  function OptCiiuValue(v: Option<Ciiu>): Value
  {
    match v
    case None => VNone
    case Some(c) => VCiiu(c)
  }

  function AsStr(v: Value): string
  {
    if v.VStr? then v.s else ""
  }

  function AsOptStr(v: Value): Option<string>
  {
    if v.VStr? then Some(v.s) else None
  }

  function AsOptCiiu(v: Value): Option<Ciiu>
  {
    if v.VCiiu? then Some(v.c) else None
  }

  function AsList(v: Value): seq<string>
  {
    if v.VList? then v.items else []
  }

  /** `getattr(e, name)` for the attribute `name` that `f` stands for. */
  function FieldValue(e: Empresa, f: EmpresaField): Value
  {
    match f
    case RazonSocial => OptStrValue(e.razon_social)
    case Nit => VStr(e.nit)
    case Dv => OptStrValue(e.dv)
    case CamaraComercio => OptStrValue(e.camara_comercio)
    case Matricula => OptStrValue(e.matricula)
    case Estado => OptStrValue(e.estado)
    case FechaMatricula => OptStrValue(e.fecha_matricula)
    case FechaRenovacion => OptStrValue(e.fecha_renovacion)
    case UltimoAnoRenovado => OptStrValue(e.ultimo_ano_renovado)
    case TipoSociedad => OptStrValue(e.tipo_sociedad)
    case OrganizacionJuridica => OptStrValue(e.organizacion_juridica)
    case CiiuPrincipal => OptCiiuValue(e.ciiu_principal)
    case CodCiiuActEconPri => OptStrValue(e.cod_ciiu_act_econ_pri)
    case DescCiiuActEconPri => OptStrValue(e.desc_ciiu_act_econ_pri)
    case Ciiu2 => OptCiiuValue(e.ciiu2)
    case Ciiu3 => OptCiiuValue(e.ciiu3)
    case Ciiu4 => OptCiiuValue(e.ciiu4)
    case Fuentes => VList(e.fuentes)
  }

  /** pydantic's `ValidationError`: the attributes that are missing or of the wrong type. */
  datatype ValidationError = ValidationError(fields: set<EmpresaField>)

  function InvalidFields(kw: Kwargs): set<EmpresaField>
  {
    set f | f in AllFields && !Acceptable(kw, f)
  }

  /** The attribute ends up with a value of its declared type. */
  lemma SuppliedHasType(kw: Kwargs, f: EmpresaField)
    requires Acceptable(kw, f)
    ensures HasType(Supplied(kw, f), Spec(f).ty)
  {
  }

  /** The record whose attributes are the supplied values, stripped, or the defaults. */
  function Build(kw: Kwargs): Empresa
  {
    Empresa(
      razon_social := AsOptStr(Supplied(kw, RazonSocial)),
      nit := AsStr(Supplied(kw, Nit)),
      dv := AsOptStr(Supplied(kw, Dv)),
      camara_comercio := AsOptStr(Supplied(kw, CamaraComercio)),
      matricula := AsOptStr(Supplied(kw, Matricula)),
      estado := AsOptStr(Supplied(kw, Estado)),
      fecha_matricula := AsOptStr(Supplied(kw, FechaMatricula)),
      fecha_renovacion := AsOptStr(Supplied(kw, FechaRenovacion)),
      ultimo_ano_renovado := AsOptStr(Supplied(kw, UltimoAnoRenovado)),
      tipo_sociedad := AsOptStr(Supplied(kw, TipoSociedad)),
      organizacion_juridica := AsOptStr(Supplied(kw, OrganizacionJuridica)),
      ciiu_principal := AsOptCiiu(Supplied(kw, CiiuPrincipal)),
      cod_ciiu_act_econ_pri := AsOptStr(Supplied(kw, CodCiiuActEconPri)),
      desc_ciiu_act_econ_pri := AsOptStr(Supplied(kw, DescCiiuActEconPri)),
      ciiu2 := AsOptCiiu(Supplied(kw, Ciiu2)),
      ciiu3 := AsOptCiiu(Supplied(kw, Ciiu3)),
      ciiu4 := AsOptCiiu(Supplied(kw, Ciiu4)),
      fuentes := AsList(Supplied(kw, Fuentes)))
  }

  lemma BuildReadsBack(kw: Kwargs, f: EmpresaField)
    requires Acceptable(kw, f)
    ensures FieldValue(Build(kw), f) == Supplied(kw, f)
  {
    SuppliedHasType(kw, f);
  }

  /** `Empresa(**kw)`. It succeeds exactly when every attribute is acceptable, reports
      every attribute that is not, and then every attribute reads back as the value
      supplied for it, stripped, or as its default. */
  function NewEmpresa(kw: Kwargs): (r: Result<Empresa, ValidationError>)
    ensures r.Success? <==> forall f :: Acceptable(kw, f)
    ensures r.Failure? ==> r.error.fields != {} && forall f :: f in r.error.fields <==> !Acceptable(kw, f)
    ensures r.Success? ==> forall f :: FieldValue(r.value, f) == Supplied(kw, f)
  {
    var invalid := InvalidFields(kw);
    assert forall f :: f in invalid <==> !Acceptable(kw, f) by {
      forall f ensures f in invalid <==> !Acceptable(kw, f) { InAllFields(f); }
    }
    if invalid != {} then
      Failure(ValidationError(invalid))
    else
      assert forall f :: FieldValue(Build(kw), f) == Supplied(kw, f) by {
        forall f ensures FieldValue(Build(kw), f) == Supplied(kw, f) {
          assert f !in invalid;
          BuildReadsBack(kw, f);
        }
      }
      Success(Build(kw))
  }

  /** `Empresa(nit=n)` alone: every optional scalar is None, the primary CIIU code and
      description take their defaults, every CIIU slot is a concrete empty `Ciiu` and
      `fuentes` is empty. */
  lemma BareEmpresa(nit: string)
    ensures NewEmpresa(map[Nit := VStr(nit)]) == Success(Empresa(
      None, Strip(nit), None, None, None, None, None, None, None, None, None,
      Some(Ciiu()), Some(DefaultCiiuCode), Some(DefaultCiiuDescription),
      Some(Ciiu()), Some(Ciiu()), Some(Ciiu()), []))
  {
    var kw := map[Nit := VStr(nit)];
    forall f ensures Acceptable(kw, f) { }
    var e := NewEmpresa(kw).value;
    forall f ensures FieldValue(e, f) == FieldValue(BareRecord(nit), f) {
      BareSupplied(nit, f);
    }
    FieldValuesDetermine(e, BareRecord(nit));
  }

  function BareRecord(nit: string): Empresa
  {
    Empresa(
      None, Strip(nit), None, None, None, None, None, None, None, None, None,
      Some(Ciiu()), Some(DefaultCiiuCode), Some(DefaultCiiuDescription),
      Some(Ciiu()), Some(Ciiu()), Some(Ciiu()), [])
  }

  lemma BareSupplied(nit: string, f: EmpresaField)
    ensures Supplied(map[Nit := VStr(nit)], f) == FieldValue(BareRecord(nit), f)
  {
  }

  /** `nit` is required: without it the construction fails and names it. */
  lemma NitIsRequired(kw: Kwargs)
    requires Nit !in kw
    ensures NewEmpresa(kw).Failure? && Nit in NewEmpresa(kw).error.fields
  {
    assert !Acceptable(kw, Nit);
  }

  /** A record is determined by its attributes. */
  lemma FieldValuesDetermine(e1: Empresa, e2: Empresa)
    requires forall f :: FieldValue(e1, f) == FieldValue(e2, f)
    ensures e1 == e2
  {
    SameIdentity(e1, e2);
    SameRegistration(e1, e2);
    SameActivities(e1, e2);
  }

  /** The equal attributes give the same name, number and chamber data. */
  lemma SameIdentity(e1: Empresa, e2: Empresa)
    requires forall f :: FieldValue(e1, f) == FieldValue(e2, f)
    ensures e1.razon_social == e2.razon_social
    ensures e1.nit == e2.nit
    ensures e1.dv == e2.dv
    ensures e1.camara_comercio == e2.camara_comercio
    ensures e1.matricula == e2.matricula
    ensures e1.estado == e2.estado
  {
    assert e1.razon_social == e2.razon_social by { assert FieldValue(e1, RazonSocial) == FieldValue(e2, RazonSocial); }
    assert e1.nit == e2.nit by { assert FieldValue(e1, Nit) == FieldValue(e2, Nit); }
    assert e1.dv == e2.dv by { assert FieldValue(e1, Dv) == FieldValue(e2, Dv); }
    assert e1.camara_comercio == e2.camara_comercio by { assert FieldValue(e1, CamaraComercio) == FieldValue(e2, CamaraComercio); }
    assert e1.matricula == e2.matricula by { assert FieldValue(e1, Matricula) == FieldValue(e2, Matricula); }
    assert e1.estado == e2.estado by { assert FieldValue(e1, Estado) == FieldValue(e2, Estado); }
  }

  /** The equal attributes give the same registration data and primary CIIU object. */
  lemma SameRegistration(e1: Empresa, e2: Empresa)
    requires forall f :: FieldValue(e1, f) == FieldValue(e2, f)
    ensures e1.fecha_matricula == e2.fecha_matricula
    ensures e1.fecha_renovacion == e2.fecha_renovacion
    ensures e1.ultimo_ano_renovado == e2.ultimo_ano_renovado
    ensures e1.tipo_sociedad == e2.tipo_sociedad
    ensures e1.organizacion_juridica == e2.organizacion_juridica
    ensures e1.ciiu_principal == e2.ciiu_principal
  {
    assert e1.fecha_matricula == e2.fecha_matricula by { assert FieldValue(e1, FechaMatricula) == FieldValue(e2, FechaMatricula); }
    assert e1.fecha_renovacion == e2.fecha_renovacion by { assert FieldValue(e1, FechaRenovacion) == FieldValue(e2, FechaRenovacion); }
    assert e1.ultimo_ano_renovado == e2.ultimo_ano_renovado by { assert FieldValue(e1, UltimoAnoRenovado) == FieldValue(e2, UltimoAnoRenovado); }
    assert e1.tipo_sociedad == e2.tipo_sociedad by { assert FieldValue(e1, TipoSociedad) == FieldValue(e2, TipoSociedad); }
    assert e1.organizacion_juridica == e2.organizacion_juridica by { assert FieldValue(e1, OrganizacionJuridica) == FieldValue(e2, OrganizacionJuridica); }
    assert e1.ciiu_principal == e2.ciiu_principal by { assert FieldValue(e1, CiiuPrincipal) == FieldValue(e2, CiiuPrincipal); }
  }

  /** The equal attributes give the same CIIU members, slots and sources. */
  lemma SameActivities(e1: Empresa, e2: Empresa)
    requires forall f :: FieldValue(e1, f) == FieldValue(e2, f)
    ensures e1.cod_ciiu_act_econ_pri == e2.cod_ciiu_act_econ_pri
    ensures e1.desc_ciiu_act_econ_pri == e2.desc_ciiu_act_econ_pri
    ensures e1.ciiu2 == e2.ciiu2
    ensures e1.ciiu3 == e2.ciiu3
    ensures e1.ciiu4 == e2.ciiu4
    ensures e1.fuentes == e2.fuentes
  {
    assert e1.cod_ciiu_act_econ_pri == e2.cod_ciiu_act_econ_pri by { assert FieldValue(e1, CodCiiuActEconPri) == FieldValue(e2, CodCiiuActEconPri); }
    assert e1.desc_ciiu_act_econ_pri == e2.desc_ciiu_act_econ_pri by { assert FieldValue(e1, DescCiiuActEconPri) == FieldValue(e2, DescCiiuActEconPri); }
    assert e1.ciiu2 == e2.ciiu2 by { assert FieldValue(e1, Ciiu2) == FieldValue(e2, Ciiu2); }
    assert e1.ciiu3 == e2.ciiu3 by { assert FieldValue(e1, Ciiu3) == FieldValue(e2, Ciiu3); }
    assert e1.ciiu4 == e2.ciiu4 by { assert FieldValue(e1, Ciiu4) == FieldValue(e2, Ciiu4); }
    assert e1.fuentes == e2.fuentes by { assert FieldValue(e1, Fuentes) == FieldValue(e2, Fuentes); }
  }

  /** The strings a value holds directly have no surrounding whitespace. */
  predicate IsNormalValue(v: Value)
  {
    match v
    case VStr(s) => IsStripped(s)
    case VList(xs) => forall i :: 0 <= i < |xs| ==> IsStripped(xs[i])
    case _ => true
  }

  lemma NormalizeFixesNormal(v: Value)
    requires IsNormalValue(v)
    ensures Normalize(v) == v
  {
    match v
    case VStr(s) => StripFixesStripped(s);
    case VList(xs) =>
      forall i | 0 <= i < |xs| ensures Strip(xs[i]) == xs[i] { StripFixesStripped(xs[i]); }
    case _ =>
  }

  /** The attributes of `e`, as keyword arguments. */
  function Attributes(e: Empresa): Kwargs
  {
    map f | f in AllFields :: FieldValue(e, f)
  }

  /** Rebuilding a record from its own attributes gives the same record back, provided
      its strings carry no surrounding whitespace (which every record `NewEmpresa`
      returns satisfies). */
  lemma RebuildRoundTrip(e: Empresa)
    requires forall f :: IsNormalValue(FieldValue(e, f))
    ensures NewEmpresa(Attributes(e)) == Success(e)
  {
    var kw := Attributes(e);
    forall f ensures f in kw && kw[f] == FieldValue(e, f) && Acceptable(kw, f) {
      InAllFields(f);
    }
    var r := NewEmpresa(kw).value;
    forall f ensures FieldValue(r, f) == FieldValue(e, f) {
      NormalizeFixesNormal(FieldValue(e, f));
    }
    FieldValuesDetermine(r, e);
  }

  lemma SuppliedIsNormal(kw: Kwargs, f: EmpresaField)
    ensures IsNormalValue(Supplied(kw, f))
  {
  }

  /** Every string of a record `NewEmpresa` returns is stripped, whatever was supplied. */
  lemma NewEmpresaIsNormal(kw: Kwargs)
    requires NewEmpresa(kw).Success?
    ensures forall f :: IsNormalValue(FieldValue(NewEmpresa(kw).value, f))
  {
    var e := NewEmpresa(kw).value;
    forall f ensures IsNormalValue(FieldValue(e, f)) {
      SuppliedIsNormal(kw, f);
    }
  }
}
