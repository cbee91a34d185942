/** The shipping-details form `DatosEnvioForm` (pedidos/forms.py) as an acceptance predicate
    over the submitted values. Each field is cleaned the way Django cleans it: a text field
    is stripped of surrounding whitespace; an empty cleaned value is an error exactly when the
    field is required; the field's validators (maximum length, no NUL character, and the
    field's own pattern) run only on a non-empty value. */
module Formularios {
  import opened Wrappers

  datatype Campo =
    | Nombre | Apellidos | Email | Telefono | Direccion | Ciudad | CodigoPostal | MetodoPago | Notas

  const TodosLosCampos: set<Campo> :=
    {Nombre, Apellidos, Email, Telefono, Direccion, Ciudad, CodigoPostal, MetodoPago, Notas}

  /** The values posted for the form (a value that was not posted is ""), or the cleaned
      values of a valid form. */
  datatype DatosEnvio = DatosEnvio(
    nombre: string,
    apellidos: string,
    email: string,
    telefono: string,
    direccion: string,
    ciudad: string,
    codigoPostal: string,
    metodoPago: string,
    notas: string)

  function Valor(d: DatosEnvio, c: Campo): string {
    match c
    case Nombre => d.nombre
    case Apellidos => d.apellidos
    case Email => d.email
    case Telefono => d.telefono
    case Direccion => d.direccion
    case Ciudad => d.ciudad
    case CodigoPostal => d.codigoPostal
    case MetodoPago => d.metodoPago
    case Notas => d.notas
  }

  /** What the form takes from elsewhere: Django's e-mail address validator and the keys of
      `Pedido.METODO_PAGO_CHOICES`. */
  datatype Reglas = Reglas(esEmail: string -> bool, metodosPago: set<string>)

  /** The initial value of the hidden `metodo_pago` field. */
  const MetodoPagoInicial: string := "tarjeta"

  /** Every field is required except `telefono` and `notas` (`required=False`). */
  predicate Requerido(c: Campo) {
    c != Telefono && c != Notas
  }

  /** The `max_length` of each field; `email`, `metodo_pago` and `notas` declare none. */
  function LongitudMaxima(c: Campo): Option<nat> {
    match c
    case Nombre => Some(200)
    case Apellidos => Some(200)
    case Telefono => Some(20)
    case Direccion => Some(300)
    case Ciudad => Some(100)
    case CodigoPostal => Some(10)
    case _ => None
  }

  // ---------------------------------------------------------------------------------------
  // Stripping
  // ---------------------------------------------------------------------------------------

  /** Python's `str.isspace` for one character. */
  predicate EsEspacio(c: char) {
    || ('\t' <= c <= '\r')
    || ('\U{1c}' <= c <= ' ')
    || c == '\U{85}' || c == '\U{a0}' || c == '\U{1680}'
    || ('\U{2000}' <= c <= '\U{200a}')
    || c == '\U{2028}' || c == '\U{2029}' || c == '\U{202f}' || c == '\U{205f}' || c == '\U{3000}'
  }

  /** The first position at or after k that is not whitespace, everything before k being
      whitespace. */
  function PrimerNoEspacio(s: string, k: nat): (i: nat)
    requires k <= |s|
    requires forall m :: 0 <= m < k ==> EsEspacio(s[m])
    ensures k <= i <= |s|
    ensures forall m :: 0 <= m < i ==> EsEspacio(s[m])
    ensures i == |s| || !EsEspacio(s[i])
    decreases |s| - k
  {
    if k < |s| && EsEspacio(s[k]) then PrimerNoEspacio(s, k + 1) else k
  }

  /** The end of `s` once the whitespace in front of position j is dropped, not going
      below i. */
  function FinSinEspacio(s: string, i: nat, j: nat): (e: nat)
    requires i <= j <= |s|
    requires forall m :: j <= m < |s| ==> EsEspacio(s[m])
    ensures i <= e <= j
    ensures forall m :: e <= m < |s| ==> EsEspacio(s[m])
    ensures e == i || !EsEspacio(s[e - 1])
    decreases j
  {
    if j > i && EsEspacio(s[j - 1]) then FinSinEspacio(s, i, j - 1) else j
  }

  /** `r` sits at offset i of `s`, with only whitespace before and after it. */
  predicate RecorteEn(s: string, r: string, i: int) {
    && 0 <= i <= |s| - |r|
    && r == s[i..i + |r|]
    && (forall k :: 0 <= k < i ==> EsEspacio(s[k]))
    && (forall k :: i + |r| <= k < |s| ==> EsEspacio(s[k]))
  }

  /** `str.strip()`, which a CharField applies before validating: the result is a slice of
      `s` whose surroundings in `s` are whitespace and whose ends are not. */
  function Recortar(s: string): (r: string)
    ensures r == [] || (!EsEspacio(r[0]) && !EsEspacio(r[|r| - 1]))
    ensures exists i :: RecorteEn(s, r, i)
  {
    var i := PrimerNoEspacio(s, 0);
    var j := FinSinEspacio(s, i, |s|);
    assert RecorteEn(s, s[i..j], i);
    s[i..j]
  }

  /** A value that neither starts nor ends with whitespace is left as it is. */
  lemma RecortarSinEspacios(s: string)
    requires s != [] && !EsEspacio(s[0]) && !EsEspacio(s[|s| - 1])
    ensures Recortar(s) == s
  {
    assert s[0..|s|] == s;
  }

  // ---------------------------------------------------------------------------------------
  // Field validation
  // ---------------------------------------------------------------------------------------

  /** Django's CharField always adds a validator refusing the NUL character. */
  predicate SinNul(s: string) {
    forall i :: 0 <= i < |s| ==> s[i] != '\0'
  }

  predicate EsDigito(c: char) {
    '0' <= c <= '9'
  }

  /** `re.search(r'^\d{5}$', s)`: five digits, where `$` also matches in front of a final
      newline. */
  predicate PatronCodigoPostal(s: string) {
    (|s| == 5 || (|s| == 6 && s[5] == '\n')) && forall i :: 0 <= i < 5 ==> EsDigito(s[i])
  }

  /** The validator a field declares beside its length bound. */
  predicate ValidadorPropio(c: Campo, v: string, reglas: Reglas) {
    match c
    case Email => reglas.esEmail(v)
    case CodigoPostal => PatronCodigoPostal(v)
    case _ => true
  }

  /** The cleaned value: a ChoiceField keeps the posted value, every other field strips it. */
  function Limpio(c: Campo, v: string): string {
    if c == MetodoPago then v else Recortar(v)
  }

  /** Whether one posted value passes its field's cleaning. */
  predicate CampoValido(c: Campo, v: string, reglas: Reglas) {
    if c == MetodoPago then
      v != "" && v in reglas.metodosPago
    else
      var w := Recortar(v);
      if w == "" then !Requerido(c)
      else
        && SinNul(w)
        && (LongitudMaxima(c).None? || |w| <= LongitudMaxima(c).value)
        && ValidadorPropio(c, w, reglas)
  }

  function Limpiar(d: DatosEnvio): DatosEnvio {
    DatosEnvio(
      Limpio(Nombre, d.nombre), Limpio(Apellidos, d.apellidos), Limpio(Email, d.email),
      Limpio(Telefono, d.telefono), Limpio(Direccion, d.direccion), Limpio(Ciudad, d.ciudad),
      Limpio(CodigoPostal, d.codigoPostal), Limpio(MetodoPago, d.metodoPago), Limpio(Notas, d.notas))
  }

  lemma CampoConocido(c: Campo)
    ensures c in TodosLosCampos
  {
    match c
    case Nombre =>
    case Apellidos =>
    case Email =>
    case Telefono =>
    case Direccion =>
    case Ciudad =>
    case CodigoPostal =>
    case MetodoPago =>
    case Notas =>
  }

  datatype Validacion = Valido(datos: DatosEnvio) | Invalido(errores: set<Campo>)

  /** The fields whose posted value fails its cleaning. */
  function Errores(d: DatosEnvio, reglas: Reglas): (e: set<Campo>)
    ensures forall c: Campo :: c in e <==> !CampoValido(c, Valor(d, c), reglas)
  {
    var e := set c | c in TodosLosCampos && !CampoValido(c, Valor(d, c), reglas);
    forall c: Campo ensures c in TodosLosCampos {
      CampoConocido(c);
    }
    e
  }

  /** Each field of the cleaned data is that field's cleaned value. */
  lemma LimpiarCampo(d: DatosEnvio, c: Campo)
    ensures Valor(Limpiar(d), c) == Limpio(c, Valor(d, c))
  {
  }

  /** `form.is_valid()` with `form.cleaned_data` or the fields in error. */
  function Validar(d: DatosEnvio, reglas: Reglas): (r: Validacion)
    ensures r.Valido? <==> forall c: Campo :: CampoValido(c, Valor(d, c), reglas)
    ensures r.Valido? ==> forall c: Campo :: Valor(r.datos, c) == Limpio(c, Valor(d, c))
    ensures r.Invalido? ==> r.errores != {} && forall c: Campo :: c in r.errores <==> !CampoValido(c, Valor(d, c), reglas)
  {
    var errores := Errores(d, reglas);
    forall c: Campo ensures Valor(Limpiar(d), c) == Limpio(c, Valor(d, c)) {
      LimpiarCampo(d, c);
    }
    if errores == {} then Valido(Limpiar(d)) else Invalido(errores)
  }

  // ---------------------------------------------------------------------------------------
  // Properties of the form
  // ---------------------------------------------------------------------------------------

  /** Left empty (or blank), only `telefono` and `notas` are accepted. */
  lemma VacioSoloEnOpcionales(c: Campo, v: string, reglas: Reglas)
    requires forall i :: 0 <= i < |v| ==> EsEspacio(v[i])
    requires c != MetodoPago
    ensures CampoValido(c, v, reglas) <==> c == Telefono || c == Notas
  {
  }

  /** The payment method is required and must be one of the choices. */
  lemma MetodoPagoDeLasOpciones(v: string, reglas: Reglas)
    ensures CampoValido(MetodoPago, v, reglas) <==> v in reglas.metodosPago && v != ""
  {
  }

  /** A value longer than the field's max_length once stripped is refused. */
  lemma LongitudExcedida(c: Campo, v: string, reglas: Reglas)
    requires c != MetodoPago && LongitudMaxima(c).Some?
    requires |Recortar(v)| > LongitudMaxima(c).value
    ensures !CampoValido(c, v, reglas)
  {
  }

  /** The postal code is accepted exactly when it is five ASCII digits once stripped; the
      newline that `$` would let through cannot survive the stripping. */
  lemma CodigoPostalCincoDigitos(v: string, reglas: Reglas)
    ensures CampoValido(CodigoPostal, v, reglas) <==>
      |Recortar(v)| == 5 && forall i :: 0 <= i < 5 ==> EsDigito(Recortar(v)[i])
  {
    var w := Recortar(v);
    if |w| == 6 {
      assert !EsEspacio(w[5]);
    }
    if |w| == 5 && forall i :: 0 <= i < 5 ==> EsDigito(w[i]) {
      assert SinNul(w);
    }
  }

  /** "ABCDE" and "1234" are refused. */
  lemma CodigoPostalRechazado(reglas: Reglas)
    ensures !CampoValido(CodigoPostal, "ABCDE", reglas)
    ensures !CampoValido(CodigoPostal, "1234", reglas)
  {
    RecortarSinEspacios("ABCDE");
    RecortarSinEspacios("1234");
  }

  /** "28001" is accepted, also with surrounding blanks, which the cleaning drops. */
  lemma CodigoPostalAceptado(reglas: Reglas)
    ensures CampoValido(CodigoPostal, "28001", reglas)
    ensures CampoValido(CodigoPostal, " 28001 ", reglas)
    ensures Limpio(CodigoPostal, " 28001 ") == "28001"
  {
    RecortarSinEspacios("28001");
    assert PrimerNoEspacio(" 28001 ", 0) == 1;
    assert FinSinEspacio(" 28001 ", 1, 7) == 6;
    assert Recortar(" 28001 ") == " 28001 "[1..6] == "28001";
    CodigoPostalCincoDigitos("28001", reglas);
  }
}
