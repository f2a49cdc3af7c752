/**
 * The categories of personal data the content script talks about, the
 * messages a notice shows for each, and the masked examples behind
 * "Ver ejemplos".
 */
module Categories {
  import opened Text

  /** `ninguno` is what the local detector answers when nothing matched. */
  datatype Tipo = Correo | Dni | Tarjeta | Nombre | Telefono | Ubicacion | MultipleCampos | Ninguno

  /** The string the script uses for the category (history entries, notice text). */
  function Name(t: Tipo): string {
    match t
    case Correo => "correo"
    case Dni => "dni"
    case Tarjeta => "tarjeta"
    case Nombre => "nombre"
    case Telefono => "telefono"
    case Ubicacion => "ubicacion"
    case MultipleCampos => "multiple_campos"
    case Ninguno => "ninguno"
  }

  lemma NameInjective(a: Tipo, b: Tipo)
    requires Name(a) == Name(b)
    ensures a == b
  {
  }

  /** `Name(t).toUpperCase()`, used in a notice's title. */
  function UpperName(t: Tipo): (r: string)
    ensures |r| == |Name(t)|
    ensures forall k :: 0 <= k < |r| ==> Lower(r[k]) == Name(t)[k]
  {
    match t
    case Correo => "CORREO"
    case Dni => "DNI"
    case Tarjeta => "TARJETA"
    case Nombre => "NOMBRE"
    case Telefono => "TELEFONO"
    case Ubicacion => "UBICACION"
    case MultipleCampos => "MULTIPLE_CAMPOS"
    case Ninguno => "NINGUNO"
  }

  /** The five categories that count towards the aggregate form threshold (ubicacion does not). */
  const Sensibles: seq<Tipo> := [Correo, Dni, Tarjeta, Nombre, Telefono]

  predicate IsSensible(t: Tipo) { t in Sensibles }

  datatype Mensajes = Mensajes(vulnerabilidad: string, recomendacion: string)

  const MensajeGenerico := Mensajes(
    "Dato potencialmente sensible detectado.",
    "Evita compartir información personal en espacios públicos.")

  /** `mensajesPorTipo`: a specific text for the four data categories and the aggregate, a generic one otherwise. */
  function MensajesPorTipo(t: Tipo): (r: Mensajes)
    ensures r == MensajeGenerico <==> t in {Telefono, Ubicacion, Ninguno}
  {
    match t
    case Correo => Mensajes("Correo electrónico expuesto.", "Evita compartir tu correo en chats o foros públicos.")
    case Dni => Mensajes("Número de DNI detectado.", "Nunca compartas tu DNI en plataformas abiertas.")
    case Tarjeta => Mensajes("Posible número de tarjeta detectado.", "No escribas números de tarjeta en ningún campo de texto no seguro.")
    case Nombre => Mensajes("Exposición de nombre.", "Evita publicar tu nombre completo en foros o juegos públicos.")
    case MultipleCampos => Mensajes("Este formulario solicita múltiples datos sensibles.", "Revisa la política del sitio y comparte solo lo necesario.")
    case _ => MensajeGenerico
  }

  /** `ejemplosEnmascarados`: three masked samples for the maskable categories, none otherwise. */
  function EjemplosEnmascarados(t: Tipo): (r: seq<string>)
    ensures r != [] <==> t in {Correo, Dni, Tarjeta}
    ensures r != [] ==> |r| == 3
    ensures forall k :: 0 <= k < |r| ==> '*' in r[k]
  {
    match t
    case Correo =>
      ["j***@correo.com", "m*****.p****@dominio.pe", "u*****+promo@ejemplo.org"]
    case Dni =>
      ["******12", "*****834", "******90"]
    case Tarjeta =>
      ["**** **** **** 1234", "****-****-****-9876", "************4321"]
    case _ => []
  }
}
