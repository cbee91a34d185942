/** The order views of pedidos/views.py: the three cart-editing views and `checkout`, which
    turns the visitor's cart into one `Pedido`, one `ItemPedido` per cart line and a stock
    decrement per line, and then empties the cart. */
module Pedidos {
  import opened Wrappers
  import opened Productos
  import opened Carritos
  import opened Formularios

  type UsuarioId = nat

  /** The profile columns of the logged-in customer that the views read. */
  datatype Usuario = Usuario(
    id: UsuarioId,
    nombre: string,
    apellidos: string,
    email: string,
    telefono: string,
    direccion: string,
    ciudad: string,
    codigoPostal: string)

  /** An order row. `id` is its position in the order table; `fecha` is the creation time
      the database stamps on it. */
  datatype Pedido = Pedido(
    id: nat,
    numero: string,
    cliente: Option<UsuarioId>,
    nombreCliente: string,
    apellidosCliente: string,
    emailCliente: string,
    telefonoCliente: string,
    direccionEnvio: string,
    ciudadEnvio: string,
    codigoPostalEnvio: string,
    subtotal: int,
    impuestos: int,
    costeEntrega: int,
    total: int,
    metodoPago: string,
    notas: string,
    fecha: int)

  /** An order line: a snapshot of one cart line at checkout time. */
  datatype ItemPedido = ItemPedido(
    pedido: nat,
    producto: ProductoId,
    nombreProducto: string,
    talla: string,
    cantidad: int,
    precioUnitario: int,
    total: int)

  /** What the cart computes by rules of its own: the four totals of `checkout`, each line's
      total, and the unit price `agregar` records for a product. */
  datatype Calculadora = Calculadora(
    subtotal: seq<Linea> -> int,
    envio: seq<Linea> -> int,
    impuestos: seq<Linea> -> int,
    total: seq<Linea> -> int,
    totalLinea: Linea -> int,
    precioUnitario: Producto -> int)

  /** The request `checkout` receives: a GET, or a POST carrying the form values. */
  datatype Peticion = Get | Post(datos: DatosEnvio)

  /** How `checkout` answers. */
  datatype Respuesta =
    | CarritoVacio                       // redirect to the catalogue
    | Formulario(inicial: DatosEnvio)    // the blank (or prefilled) form
    | ConErrores(errores: set<Campo>)    // the form again, with the failing fields
    | Confirmado(numero: string)         // redirect to the confirmation of this order

  // ---------------------------------------------------------------------------------------
  // Checkout as functions of the state it starts from
  // ---------------------------------------------------------------------------------------

  /** The initial values of the GET form: the logged-in customer's profile, nothing for a
      visitor; the payment method always starts at its field's initial value. */
  function DatosIniciales(usuario: Option<Usuario>): DatosEnvio {
    match usuario
    case None => DatosEnvio("", "", "", "", "", "", "", MetodoPagoInicial, "")
    case Some(u) =>
      DatosEnvio(u.nombre, u.apellidos, u.email, u.telefono, u.direccion, u.ciudad, u.codigoPostal,
                 MetodoPagoInicial, "")
  }

  /** Which answer `checkout` gives. */
  function Desenlace(lineas: seq<Linea>, peticion: Peticion, usuario: Option<Usuario>, reglas: Reglas,
                     numero: string): Respuesta
  {
    if |lineas| == 0 then CarritoVacio
    else match peticion
      case Get => Formulario(DatosIniciales(usuario))
      case Post(d) =>
        match Validar(d, reglas)
        case Invalido(errores) => ConErrores(errores)
        case Valido(_) => Confirmado(numero)
  }

  /** The order row `checkout` creates from the cleaned form and the cart's totals. */
  function NuevoPedido(id: nat, numero: string, usuario: Option<Usuario>, d: DatosEnvio, cuentas: Calculadora,
                       lineas: seq<Linea>, ahora: int): Pedido
  {
    Pedido(id, numero, if usuario.Some? then Some(usuario.value.id) else None,
           d.nombre, d.apellidos, d.email, d.telefono, d.direccion, d.ciudad, d.codigoPostal,
           cuentas.subtotal(lineas), cuentas.impuestos(lineas), cuentas.envio(lineas), cuentas.total(lineas),
           d.metodoPago, d.notas, ahora)
  }

  /** The order a valid form places: the customer is the logged-in user (none for a visitor);
      the contact and shipping columns hold the cleaned, stripped form values, so the postal
      code is five digits and the payment method one of the choices; the four amounts are the
      cart's totals at that moment. */
  lemma PedidoDelFormulario(id: nat, numero: string, usuario: Option<Usuario>, d: DatosEnvio, reglas: Reglas,
                            cuentas: Calculadora, lineas: seq<Linea>, ahora: int)
    requires Validar(d, reglas).Valido?
    ensures var p := NuevoPedido(id, numero, usuario, Validar(d, reglas).datos, cuentas, lineas, ahora);
      && (p.cliente.Some? <==> usuario.Some?)
      && (usuario.Some? ==> p.cliente == Some(usuario.value.id))
      && p.nombreCliente == Recortar(d.nombre) && p.apellidosCliente == Recortar(d.apellidos)
      && p.emailCliente == Recortar(d.email) && p.telefonoCliente == Recortar(d.telefono)
      && p.direccionEnvio == Recortar(d.direccion) && p.ciudadEnvio == Recortar(d.ciudad)
      && p.codigoPostalEnvio == Recortar(d.codigoPostal)
      && p.metodoPago == d.metodoPago && p.notas == Recortar(d.notas)
      && |p.codigoPostalEnvio| == 5 && (forall i :: 0 <= i < 5 ==> EsDigito(p.codigoPostalEnvio[i]))
      && p.metodoPago in reglas.metodosPago
      && p.subtotal == cuentas.subtotal(lineas) && p.impuestos == cuentas.impuestos(lineas)
      && p.costeEntrega == cuentas.envio(lineas) && p.total == cuentas.total(lineas)
  {
    var datos := Validar(d, reglas).datos;
    assert Valor(datos, CodigoPostal) == Limpio(CodigoPostal, Valor(d, CodigoPostal));
    assert Valor(datos, MetodoPago) == Limpio(MetodoPago, Valor(d, MetodoPago));
    assert Valor(datos, Nombre) == Limpio(Nombre, Valor(d, Nombre));
    assert Valor(datos, Apellidos) == Limpio(Apellidos, Valor(d, Apellidos));
    assert Valor(datos, Email) == Limpio(Email, Valor(d, Email));
    assert Valor(datos, Telefono) == Limpio(Telefono, Valor(d, Telefono));
    assert Valor(datos, Direccion) == Limpio(Direccion, Valor(d, Direccion));
    assert Valor(datos, Ciudad) == Limpio(Ciudad, Valor(d, Ciudad));
    assert Valor(datos, Notas) == Limpio(Notas, Valor(d, Notas));
    assert CampoValido(CodigoPostal, d.codigoPostal, reglas);
    assert CampoValido(MetodoPago, d.metodoPago, reglas);
    CodigoPostalCincoDigitos(d.codigoPostal, reglas);
  }

  /** Every line of the cart names a product of the table. */
  predicate EnCatalogo(lineas: seq<Linea>, productos: map<ProductoId, Producto>) {
    forall i :: 0 <= i < |lineas| ==> lineas[i].producto in productos
  }

  /** The order line that snapshots one cart line. */
  function ItemDe(pedido: nat, l: Linea, productos: map<ProductoId, Producto>, cuentas: Calculadora): ItemPedido
    requires l.producto in productos
  {
    ItemPedido(pedido, l.producto, productos[l.producto].nombre, l.talla, l.cantidad, l.precio,
               cuentas.totalLinea(l))
  }

  /** The order lines of the first n cart lines, one per line and in the cart's order. */
  function ItemsDe(pedido: nat, lineas: seq<Linea>, n: nat, productos: map<ProductoId, Producto>,
                   cuentas: Calculadora): (r: seq<ItemPedido>)
    requires EnCatalogo(lineas, productos) && n <= |lineas|
    ensures |r| == n
  {
    if n == 0 then []
    else ItemsDe(pedido, lineas, n - 1, productos, cuentas) + [ItemDe(pedido, lineas[n - 1], productos, cuentas)]
  }

  /** Order line i belongs to the new order and copies cart line i: its product, that
      product's name at checkout time, its size, quantity and unit price, and the line total. */
  lemma {:induction false} ItemsDeCopian(pedido: nat, lineas: seq<Linea>, n: nat, productos: map<ProductoId, Producto>,
                                         cuentas: Calculadora, i: nat)
    requires EnCatalogo(lineas, productos) && i < n <= |lineas|
    ensures var r := ItemsDe(pedido, lineas, n, productos, cuentas);
      && r[i].pedido == pedido
      && r[i].producto == lineas[i].producto
      && r[i].nombreProducto == productos[lineas[i].producto].nombre
      && r[i].talla == lineas[i].talla
      && r[i].cantidad == lineas[i].cantidad
      && r[i].precioUnitario == lineas[i].precio
      && r[i].total == cuentas.totalLinea(lineas[i])
  {
    if i < n - 1 {
      ItemsDeCopian(pedido, lineas, n - 1, productos, cuentas, i);
    }
  }

  /** The summed quantity of the first n cart lines of product `id`. */
  function CantidadPedida(lineas: seq<Linea>, n: nat, id: ProductoId): int
    requires n <= |lineas|
  {
    if n == 0 then 0
    else CantidadPedida(lineas, n - 1, id) + (if lineas[n - 1].producto == id then lineas[n - 1].cantidad else 0)
  }

  /** Whether one of the first n cart lines is of product `id`. */
  predicate EnCarrito(lineas: seq<Linea>, n: nat, id: ProductoId) {
    exists i :: 0 <= i < n && i < |lineas| && lineas[i].producto == id
  }

  /** The product table after the first n rounds of the stock loop: line by line, the
      product's stock drops by the line's quantity and the row is saved (which fills an empty
      slug). */
  function StockTras(productos: map<ProductoId, Producto>, lineas: seq<Linea>, n: nat, slugify: string -> string)
    : (r: map<ProductoId, Producto>)
    requires EnCatalogo(lineas, productos) && n <= |lineas|
    ensures forall k :: k in r <==> k in productos
  {
    if n == 0 then productos
    else
      var antes := StockTras(productos, lineas, n - 1, slugify);
      var p := antes[lineas[n - 1].producto];
      antes[lineas[n - 1].producto := AlGuardar(p.(stock := p.stock - lineas[n - 1].cantidad), slugify)]
  }

  /** One more round of the stock loop saves the line's product as the table holds it then,
      with its stock lowered by the line's quantity. */
  lemma StockTrasAnadir(productos: map<ProductoId, Producto>, lineas: seq<Linea>, n: nat, slugify: string -> string,
                        antes: map<ProductoId, Producto>)
    requires EnCatalogo(lineas, productos) && n < |lineas|
    requires antes == StockTras(productos, lineas, n, slugify)
    ensures lineas[n].producto in antes
    ensures StockTras(productos, lineas, n + 1, slugify) ==
      antes[lineas[n].producto := AlGuardar(antes[lineas[n].producto].(stock := antes[lineas[n].producto].stock - lineas[n].cantidad), slugify)]
  {
  }

  /** Saving a row whose slug was already filled by a save, with another stock, is the same
      as saving the original row with that stock. */
  lemma GuardarDosVeces(p: Producto, stock: int, slugify: string -> string)
    ensures AlGuardar(AlGuardar(p, slugify).(stock := stock), slugify) == AlGuardar(p.(stock := stock), slugify)
  {
  }

  /** After n rounds of the stock loop, a product none of those lines names is untouched. */
  lemma {:induction false} StockTrasFuera(productos: map<ProductoId, Producto>, lineas: seq<Linea>, n: nat,
                                          slugify: string -> string, id: ProductoId)
    requires EnCatalogo(lineas, productos) && n <= |lineas| && id in productos
    requires !EnCarrito(lineas, n, id)
    ensures StockTras(productos, lineas, n, slugify)[id] == productos[id]
  {
    if n > 0 {
      StockTrasFuera(productos, lineas, n - 1, slugify, id);
    }
  }

  /** Lowering the stock of a saved row by c and saving it again is one save of the
      original row with both decrements. */
  lemma GuardarAcumula(p: Producto, antes: int, c: int, slugify: string -> string)
    ensures var q := AlGuardar(p.(stock := p.stock - antes), slugify);
      AlGuardar(q.(stock := q.stock - c), slugify) == AlGuardar(p.(stock := p.stock - (antes + c)), slugify)
  {
    GuardarDosVeces(p.(stock := p.stock - antes), p.stock - (antes + c), slugify);
  }

  /** Row p of product `id` after the first n rounds of the stock loop, followed on its own. */
  function FilaTras(p: Producto, lineas: seq<Linea>, n: nat, id: ProductoId, slugify: string -> string): Producto
    requires n <= |lineas|
  {
    if n == 0 then p
    else
      var a := FilaTras(p, lineas, n - 1, id, slugify);
      if lineas[n - 1].producto == id then AlGuardar(a.(stock := a.stock - lineas[n - 1].cantidad), slugify) else a
  }

  /** The table after n rounds holds, for each product, its row followed on its own. */
  lemma {:induction false} StockTrasFila(productos: map<ProductoId, Producto>, lineas: seq<Linea>, n: nat,
                                         slugify: string -> string, id: ProductoId)
    requires EnCatalogo(lineas, productos) && n <= |lineas| && id in productos
    ensures StockTras(productos, lineas, n, slugify)[id] == FilaTras(productos[id], lineas, n, id, slugify)
  {
    if n > 0 {
      StockTrasFila(productos, lineas, n - 1, slugify, id);
    }
  }

  /** A row none of the first n lines names is never touched. */
  lemma {:induction false} FilaTrasFuera(p: Producto, lineas: seq<Linea>, n: nat, id: ProductoId,
                                         slugify: string -> string)
    requires n <= |lineas| && !EnCarrito(lineas, n, id)
    ensures FilaTras(p, lineas, n, id, slugify) == p
  {
    if n > 0 {
      FilaTrasFuera(p, lineas, n - 1, id, slugify);
    }
  }

  /** A row some of the first n lines name ends as one save of it with its stock lowered by
      their summed quantity. */
  lemma {:induction false} FilaTrasDentro(p: Producto, lineas: seq<Linea>, n: nat, id: ProductoId,
                                          slugify: string -> string)
    requires n <= |lineas| && EnCarrito(lineas, n, id)
    ensures FilaTras(p, lineas, n, id, slugify) ==
      AlGuardar(p.(stock := p.stock - CantidadPedida(lineas, n, id)), slugify)
  {
    var l := lineas[n - 1];
    if l.producto != id {
      assert EnCarrito(lineas, n - 1, id) by {
        var i :| 0 <= i < n && i < |lineas| && lineas[i].producto == id;
        assert i < n - 1 && lineas[i].producto == id;
      }
      FilaTrasDentro(p, lineas, n - 1, id, slugify);
    } else if EnCarrito(lineas, n - 1, id) {
      FilaTrasDentro(p, lineas, n - 1, id, slugify);
      GuardarAcumula(p, CantidadPedida(lineas, n - 1, id), l.cantidad, slugify);
    } else {
      FilaTrasFuera(p, lineas, n - 1, id, slugify);
      NoPedida(lineas, n - 1, id);
    }
  }

  /** After n rounds of the stock loop, a product of those lines is the original row with its
      stock lowered by the summed quantity of its lines, saved once. */
  lemma StockTrasDentro(productos: map<ProductoId, Producto>, lineas: seq<Linea>, n: nat,
                        slugify: string -> string, id: ProductoId)
    requires EnCatalogo(lineas, productos) && n <= |lineas| && id in productos
    requires EnCarrito(lineas, n, id)
    ensures StockTras(productos, lineas, n, slugify)[id] ==
      AlGuardar(productos[id].(stock := productos[id].stock - CantidadPedida(lineas, n, id)), slugify)
  {
    StockTrasFila(productos, lineas, n, slugify, id);
    FilaTrasDentro(productos[id], lineas, n, id, slugify);
  }

  /** A product none of the first n lines names is ordered zero times. */
  lemma {:induction false} NoPedida(lineas: seq<Linea>, n: nat, id: ProductoId)
    requires n <= |lineas| && !EnCarrito(lineas, n, id)
    ensures CantidadPedida(lineas, n, id) == 0
  {
    if n > 0 {
      NoPedida(lineas, n - 1, id);
    }
  }

  /** After n rounds of the stock loop (all of them when n is the number of lines) each
      product's stock is its old stock minus the summed quantity of its lines among the first
      n; the rest of the row keeps its name and prices, and a product outside those lines is
      untouched. */
  lemma StockFinal(productos: map<ProductoId, Producto>, lineas: seq<Linea>, n: nat, slugify: string -> string,
                   id: ProductoId)
    requires EnCatalogo(lineas, productos) && n <= |lineas| && id in productos
    ensures StockTras(productos, lineas, n, slugify)[id].stock == productos[id].stock - CantidadPedida(lineas, n, id)
    ensures StockTras(productos, lineas, n, slugify)[id].nombre == productos[id].nombre
    ensures StockTras(productos, lineas, n, slugify)[id].precio == productos[id].precio
    ensures StockTras(productos, lineas, n, slugify)[id].precioOferta == productos[id].precioOferta
    ensures !EnCarrito(lineas, n, id) ==> StockTras(productos, lineas, n, slugify)[id] == productos[id]
  {
    if EnCarrito(lineas, n, id) {
      StockTrasDentro(productos, lineas, n, slugify, id);
    } else {
      StockTrasFuera(productos, lineas, n, slugify, id);
      NoPedida(lineas, n, id);
    }
  }

  /** Nothing bounds the stock from below: ordering 3 of a product with 2 in stock leaves -1. */
  lemma StockPuedeSerNegativo(slugify: string -> string)
    ensures StockTras(map[7 := Producto("Collar", 1000, None, 2, "collar")],
                      [Linea(7, "M", 3, 1000)], 1, slugify)[7].stock == -1
  {
  }

  /** Only a non-empty cart posted with a valid form places an order. */
  lemma ConfirmadoSoloSiValido(lineas: seq<Linea>, peticion: Peticion, usuario: Option<Usuario>, reglas: Reglas,
                               numero: string)
    ensures Desenlace(lineas, peticion, usuario, reglas, numero).Confirmado? <==>
      |lineas| > 0 && peticion.Post? && forall c: Campo :: CampoValido(c, Valor(peticion.datos, c), reglas)
    ensures Desenlace(lineas, peticion, usuario, reglas, numero).ConErrores? ==>
      Desenlace(lineas, peticion, usuario, reglas, numero).errores != {}
  {
  }

  /** A visitor who is not logged in starts from a form that cannot be submitted as it is:
      every required text field is blank. */
  lemma FormularioDeVisitanteIncompleto(reglas: Reglas)
    ensures Validar(DatosIniciales(None), reglas).Invalido?
    ensures Nombre in Validar(DatosIniciales(None), reglas).errores
    ensures Telefono !in Validar(DatosIniciales(None), reglas).errores
  {
    assert !CampoValido(Nombre, Valor(DatosIniciales(None), Nombre), reglas);
  }

  /** A logged-in customer's form starts from their profile. */
  lemma FormularioDeClientePrellenado(u: Usuario)
    ensures forall c: Campo :: c != MetodoPago && c != Notas ==>
      Valor(DatosIniciales(Some(u)), c) == ValorDePerfil(u, c)
    ensures Valor(DatosIniciales(Some(u)), MetodoPago) == "tarjeta"
  {
  }

  /** The profile column that prefills a form field (none for the payment method and notes). */
  function ValorDePerfil(u: Usuario, c: Campo): string {
    match c
    case Nombre => u.nombre
    case Apellidos => u.apellidos
    case Email => u.email
    case Telefono => u.telefono
    case Direccion => u.direccion
    case Ciudad => u.ciudad
    case CodigoPostal => u.codigoPostal
    case _ => ""
  }

  // ---------------------------------------------------------------------------------------
  // The cart views
  // ---------------------------------------------------------------------------------------

  /** `actualizar_carrito`'s effect on the lines: a positive quantity overwrites the line,
      anything else removes it. */
  function Actualizada(lineas: seq<Linea>, k: Clave, cantidad: int, precio: int): seq<Linea> {
    if cantidad > 0 then Agregada(lineas, k, cantidad, precio, true) else Eliminada(lineas, k)
  }

  /** After the update the line holds exactly the posted quantity when it is positive and is
      gone otherwise; no other line changes. */
  lemma ActualizadaCantidad(lineas: seq<Linea>, k: Clave, cantidad: int, precio: int)
    requires ClavesUnicas(lineas)
    ensures ClavesUnicas(Actualizada(lineas, k, cantidad, precio))
    ensures forall c :: (Cantidad(Actualizada(lineas, k, cantidad, precio), c) ==
      if c != k then Cantidad(lineas, c) else if cantidad > 0 then Some(cantidad) else None)
  {
    if cantidad > 0 {
      AgregadaCantidad(lineas, k, cantidad, precio, true);
    } else {
      EliminadaCantidad(lineas, k);
    }
  }

  // ---------------------------------------------------------------------------------------
  // The store
  // ---------------------------------------------------------------------------------------

  /** Order numbers identify orders. */
  predicate NumerosUnicos(pedidos: seq<Pedido>) {
    forall i, j :: 0 <= i < |pedidos| && 0 <= j < |pedidos| && pedidos[i].numero == pedidos[j].numero ==> i == j
  }

  /** Appending an order with a new number keeps the numbers unique. */
  lemma NumerosUnicosAnadir(pedidos: seq<Pedido>, p: Pedido)
    requires NumerosUnicos(pedidos)
    requires forall i :: 0 <= i < |pedidos| ==> pedidos[i].numero != p.numero
    ensures NumerosUnicos(pedidos + [p])
  {
  }

  /** The order and order-line tables beside the catalogue. */
  class Tienda {
    var pedidos: seq<Pedido>
    var items: seq<ItemPedido>
    const catalogo: Catalogo

    ghost predicate Valid()
      reads this, catalogo`imagenes, catalogo`siguientePk, catalogo`tallas
    {
      && catalogo.Valid()
      && NumerosUnicos(pedidos)
      && (forall i :: 0 <= i < |pedidos| ==> pedidos[i].id == i)
      && (forall i :: 0 <= i < |items| ==> items[i].pedido < |pedidos|)
    }

    constructor (catalogo: Catalogo)
      requires catalogo.Valid()
      ensures Valid() && pedidos == [] && items == [] && this.catalogo == catalogo
    {
      pedidos := [];
      items := [];
      this.catalogo := catalogo;
    }

    /** `agregar_al_carrito`: a product that does not exist answers 404 and leaves the cart;
        otherwise the posted quantity (1 when absent) is added to the line of the posted size
        ('' when absent). */
    method AgregarAlCarrito(carrito: Carrito, id: ProductoId, cantidad: Option<int>, talla: Option<string>,
                            cuentas: Calculadora) returns (encontrado: bool)
      requires carrito.Valid()
      modifies carrito
      ensures carrito.Valid()
      ensures encontrado <==> id in catalogo.productos
      ensures !encontrado ==> carrito.lineas == old(carrito.lineas)
      ensures encontrado ==> (carrito.lineas ==
        Agregada(old(carrito.lineas), (id, talla.GetOr("")), cantidad.GetOr(1),
                 cuentas.precioUnitario(catalogo.productos[id]), false))
      ensures encontrado ==> forall c :: (Cantidad(carrito.lineas, c) ==
        if c != (id, talla.GetOr("")) then Cantidad(old(carrito.lineas), c)
        else if Cantidad(old(carrito.lineas), c).None? then Some(cantidad.GetOr(1))
        else Some(Cantidad(old(carrito.lineas), c).value + cantidad.GetOr(1)))
    {
      encontrado := id in catalogo.productos;
      if encontrado {
        carrito.Agregar(id, talla.GetOr(""), cantidad.GetOr(1), cuentas.precioUnitario(catalogo.productos[id]), false);
      }
    }

    /** `actualizar_carrito`: 404 for a missing product; otherwise the line of the posted
        size takes the posted quantity (1 when absent) if it is positive and is removed if
        not. */
    method ActualizarCarrito(carrito: Carrito, id: ProductoId, cantidad: Option<int>, talla: Option<string>,
                             cuentas: Calculadora) returns (encontrado: bool)
      requires carrito.Valid()
      modifies carrito
      ensures carrito.Valid()
      ensures encontrado <==> id in catalogo.productos
      ensures !encontrado ==> carrito.lineas == old(carrito.lineas)
      ensures encontrado ==> (carrito.lineas ==
        Actualizada(old(carrito.lineas), (id, talla.GetOr("")), cantidad.GetOr(1),
                    cuentas.precioUnitario(catalogo.productos[id])))
      ensures encontrado ==> forall c :: (Cantidad(carrito.lineas, c) ==
        if c != (id, talla.GetOr("")) then Cantidad(old(carrito.lineas), c)
        else if cantidad.GetOr(1) > 0 then Some(cantidad.GetOr(1)) else None)
    {
      encontrado := id in catalogo.productos;
      if encontrado {
        var n := cantidad.GetOr(1);
        var t := talla.GetOr("");
        ActualizadaCantidad(carrito.lineas, (id, t), n, cuentas.precioUnitario(catalogo.productos[id]));
        if n > 0 {
          carrito.Agregar(id, t, n, cuentas.precioUnitario(catalogo.productos[id]), true);
        } else {
          carrito.Eliminar(id, t);
        }
      }
    }

    /** `eliminar_del_carrito`: 404 for a missing product; otherwise the line of the size
        given in the query string ('' when absent) is removed. */
    method EliminarDelCarrito(carrito: Carrito, id: ProductoId, talla: Option<string>) returns (encontrado: bool)
      requires carrito.Valid()
      modifies carrito
      ensures carrito.Valid()
      ensures encontrado <==> id in catalogo.productos
      ensures !encontrado ==> carrito.lineas == old(carrito.lineas)
      ensures encontrado ==> carrito.lineas == Eliminada(old(carrito.lineas), (id, talla.GetOr("")))
    {
      encontrado := id in catalogo.productos;
      if encontrado {
        carrito.Eliminar(id, talla.GetOr(""));
      }
    }

    /** `Pedido.objects.create`: the new row gets the next position. */
    method CrearPedido(pedido: Pedido)
      requires Valid()
      requires pedido.id == |pedidos|
      requires forall i :: 0 <= i < |pedidos| ==> pedidos[i].numero != pedido.numero
      modifies this`pedidos
      ensures Valid()
      ensures pedidos == old(pedidos) + [pedido]
    {
      NumerosUnicosAnadir(pedidos, pedido);
      pedidos := pedidos + [pedido];
    }

    /** The loop of `checkout` over the cart: per line, one order line linked to order `id`,
        then the product's stock lowered by the line's quantity and the row saved. */
    method RegistrarLineas(id: nat, lineas: seq<Linea>, cuentas: Calculadora, slugify: string -> string)
      requires Valid() && id < |pedidos|
      requires EnCatalogo(lineas, catalogo.productos)
      requires SlugsUnicos(catalogo.productos) && Guardados(catalogo.productos, slugify)
      modifies this`items, catalogo`productos
      ensures Valid()
      ensures items == old(items) + ItemsDe(id, lineas, |lineas|, old(catalogo.productos), cuentas)
      ensures catalogo.productos == StockTras(old(catalogo.productos), lineas, |lineas|, slugify)
      ensures SlugsUnicos(catalogo.productos) && Guardados(catalogo.productos, slugify)
    {
      var productos := catalogo.productos;
      var previos := items;
      var i := 0;
      while i < |lineas|
        invariant 0 <= i <= |lineas|
        invariant items == previos + ItemsDe(id, lineas, i, productos, cuentas)
        invariant catalogo.productos == StockTras(productos, lineas, i, slugify)
        invariant SlugsUnicos(catalogo.productos) && Guardados(catalogo.productos, slugify)
        invariant Valid()
      {
        RegistrarLinea(id, lineas, i, productos, previos, cuentas, slugify);
        i := i + 1;
      }
    }

    /** One round of the loop: the order line for cart line i, then that line's product, as
        the catalogue holds it now, saved with its stock lowered by the line's quantity. */
    method RegistrarLinea(id: nat, lineas: seq<Linea>, i: nat, productos: map<ProductoId, Producto>,
                          previos: seq<ItemPedido>, cuentas: Calculadora, slugify: string -> string)
      requires Valid() && id < |pedidos|
      requires EnCatalogo(lineas, productos) && i < |lineas|
      requires items == previos + ItemsDe(id, lineas, i, productos, cuentas)
      requires catalogo.productos == StockTras(productos, lineas, i, slugify)
      requires SlugsUnicos(catalogo.productos) && Guardados(catalogo.productos, slugify)
      modifies this`items, catalogo`productos
      ensures Valid()
      ensures items == previos + ItemsDe(id, lineas, i + 1, productos, cuentas)
      ensures catalogo.productos == StockTras(productos, lineas, i + 1, slugify)
      ensures SlugsUnicos(catalogo.productos) && Guardados(catalogo.productos, slugify)
    {
      AnadirItem(id, lineas, i, productos, previos, cuentas);
      BajarStock(lineas, i, productos, slugify);
    }

    /** The order-line half of one round: `ItemPedido.objects.create` for cart line i. */
    method AnadirItem(id: nat, lineas: seq<Linea>, i: nat, productos: map<ProductoId, Producto>,
                      previos: seq<ItemPedido>, cuentas: Calculadora)
      requires Valid() && id < |pedidos|
      requires EnCatalogo(lineas, productos) && i < |lineas|
      requires items == previos + ItemsDe(id, lineas, i, productos, cuentas)
      modifies this`items
      ensures Valid()
      ensures items == previos + ItemsDe(id, lineas, i + 1, productos, cuentas)
    {
      items := items + [ItemDe(id, lineas[i], productos, cuentas)];
    }

    /** The stock half of one round: the line's product, as the catalogue holds it now, saved
        with its stock lowered by the line's quantity. */
    method BajarStock(lineas: seq<Linea>, i: nat, productos: map<ProductoId, Producto>, slugify: string -> string)
      requires EnCatalogo(lineas, productos) && i < |lineas|
      requires catalogo.productos == StockTras(productos, lineas, i, slugify)
      requires SlugsUnicos(catalogo.productos) && Guardados(catalogo.productos, slugify)
      modifies catalogo`productos
      ensures catalogo.productos == StockTras(productos, lineas, i + 1, slugify)
      ensures SlugsUnicos(catalogo.productos) && Guardados(catalogo.productos, slugify)
    {
      var l := lineas[i];
      StockTrasAnadir(productos, lineas, i, slugify, catalogo.productos);
      var actual := catalogo.productos[l.producto];
      catalogo.GuardarStock(l.producto, actual.stock - l.cantidad, slugify);
    }

    /** The part of `checkout` that runs once the form is valid. */
    method Confirmar(carrito: Carrito, usuario: Option<Usuario>, datos: DatosEnvio, cuentas: Calculadora,
                     numero: string, ahora: int, slugify: string -> string)
      requires Valid() && carrito.Valid()
      requires EnCatalogo(carrito.lineas, catalogo.productos)
      requires SlugsUnicos(catalogo.productos) && Guardados(catalogo.productos, slugify)
      requires forall i :: 0 <= i < |pedidos| ==> pedidos[i].numero != numero
      modifies this, catalogo`productos, carrito
      ensures Valid() && carrito.Valid()
      ensures SlugsUnicos(catalogo.productos) && Guardados(catalogo.productos, slugify)
      ensures pedidos == old(pedidos) + [NuevoPedido(|old(pedidos)|, numero, usuario, datos, cuentas,
                                                     old(carrito.lineas), ahora)]
      ensures items == old(items) + ItemsDe(|old(pedidos)|, old(carrito.lineas), |old(carrito.lineas)|, old(catalogo.productos), cuentas)
      ensures catalogo.productos == StockTras(old(catalogo.productos), old(carrito.lineas), |old(carrito.lineas)|, slugify)
      ensures carrito.lineas == []
    {
      var lineas := carrito.lineas;
      var id := |pedidos|;
      CrearPedido(NuevoPedido(id, numero, usuario, datos, cuentas, lineas, ahora));
      RegistrarLineas(id, lineas, cuentas, slugify);
      carrito.Limpiar();
    }

    /** `checkout`. An empty cart, a GET and an invalid form change nothing. A valid POST
        appends one order carrying the cart's totals, appends one order line per cart line,
        lowers each product's stock line by line (saving the row each time), and empties the
        cart. The order number, the clock and `slugify` come from outside. */
    method Checkout(carrito: Carrito, peticion: Peticion, usuario: Option<Usuario>, reglas: Reglas,
                    cuentas: Calculadora, numero: string, ahora: int, slugify: string -> string)
      returns (r: Respuesta)
      requires Valid() && carrito.Valid()
      requires EnCatalogo(carrito.lineas, catalogo.productos)
      requires SlugsUnicos(catalogo.productos) && Guardados(catalogo.productos, slugify)
      requires forall i :: 0 <= i < |pedidos| ==> pedidos[i].numero != numero
      modifies this, catalogo`productos, carrito
      ensures Valid() && carrito.Valid()
      ensures SlugsUnicos(catalogo.productos) && Guardados(catalogo.productos, slugify)
      ensures r == Desenlace(old(carrito.lineas), peticion, usuario, reglas, numero)
      ensures !r.Confirmado? ==>
        && pedidos == old(pedidos) && items == old(items)
        && catalogo.productos == old(catalogo.productos) && carrito.lineas == old(carrito.lineas)
      ensures r.Confirmado? ==>
        && pedidos == old(pedidos) +
             [NuevoPedido(|old(pedidos)|, numero, usuario, Validar(peticion.datos, reglas).datos, cuentas,
                          old(carrito.lineas), ahora)]
        && items == old(items) + ItemsDe(|old(pedidos)|, old(carrito.lineas), |old(carrito.lineas)|, old(catalogo.productos), cuentas)
        && catalogo.productos == StockTras(old(catalogo.productos), old(carrito.lineas), |old(carrito.lineas)|, slugify)
        && carrito.lineas == []
    {
      r := Desenlace(carrito.lineas, peticion, usuario, reglas, numero);
      if r.Confirmado? {
        Confirmar(carrito, usuario, Validar(peticion.datos, reglas).datos, cuentas, numero, ahora, slugify);
      }
    }
  }
}
