/** The read-only order views of pedidos/views.py: the order confirmation page, order tracking
    by number and e-mail, and a signed-in customer's order list. Each reads the order table
    that `Pedidos.Tienda` keeps, as Django's `Pedido.objects.get(...)` and
    `Pedido.objects.filter(...).order_by(...)` read it. */
module Consultas {
  import opened Wrappers
  import opened Pedidos

  // ---------------------------------------------------------------------------------------
  // `Pedido.objects.get(...)`
  // ---------------------------------------------------------------------------------------

  /** The outcome of `QuerySet.get`: the one matching row, `DoesNotExist`, or
      `MultipleObjectsReturned`. */
  datatype Consulta = Encontrado(pedido: Pedido) | NoExiste | VariosExisten

  /** The positions among the first n orders that meet the criterion, in increasing order. */
  function Coincidencias(pedidos: seq<Pedido>, criterio: Pedido -> bool, n: nat): (r: seq<nat>)
    requires n <= |pedidos|
    ensures forall j :: 0 <= j < |r| ==> r[j] < n && criterio(pedidos[r[j]])
    ensures forall i :: 0 <= i < n && criterio(pedidos[i]) ==> i in r
    ensures forall j, k :: 0 <= j < k < |r| ==> r[j] < r[k]
  {
    if n == 0 then []
    else
      var antes := Coincidencias(pedidos, criterio, n - 1);
      if criterio(pedidos[n - 1]) then antes + [n - 1] else antes
  }

  /** `get`: exactly one matching order is returned; none or several raise. */
  function Obtener(pedidos: seq<Pedido>, criterio: Pedido -> bool): (r: Consulta)
    ensures r.Encontrado? ==> r.pedido in pedidos && criterio(r.pedido)
    ensures r.NoExiste? <==> forall i :: 0 <= i < |pedidos| ==> !criterio(pedidos[i])
    ensures r.VariosExisten? <==>
      exists i, j :: 0 <= i < j < |pedidos| && criterio(pedidos[i]) && criterio(pedidos[j])
  {
    var c := Coincidencias(pedidos, criterio, |pedidos|);
    if |c| == 0 then
      NoExiste
    else if |c| == 1 then
      assert forall i, j :: 0 <= i < |pedidos| && 0 <= j < |pedidos| && criterio(pedidos[i]) && criterio(pedidos[j]) ==> i == j by {
        forall i, j | 0 <= i < |pedidos| && 0 <= j < |pedidos| && criterio(pedidos[i]) && criterio(pedidos[j])
          ensures i == j
        {
          assert i in c && j in c;
        }
      }
      Encontrado(pedidos[c[0]])
    else
      assert 0 <= c[0] < c[1] < |pedidos| && criterio(pedidos[c[0]]) && criterio(pedidos[c[1]]);
      VariosExisten
  }

  /** When no two orders meet the criterion, `get` never raises `MultipleObjectsReturned`, and
      it finds an order exactly when one meets the criterion. */
  lemma ObtenerUnico(pedidos: seq<Pedido>, criterio: Pedido -> bool)
    requires forall i, j :: 0 <= i < |pedidos| && 0 <= j < |pedidos| && criterio(pedidos[i]) && criterio(pedidos[j]) ==> i == j
    ensures !Obtener(pedidos, criterio).VariosExisten?
    ensures Obtener(pedidos, criterio).Encontrado? <==> exists i :: 0 <= i < |pedidos| && criterio(pedidos[i])
  {
  }

  // ---------------------------------------------------------------------------------------
  // `confirmacion_pedido`
  // ---------------------------------------------------------------------------------------

  /** The confirmation page looks the order up by its number; a missing one is a 404, and
      several orders with that number make `get` raise. */
  function Confirmacion(pedidos: seq<Pedido>, numero: string): (r: Consulta)
    ensures r.Encontrado? ==> r.pedido in pedidos && r.pedido.numero == numero
    ensures r.NoExiste? <==> forall i :: 0 <= i < |pedidos| ==> pedidos[i].numero != numero
    ensures r.VariosExisten? <==>
      exists i, j :: 0 <= i < j < |pedidos| && pedidos[i].numero == numero && pedidos[j].numero == numero
    ensures r.Encontrado? <==>
      exists i :: 0 <= i < |pedidos| && pedidos[i].numero == numero &&
        forall j :: 0 <= j < |pedidos| && pedidos[j].numero == numero ==> j == i
  {
    Obtener(pedidos, (p: Pedido) => p.numero == numero)
  }

  /** With unique order numbers the confirmation page shows the order just appended. */
  lemma ConfirmacionDelNuevo(pedidos: seq<Pedido>, nuevo: Pedido)
    requires NumerosUnicos(pedidos + [nuevo])
    ensures Confirmacion(pedidos + [nuevo], nuevo.numero) == Encontrado(nuevo)
  {
    var todos := pedidos + [nuevo];
    var criterio := (p: Pedido) => p.numero == nuevo.numero;
    ObtenerUnico(todos, criterio);
    assert criterio(todos[|pedidos|]);
    var r := Obtener(todos, criterio);
    var i :| 0 <= i < |todos| && todos[i] == r.pedido;
    assert i == |pedidos|;
  }

  // ---------------------------------------------------------------------------------------
  // `seguimiento_pedido`
  // ---------------------------------------------------------------------------------------

  /** An order matches the tracking form when both posted values are present and equal its
      number and its customer e-mail. A missing value filters on NULL, which no order has. */
  predicate CoincideSeguimiento(p: Pedido, numero: Option<string>, email: Option<string>) {
    numero == Some(p.numero) && email == Some(p.emailCliente)
  }

  /** The tracking page: a GET looks nothing up (`None`); a POST runs the `get` on the posted
      number and e-mail. `NoExiste` is the "not found" message. */
  function SeguimientoPedido(pedidos: seq<Pedido>, esPost: bool, numero: Option<string>, email: Option<string>)
    : (r: Option<Consulta>)
    ensures r.None? <==> !esPost
    ensures r.Some? && r.value.Encontrado? ==>
      r.value.pedido in pedidos && numero == Some(r.value.pedido.numero) && email == Some(r.value.pedido.emailCliente)
  {
    if esPost then Some(Obtener(pedidos, (p: Pedido) => CoincideSeguimiento(p, numero, email))) else None
  }

  /** With unique order numbers, a posted lookup never raises, and it finds an order exactly
      when some order has both the posted number and the posted e-mail; otherwise it reports
      "not found". */
  lemma SeguimientoConNumerosUnicos(pedidos: seq<Pedido>, numero: Option<string>, email: Option<string>)
    requires NumerosUnicos(pedidos)
    ensures SeguimientoPedido(pedidos, true, numero, email).value.Encontrado? <==>
      exists i :: 0 <= i < |pedidos| && numero == Some(pedidos[i].numero) && email == Some(pedidos[i].emailCliente)
    ensures SeguimientoPedido(pedidos, true, numero, email).value.NoExiste? <==>
      forall i :: 0 <= i < |pedidos| ==> numero != Some(pedidos[i].numero) || email != Some(pedidos[i].emailCliente)
  {
    var criterio := (p: Pedido) => CoincideSeguimiento(p, numero, email);
    ObtenerUnico(pedidos, criterio);
  }

  /** The right number with another e-mail is not found. */
  lemma SeguimientoEmailAjeno(pedidos: seq<Pedido>, i: nat, otro: string)
    requires NumerosUnicos(pedidos) && i < |pedidos| && otro != pedidos[i].emailCliente
    ensures SeguimientoPedido(pedidos, true, Some(pedidos[i].numero), Some(otro)) == Some(NoExiste)
  {
    SeguimientoConNumerosUnicos(pedidos, Some(pedidos[i].numero), Some(otro));
  }

  // ---------------------------------------------------------------------------------------
  // `mis_pedidos`
  // ---------------------------------------------------------------------------------------

  /** The orders of customer `id`, in table order. */
  function DelCliente(pedidos: seq<Pedido>, id: UsuarioId): (r: seq<Pedido>)
    ensures forall p :: p in r <==> p in pedidos && p.cliente == Some(id)
    ensures |r| <= |pedidos|
  {
    if pedidos == [] then []
    else
      var resto := DelCliente(pedidos[1..], id);
      assert forall p :: p in pedidos <==> p == pedidos[0] || p in pedidos[1..];
      if pedidos[0].cliente == Some(id) then [pedidos[0]] + resto else resto
  }

  /** Newest first: creation dates never increase along the list. */
  predicate MasRecientesPrimero(s: seq<Pedido>) {
    forall i, j :: 0 <= i < j < |s| ==> s[i].fecha >= s[j].fecha
  }

  /** Each order is at least as recent as the next one. */
  predicate FechasNoCrecen(s: seq<Pedido>) {
    forall i :: 0 <= i < |s| - 1 ==> s[i].fecha >= s[i + 1].fecha
  }

  /** Comparing neighbours suffices: then every order is at least as recent as any later one. */
  lemma {:induction false} NoCrecenEsOrden(s: seq<Pedido>)
    requires FechasNoCrecen(s)
    ensures MasRecientesPrimero(s)
  {
    if |s| > 1 {
      var resto := s[1..];
      assert FechasNoCrecen(resto) by {
        forall i | 0 <= i < |resto| - 1 ensures resto[i].fecha >= resto[i + 1].fecha {
          assert resto[i] == s[i + 1] && resto[i + 1] == s[i + 2];
        }
      }
      NoCrecenEsOrden(resto);
      forall i, j | 0 <= i < j < |s| ensures s[i].fecha >= s[j].fecha {
        if i > 0 {
          assert s[i] == resto[i - 1] && s[j] == resto[j - 1];
        } else {
          assert s[j] == resto[j - 1] && s[1] == resto[0];
        }
      }
    }
  }

  /** Places an order in a newest-first list, ahead of the orders no newer than it. */
  function Insertar(p: Pedido, s: seq<Pedido>): (r: seq<Pedido>)
    requires FechasNoCrecen(s)
    ensures FechasNoCrecen(r)
    ensures multiset(r) == multiset(s) + multiset{p}
    ensures |r| == |s| + 1
    ensures s == [] ==> r[0] == p
    ensures s != [] ==> r[0] == p || r[0] == s[0]
  {
    if s == [] || p.fecha >= s[0].fecha then
      [p] + s
    else
      assert s == [s[0]] + s[1..];
      [s[0]] + Insertar(p, s[1..])
  }

  /** `order_by('-fecha_creacion')`: the same orders, newest first. */
  function OrdenarPorFecha(s: seq<Pedido>): (r: seq<Pedido>)
    ensures FechasNoCrecen(r)
    ensures multiset(r) == multiset(s)
  {
    if s == [] then []
    else
      assert s == [s[0]] + s[1..];
      Insertar(s[0], OrdenarPorFecha(s[1..]))
  }

  /** What the order-list page shows: the login redirect of `@login_required`, or a list. */
  datatype Listado = IrAlLogin | Lista(pedidos: seq<Pedido>)

  /** The "my orders" page. */
  function MisPedidos(pedidos: seq<Pedido>, usuario: Option<Usuario>): (r: Listado)
    ensures r.IrAlLogin? <==> usuario.None?
    ensures r.Lista? ==> MasRecientesPrimero(r.pedidos)
    ensures r.Lista? ==> multiset(r.pedidos) == multiset(DelCliente(pedidos, usuario.value.id))
  {
    if usuario.None? then IrAlLogin
    else
      var lista := OrdenarPorFecha(DelCliente(pedidos, usuario.value.id));
      NoCrecenEsOrden(lista);
      Lista(lista)
  }

  /** The list holds exactly the signed-in customer's orders: none of an anonymous checkout
      or of another customer. */
  lemma MisPedidosSoloPropios(pedidos: seq<Pedido>, u: Usuario, p: Pedido)
    ensures p in MisPedidos(pedidos, Some(u)).pedidos <==> p in pedidos && p.cliente == Some(u.id)
  {
    var r := MisPedidos(pedidos, Some(u)).pedidos;
    assert p in r <==> p in multiset(r);
    assert p in DelCliente(pedidos, u.id) <==> p in multiset(DelCliente(pedidos, u.id));
  }
}
