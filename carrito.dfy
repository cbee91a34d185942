/** The visitor's session cart as the order views use it. The cart's own class is not part of
    this model; its lines and operations follow the contract the views rely on: lines keyed by
    (product, size); `agregar` either accumulates or overwrites the quantity of that line and
    inserts the line when it is missing; `eliminar` drops the line if present; `limpiar`
    empties the cart; `len` counts the lines. */
module Carritos {
  import opened Wrappers
  import Productos

  /** One cart line as the cart's iteration exposes it: product, size, quantity and unit
      price (the line total is the cart's own business). */
  datatype Linea = Linea(producto: Productos.ProductoId, talla: string, cantidad: int, precio: int)

  type Clave = (Productos.ProductoId, string)

  function ClaveDe(l: Linea): Clave {
    (l.producto, l.talla)
  }

  /** No two lines share a (product, size) key. */
  predicate ClavesUnicas(ls: seq<Linea>) {
    forall i, j :: 0 <= i < |ls| && 0 <= j < |ls| && ClaveDe(ls[i]) == ClaveDe(ls[j]) ==> i == j
  }

  function Claves(ls: seq<Linea>): set<Clave> {
    set l | l in ls :: ClaveDe(l)
  }

  /** Where the line with key k is. */
  function Posicion(ls: seq<Linea>, k: Clave): (r: Option<nat>)
    ensures r.Some? ==> r.value < |ls| && ClaveDe(ls[r.value]) == k
    ensures r.None? ==> forall i :: 0 <= i < |ls| ==> ClaveDe(ls[i]) != k
  {
    if ls == [] then None
    else if ClaveDe(ls[0]) == k then Some(0)
    else match Posicion(ls[1..], k)
      case Some(i) => Some(i + 1)
      case None => None
  }

  /** The quantity the cart holds under key k, if it has such a line. */
  function Cantidad(ls: seq<Linea>, k: Clave): Option<int> {
    match Posicion(ls, k)
    case Some(i) => Some(ls[i].cantidad)
    case None => None
  }

  /** `agregar`: the line with the key gets the given quantity (`actualizar_cantidad=True`) or
      the given quantity added to its own; a missing line is appended with the given price. */
  function Agregada(ls: seq<Linea>, k: Clave, cantidad: int, precio: int, actualizar: bool): seq<Linea> {
    var p := Posicion(ls, k);
    if p.None? then ls + [Linea(k.0, k.1, cantidad, precio)]
    else ls[p.value := ls[p.value].(cantidad := if actualizar then cantidad else ls[p.value].cantidad + cantidad)]
  }

  /** `eliminar`: the lines without the key, in their order. */
  function Eliminada(ls: seq<Linea>, k: Clave): (r: seq<Linea>)
    ensures forall l :: l in r <==> l in ls && ClaveDe(l) != k
    ensures |r| <= |ls|
  {
    if ls == [] then []
    else if ClaveDe(ls[0]) == k then Eliminada(ls[1..], k)
    else [ls[0]] + Eliminada(ls[1..], k)
  }

  /** The tail of a cart with one line per key has one line per key, none of them with the
      head's key. */
  lemma ClavesUnicasCola(ls: seq<Linea>)
    requires ClavesUnicas(ls) && ls != []
    ensures ClavesUnicas(ls[1..])
    ensures ClaveDe(ls[0]) !in Claves(ls[1..])
  {
    forall i, j | 0 <= i < |ls[1..]| && 0 <= j < |ls[1..]| && ClaveDe(ls[1..][i]) == ClaveDe(ls[1..][j])
      ensures i == j
    {
      assert ClaveDe(ls[i + 1]) == ClaveDe(ls[j + 1]);
    }
    forall j | 0 <= j < |ls[1..]| ensures ClaveDe(ls[1..][j]) != ClaveDe(ls[0]) {
      assert ls[1..][j] == ls[j + 1];
    }
  }

  /** Removing the line with key k shortens the cart by one line when it was there. */
  lemma {:induction false} EliminadaLongitud(ls: seq<Linea>, k: Clave)
    requires ClavesUnicas(ls)
    ensures |Eliminada(ls, k)| == if k in Claves(ls) then |ls| - 1 else |ls|
  {
    if ls != [] {
      ClavesUnicasCola(ls);
      EliminadaLongitud(ls[1..], k);
      assert ls == [ls[0]] + ls[1..];
      assert Claves(ls) == {ClaveDe(ls[0])} + Claves(ls[1..]);
    }
  }

  /** Removing a key keeps one line per key. */
  lemma {:induction false} EliminadaUnica(ls: seq<Linea>, k: Clave)
    requires ClavesUnicas(ls)
    ensures ClavesUnicas(Eliminada(ls, k))
  {
    if ls != [] {
      ClavesUnicasCola(ls);
      EliminadaUnica(ls[1..], k);
      if ClaveDe(ls[0]) != k {
        var rest := Eliminada(ls[1..], k);
        var r := [ls[0]] + rest;
        forall j | 0 <= j < |rest| ensures ClaveDe(rest[j]) != ClaveDe(ls[0]) {
          assert rest[j] in rest;
        }
        forall i, j | 0 <= i < |r| && 0 <= j < |r| && ClaveDe(r[i]) == ClaveDe(r[j]) ensures i == j {
          if i > 0 && j > 0 {
            assert ClaveDe(rest[i - 1]) == ClaveDe(rest[j - 1]);
          }
        }
      }
    }
  }

  /** A prefix of a cart with one line per key has one line per key, none of them with the
      key of the line that follows it. */
  lemma ClavesUnicasPrefijo(ls: seq<Linea>, n: nat)
    requires ClavesUnicas(ls) && n < |ls|
    ensures ClavesUnicas(ls[..n])
    ensures ClaveDe(ls[n]) !in Claves(ls[..n])
  {
    var init := ls[..n];
    forall i, j | 0 <= i < |init| && 0 <= j < |init| && ClaveDe(init[i]) == ClaveDe(init[j])
      ensures i == j
    {
      assert ClaveDe(ls[i]) == ClaveDe(ls[j]);
    }
    forall j | 0 <= j < |init| ensures ClaveDe(init[j]) != ClaveDe(ls[n]) {
      assert init[j] == ls[j];
    }
  }

  /** The cart has as many keys as lines. */
  lemma {:induction false} NumeroDeClaves(ls: seq<Linea>)
    requires ClavesUnicas(ls)
    ensures |Claves(ls)| == |ls|
    ensures forall c :: c in Claves(ls) <==> Cantidad(ls, c).Some?
  {
    if ls != [] {
      var n := |ls| - 1;
      ClavesUnicasPrefijo(ls, n);
      NumeroDeClaves(ls[..n]);
      assert ls == ls[..n] + [ls[n]];
      assert Claves(ls) == Claves(ls[..n]) + {ClaveDe(ls[n])};
    }
    forall c ensures c in Claves(ls) <==> Cantidad(ls, c).Some? {
      ClavesConCantidad(ls, c);
    }
  }

  /** The keys of the cart are exactly those it holds a quantity for. */
  lemma ClavesConCantidad(ls: seq<Linea>, c: Clave)
    ensures c in Claves(ls) <==> Cantidad(ls, c).Some?
  {
    if c in Claves(ls) {
      var l :| l in ls && ClaveDe(l) == c;
      var j :| 0 <= j < |ls| && ls[j] == l;
    }
    if Cantidad(ls, c).Some? {
      assert ls[Posicion(ls, c).value] in ls;
    }
  }

  /** Two carts whose lines carry the same keys in the same order. */
  predicate MismasClaves(a: seq<Linea>, b: seq<Linea>) {
    |a| == |b| && forall j :: 0 <= j < |a| ==> ClaveDe(a[j]) == ClaveDe(b[j])
  }

  /** Carts with the same keys in the same order find every key at the same place. */
  lemma {:induction false} MismasClavesPosicion(a: seq<Linea>, b: seq<Linea>, c: Clave)
    requires MismasClaves(a, b)
    ensures Posicion(a, c) == Posicion(b, c)
  {
    if a != [] && ClaveDe(a[0]) != c {
      assert MismasClaves(a[1..], b[1..]) by {
        forall j | 0 <= j < |a[1..]| ensures ClaveDe(a[1..][j]) == ClaveDe(b[1..][j]) {
          assert ClaveDe(a[j + 1]) == ClaveDe(b[j + 1]);
        }
      }
      MismasClavesPosicion(a[1..], b[1..], c);
    }
  }

  /** Carts with the same keys in the same order both have one line per key or neither. */
  lemma MismasClavesUnicas(a: seq<Linea>, b: seq<Linea>)
    requires MismasClaves(a, b) && ClavesUnicas(b)
    ensures ClavesUnicas(a)
  {
    forall i, j | 0 <= i < |a| && 0 <= j < |a| && ClaveDe(a[i]) == ClaveDe(a[j]) ensures i == j {
      assert ClaveDe(b[i]) == ClaveDe(b[j]);
    }
  }

  /** Changing the quantity of line i changes the quantity of that line's key alone. */
  lemma CantidadCambiada(ls: seq<Linea>, i: nat, nueva: int)
    requires ClavesUnicas(ls) && i < |ls|
    ensures ClavesUnicas(ls[i := ls[i].(cantidad := nueva)])
    ensures forall c :: (Cantidad(ls[i := ls[i].(cantidad := nueva)], c) ==
      if c == ClaveDe(ls[i]) then Some(nueva) else Cantidad(ls, c))
  {
    var r := ls[i := ls[i].(cantidad := nueva)];
    assert MismasClaves(r, ls);
    MismasClavesUnicas(r, ls);
    forall c ensures Cantidad(r, c) == if c == ClaveDe(ls[i]) then Some(nueva) else Cantidad(ls, c) {
      MismasClavesPosicion(r, ls, c);
    }
  }

  /** Adding to an existing line rewrites that line's quantity. */
  lemma AgregadaEn(ls: seq<Linea>, k: Clave, cantidad: int, precio: int, actualizar: bool, i: nat)
    requires Posicion(ls, k) == Some(i)
    ensures Agregada(ls, k, cantidad, precio, actualizar) ==
      ls[i := ls[i].(cantidad := if actualizar then cantidad else ls[i].cantidad + cantidad)]
  {
  }

  /** Appending a line whose key is new leaves every earlier key where it was and finds the
      new key last. */
  lemma {:induction false} PosicionAnadida(ls: seq<Linea>, l: Linea, c: Clave)
    requires Posicion(ls, ClaveDe(l)).None?
    ensures Posicion(ls + [l], c) == if c == ClaveDe(l) then Some(|ls|) else Posicion(ls, c)
  {
    if ls != [] {
      assert (ls + [l])[1..] == ls[1..] + [l];
      if ClaveDe(ls[0]) != c {
        assert Posicion(ls[1..], ClaveDe(l)).None?;
        PosicionAnadida(ls[1..], l, c);
      }
    }
  }

  /** Adding a missing key appends one line holding the given quantity. */
  lemma AgregadaNueva(ls: seq<Linea>, k: Clave, cantidad: int, precio: int, actualizar: bool)
    requires ClavesUnicas(ls)
    requires Posicion(ls, k).None?
    ensures ClavesUnicas(Agregada(ls, k, cantidad, precio, actualizar))
    ensures forall c :: (Cantidad(Agregada(ls, k, cantidad, precio, actualizar), c) ==
      if c == k then Some(cantidad) else Cantidad(ls, c))
  {
    var l := Linea(k.0, k.1, cantidad, precio);
    var r := Agregada(ls, k, cantidad, precio, actualizar);
    assert r == ls + [l];
    forall i, j | 0 <= i < |r| && 0 <= j < |r| && ClaveDe(r[i]) == ClaveDe(r[j]) ensures i == j {
      if i < |ls| && j < |ls| {
        assert ClaveDe(ls[i]) == ClaveDe(ls[j]);
      }
    }
    forall c ensures Cantidad(r, c) == if c == k then Some(cantidad) else Cantidad(ls, c) {
      PosicionAnadida(ls, l, c);
    }
  }

  /** Adding keeps one line per key; the key then holds the given quantity when overwriting
      or when the line was missing, and its old quantity plus the given one otherwise; no
      other key's quantity changes. */
  lemma AgregadaCantidad(ls: seq<Linea>, k: Clave, cantidad: int, precio: int, actualizar: bool)
    requires ClavesUnicas(ls)
    ensures ClavesUnicas(Agregada(ls, k, cantidad, precio, actualizar))
    ensures forall c :: (Cantidad(Agregada(ls, k, cantidad, precio, actualizar), c) ==
      if c != k then Cantidad(ls, c)
      else if actualizar || Cantidad(ls, k).None? then Some(cantidad)
      else Some(Cantidad(ls, k).value + cantidad))
  {
    match Posicion(ls, k)
    case Some(i) =>
      AgregadaEn(ls, k, cantidad, precio, actualizar, i);
      assert Cantidad(ls, k) == Some(ls[i].cantidad);
      CantidadCambiada(ls, i, if actualizar then cantidad else ls[i].cantidad + cantidad);
    case None =>
      AgregadaNueva(ls, k, cantidad, precio, actualizar);
  }

  /** Removing keeps one line per key, leaves no quantity under the key and every other
      key's quantity as it was. */
  lemma EliminadaCantidad(ls: seq<Linea>, k: Clave)
    requires ClavesUnicas(ls)
    ensures ClavesUnicas(Eliminada(ls, k))
    ensures forall c :: Cantidad(Eliminada(ls, k), c) == if c == k then None else Cantidad(ls, c)
  {
    var r := Eliminada(ls, k);
    EliminadaUnica(ls, k);
    forall c ensures Cantidad(r, c) == if c == k then None else Cantidad(ls, c) {
      if c != k {
        CantidadEliminadaOtra(ls, k, c);
      }
    }
  }

  /** Removing one key leaves another key's line as it was. */
  lemma CantidadEliminadaOtra(ls: seq<Linea>, k: Clave, c: Clave)
    requires ClavesUnicas(ls) && ClavesUnicas(Eliminada(ls, k)) && c != k
    ensures Cantidad(Eliminada(ls, k), c) == Cantidad(ls, c)
  {
    var r := Eliminada(ls, k);
    match Posicion(ls, c)
    case Some(i) =>
      assert ls[i] in r;
      var j :| 0 <= j < |r| && r[j] == ls[i];
      assert Posicion(r, c) == Some(j);
    case None =>
  }

  /** The visitor's cart, stored in the session. */
  class Carrito {
    var lineas: seq<Linea>

    ghost predicate Valid()
      reads this
    {
      ClavesUnicas(lineas)
    }

    constructor ()
      ensures Valid() && lineas == []
    {
      lineas := [];
    }

    /** `agregar(producto, cantidad, talla, actualizar_cantidad)`. */
    method Agregar(producto: Productos.ProductoId, talla: string, cantidad: int, precio: int, actualizar: bool)
      requires Valid()
      modifies this
      ensures Valid()
      ensures lineas == Agregada(old(lineas), (producto, talla), cantidad, precio, actualizar)
      ensures forall c :: (Cantidad(lineas, c) ==
        if c != (producto, talla) then Cantidad(old(lineas), c)
        else if actualizar || Cantidad(old(lineas), c).None? then Some(cantidad)
        else Some(Cantidad(old(lineas), c).value + cantidad))
    {
      AgregadaCantidad(lineas, (producto, talla), cantidad, precio, actualizar);
      lineas := Agregada(lineas, (producto, talla), cantidad, precio, actualizar);
    }

    /** `eliminar(producto, talla)`. */
    method Eliminar(producto: Productos.ProductoId, talla: string)
      requires Valid()
      modifies this
      ensures Valid()
      ensures lineas == Eliminada(old(lineas), (producto, talla))
      ensures forall c :: Cantidad(lineas, c) == if c == (producto, talla) then None else Cantidad(old(lineas), c)
    {
      EliminadaCantidad(lineas, (producto, talla));
      lineas := Eliminada(lineas, (producto, talla));
    }

    /** `limpiar()`. */
    method Limpiar()
      modifies this
      ensures Valid() && lineas == []
    {
      lineas := [];
    }
  }
}
