/** Products, their effective price and discount, the slug rule of `Producto.save`, the
    principal-image rule of `ImagenProducto.save` and the (product, size) uniqueness of
    `TallaProducto` (productos/models.py).

    Money is held in integer cents: `precio` and `precio_oferta` are DecimalFields with two
    decimal places, so every amount is an exact multiple of 0.01. */
module Productos {
  import opened Wrappers

  type ProductoId = nat

  /** The columns of a product row that the storefront core reads or writes. */
  datatype Producto = Producto(
    nombre: string,
    precio: int,
    precioOferta: Option<int>,
    stock: int,
    slug: string)

  // ---------------------------------------------------------------------------------------
  // Pricing
  // ---------------------------------------------------------------------------------------

  /** Python truthiness of `precio_oferta`: both `None` and `Decimal('0.00')` are false. */
  predicate OfertaFijada(p: Producto) {
    p.precioOferta.Some? && p.precioOferta.value != 0
  }

  /** `precio_actual`: the lower of the list price and the offer price, where an offer that is
      missing or zero does not take part. */
  function PrecioActual(p: Producto): (r: int)
    ensures r <= p.precio
    ensures OfertaFijada(p) ==> r <= p.precioOferta.value
    ensures r == p.precio || (OfertaFijada(p) && r == p.precioOferta.value)
  {
    if p.precioOferta.Some? && p.precioOferta.value != 0 && p.precioOferta.value < p.precio
    then p.precioOferta.value
    else p.precio
  }

  /** `tiene_oferta`: the truthiness of `precio_oferta and precio_oferta < precio`. It holds
      exactly when the effective price differs from the list price. */
  predicate TieneOferta(p: Producto): (b: bool)
    ensures b <==> PrecioActual(p) != p.precio
    ensures b ==> PrecioActual(p) < p.precio
  {
    OfertaFijada(p) && p.precioOferta.value < p.precio
  }

  function Abs(x: int): int {
    if x < 0 then -x else x
  }

  /** Python's `round` on a Decimal, applied to the exact quotient n / d with d > 0: the
      nearest integer, and the even one of the two when n / d lies half-way between them. */
  function RedondeoPar(n: int, d: int): (r: int)
    requires d > 0
    ensures -d <= 2 * (r * d - n) <= d
    ensures (2 * (r * d - n) == d || 2 * (r * d - n) == -d) ==> r % 2 == 0
  {
    var q := n / d;
    var m := n % d;
    assert n == q * d + m;
    if 2 * m < d then q
    else if 2 * m > d then q + 1
    else if q % 2 == 0 then q
    else q + 1
  }

  /** Multiplying by a positive number keeps the order. */
  lemma MulCreciente(a: int, b: int, d: int)
    requires a >= b && d > 0
    ensures a * d >= b * d
  {
    assert a * d - b * d == (a - b) * d;
  }

  /** A multiple k * d of a positive d that lies within d of zero has |k| <= 1. */
  lemma FactorAcotado(k: int, d: int)
    requires d > 0 && -d <= k * d <= d
    ensures -1 <= k <= 1
  {
    if k >= 2 {
      MulCreciente(k, 2, d);
    } else if k <= -2 {
      MulCreciente(-2, k, d);
    }
  }

  /** The two conditions of RedondeoPar single out one integer. */
  lemma RedondeoParUnico(n: int, d: int, s: int)
    requires d > 0
    requires -d <= 2 * (s * d - n) <= d
    requires (2 * (s * d - n) == d || 2 * (s * d - n) == -d) ==> s % 2 == 0
    ensures s == RedondeoPar(n, d)
  {
    var r := RedondeoPar(n, d);
    var er, es := r * d - n, s * d - n;
    var k := r - s;
    assert k * d == er - es by {
      assert k * d == r * d - s * d;
    }
    FactorAcotado(k, d);
  }

  /** Round-half-even of n / d for any non-zero divisor. */
  function RedondeoCociente(n: int, d: int): (r: int)
    requires d != 0
    ensures -Abs(d) <= 2 * (r * d - n) <= Abs(d)
    ensures (2 * (r * d - n) == d || 2 * (r * d - n) == -d) ==> r % 2 == 0
  {
    if d > 0 then RedondeoPar(n, d)
    else
      var r := RedondeoPar(-n, -d);
      assert r * (-d) - (-n) == -(r * d - n);
      r
  }

  /** The exception a Decimal division by zero raises. */
  datatype ErrorDecimal = DivisionPorCero

  /** `descuento_porcentaje`: 0 without an active offer; otherwise
      round((precio - precio_oferta) / precio * 100), which raises when the list price is 0
      (possible only with a negative offer price, which the column does not forbid). */
  function DescuentoPorcentaje(p: Producto): (r: Result<int, ErrorDecimal>)
    ensures !TieneOferta(p) ==> r == Success(0)
    ensures r.Failure? <==> TieneOferta(p) && p.precio == 0
    ensures r.Success? && TieneOferta(p) ==>
      var n := 100 * (p.precio - p.precioOferta.value);
      -Abs(p.precio) <= 2 * (r.value * p.precio - n) <= Abs(p.precio)
    ensures r.Success? && TieneOferta(p) ==>
      var n := 100 * (p.precio - p.precioOferta.value);
      (2 * (r.value * p.precio - n) == p.precio || 2 * (r.value * p.precio - n) == -p.precio) ==> r.value % 2 == 0
  {
    if TieneOferta(p) then
      if p.precio == 0 then Failure(DivisionPorCero)
      else Success(RedondeoCociente(100 * (p.precio - p.precioOferta.value), p.precio))
    else Success(0)
  }

  /** With 0 < precio_oferta < precio the percentage is defined and lies in 0..100. */
  lemma DescuentoEnRango(p: Producto)
    requires p.precioOferta.Some? && 0 < p.precioOferta.value < p.precio
    ensures DescuentoPorcentaje(p).Success?
    ensures 0 <= DescuentoPorcentaje(p).value <= 100
  {
    var d := p.precio;
    var n := 100 * (p.precio - p.precioOferta.value);
    var r := DescuentoPorcentaje(p).value;
    assert 0 < n < 100 * d;
    assert -d <= 2 * (r * d - n) <= d;
    if r < 0 {
      MulCreciente(-1, r, d);
    } else if r > 100 {
      MulCreciente(r, 101, d);
    }
  }

  /** 19.99 reduced to 14.99 is 25.0125% off, shown as 25. */
  lemma DescuentoEjemplo()
    ensures DescuentoPorcentaje(Producto("Collar", 1999, Some(1499), 10, "")) == Success(25)
  {
    var r := DescuentoPorcentaje(Producto("Collar", 1999, Some(1499), 10, "")).value;
    RedondeoParUnico(50000, 1999, 25);
    assert r == RedondeoPar(50000, 1999);
  }

  /** 8.00 reduced to 7.80 is exactly 2.5% off; the half goes to the even neighbour, 2. */
  lemma DescuentoEmpateAPar()
    ensures DescuentoPorcentaje(Producto("Correa", 800, Some(780), 3, "")) == Success(2)
  {
    RedondeoParUnico(2000, 800, 2);
  }

  // ---------------------------------------------------------------------------------------
  // Producto.save: the slug rule
  // ---------------------------------------------------------------------------------------

  /** The row `Producto.save` writes: the slug is derived from the name when, and only when,
      it is empty. `slugify` is Django's text helper, taken as a parameter. */
  function AlGuardar(p: Producto, slugify: string -> string): Producto {
    if p.slug == "" then p.(slug := slugify(p.nombre)) else p
  }

  /** Saving twice writes the same row as saving once, and an existing slug is never
      recomputed from the name. */
  lemma AlGuardarIdempotente(p: Producto, slugify: string -> string, q: Producto)
    requires q == AlGuardar(p, slugify)
    ensures AlGuardar(q, slugify) == q
    ensures p.slug != "" ==> q.slug == p.slug
    ensures q.nombre == p.nombre && q.precio == p.precio && q.precioOferta == p.precioOferta
    ensures q.stock == p.stock
  {
    if p.slug == "" && slugify(p.nombre) == "" {
      assert q.slug == "";
      assert AlGuardar(q, slugify) == q.(slug := slugify(q.nombre));
    }
  }

  /** The `slug` column is `unique=True`: no two product rows hold the same slug. */
  predicate SlugsUnicos(m: map<ProductoId, Producto>) {
    forall a, b | a in m && b in m && m[a].slug == m[b].slug :: a == b
  }

  /** A row other than `id` already holds `slug`, so writing it under `id` raises
      `IntegrityError`. */
  predicate SlugOcupado(m: map<ProductoId, Producto>, id: ProductoId, slug: string) {
    exists k | k in m && k != id :: m[k].slug == slug
  }

  /** Every row is as `Producto.save` left it: saving it again would not change its slug. */
  predicate Guardados(m: map<ProductoId, Producto>, slugify: string -> string) {
    forall k | k in m :: AlGuardar(m[k], slugify) == m[k]
  }

  /** A write the database accepts keeps slugs unique. */
  lemma EscribirConservaSlugsUnicos(m: map<ProductoId, Producto>, id: ProductoId, q: Producto)
    requires SlugsUnicos(m) && !SlugOcupado(m, id, q.slug)
    ensures SlugsUnicos(m[id := q])
  {
    var r := m[id := q];
    forall a, b | a in r && b in r && r[a].slug == r[b].slug ensures a == b {
      if a != id && b != id {
        assert m[a].slug == m[b].slug;
      }
    }
  }

  /** Re-saving a saved row with another stock never clashes on the slug: the slug stays the
      one the row had, and the table stays unique and saved. */
  lemma {:induction false} ResguardarSinConflicto(m: map<ProductoId, Producto>, id: ProductoId, stock: int,
                                                  slugify: string -> string)
    requires id in m && SlugsUnicos(m) && Guardados(m, slugify)
    ensures AlGuardar(m[id].(stock := stock), slugify).slug == m[id].slug
    ensures !SlugOcupado(m, id, AlGuardar(m[id].(stock := stock), slugify).slug)
    ensures SlugsUnicos(m[id := AlGuardar(m[id].(stock := stock), slugify)])
    ensures Guardados(m[id := AlGuardar(m[id].(stock := stock), slugify)], slugify)
  {
    var q := AlGuardar(m[id].(stock := stock), slugify);
    assert AlGuardar(m[id], slugify) == m[id];
    AlGuardarIdempotente(m[id].(stock := stock), slugify, q);
    assert q.slug == m[id].slug;
    EscribirConservaSlugsUnicos(m, id, q);
  }

  // ---------------------------------------------------------------------------------------
  // ImagenProducto.save: at most one principal image per product
  // ---------------------------------------------------------------------------------------

  /** An image row: its primary key, its product and the `es_principal` flag. The image file
      itself plays no part in the rule. */
  datatype Imagen = Imagen(pk: nat, producto: ProductoId, esPrincipal: bool)

  predicate PksDistintos(imgs: seq<Imagen>) {
    forall i, j :: 0 <= i < |imgs| && 0 <= j < |imgs| && imgs[i].pk == imgs[j].pk ==> i == j
  }

  /** No product has two principal images. */
  predicate PrincipalUnica(imgs: seq<Imagen>) {
    forall a, b | a in imgs && b in imgs ::
      a.producto == b.producto && a.esPrincipal && b.esPrincipal ==> a.pk == b.pk
  }

  /** `producto.imagenes.exists()` */
  predicate TieneImagenes(imgs: seq<Imagen>, producto: ProductoId) {
    exists a | a in imgs :: a.producto == producto
  }

  /** One row of the bulk update: a principal image of `producto` other than the excluded
      primary key loses its flag. */
  function Desmarcada(a: Imagen, producto: ProductoId, excluido: Option<nat>): Imagen {
    if a.producto == producto && a.esPrincipal && Some(a.pk) != excluido
    then a.(esPrincipal := false)
    else a
  }

  /** `ImagenProducto.objects.filter(producto=..., es_principal=True).exclude(pk=...)
      .update(es_principal=False)`. Excluding a missing primary key excludes no row. */
  function Desmarcar(imgs: seq<Imagen>, producto: ProductoId, excluido: Option<nat>): (r: seq<Imagen>)
    ensures |r| == |imgs|
    ensures forall i :: 0 <= i < |r| ==>
      r[i] == imgs[i] ||
      (r[i] == imgs[i].(esPrincipal := false) && imgs[i].producto == producto && Some(imgs[i].pk) != excluido)
    ensures forall i :: 0 <= i < |r| && r[i].producto == producto && r[i].esPrincipal ==>
      Some(r[i].pk) == excluido
    ensures forall i :: 0 <= i < |r| && (imgs[i].producto != producto || Some(imgs[i].pk) == excluido) ==>
      r[i] == imgs[i]
  {
    if imgs == [] then []
    else
      var n := |imgs| - 1;
      Desmarcar(imgs[..n], producto, excluido) + [Desmarcada(imgs[n], producto, excluido)]
  }

  /** Row k of the unmarked table is row k of the original, unmarked on its own. */
  lemma {:induction false} DesmarcarEn(imgs: seq<Imagen>, producto: ProductoId, excluido: Option<nat>, k: nat)
    requires k < |imgs|
    ensures Desmarcar(imgs, producto, excluido)[k] == Desmarcada(imgs[k], producto, excluido)
  {
    var n := |imgs| - 1;
    if k < n {
      DesmarcarEn(imgs[..n], producto, excluido, k);
    }
  }

  /** Django's `Model.save` of one row: the row with the same primary key is replaced, or the
      row is inserted when there is none. */
  function Escribir(imgs: seq<Imagen>, fila: Imagen): (r: seq<Imagen>)
    requires PksDistintos(imgs)
    ensures forall a :: a in r <==> a == fila || (a in imgs && a.pk != fila.pk)
    ensures PksDistintos(r)
  {
    if imgs == [] then [fila]
    else if imgs[0].pk == fila.pk then
      assert forall a | a in imgs[1..] :: a.pk != fila.pk by {
        forall a | a in imgs[1..] ensures a.pk != fila.pk {
          var j :| 0 <= j < |imgs[1..]| && imgs[1..][j] == a;
          assert imgs[j + 1] == a;
        }
      }
      [fila] + imgs[1..]
    else
      var rest := Escribir(imgs[1..], fila);
      assert forall a | a in rest :: a.pk != imgs[0].pk by {
        forall a | a in rest ensures a.pk != imgs[0].pk {
          if a != fila {
            var j :| 0 <= j < |imgs[1..]| && imgs[1..][j] == a;
            assert imgs[j + 1] == a;
          }
        }
      }
      [imgs[0]] + rest
  }

  /** `not self.pk`: an image without a key, or with the falsy key 0, counts as new. */
  predicate EsNueva(pk: Option<nat>) {
    pk.None? || pk == Some(0)
  }

  /** The flag the row ends up with: the caller's, or forced on for a new image of a product
      that has no images yet. */
  predicate MarcaPrincipal(imgs: seq<Imagen>, pk: Option<nat>, producto: ProductoId, esPrincipal: bool) {
    esPrincipal || (EsNueva(pk) && !TieneImagenes(imgs, producto))
  }

  /** The primary key the row is written under; a new row takes the next free key. */
  function PkGuardado(pk: Option<nat>, siguiente: nat): nat {
    if pk.Some? then pk.value else siguiente
  }

  /** The next free key after writing `pk` (SQLite assigns one more than the largest key). */
  function SiguientePk(siguiente: nat, pk: nat): (r: nat)
    ensures r > pk && r >= siguiente
  {
    if pk < siguiente then siguiente else pk + 1
  }

  /** Unmarking rows keeps their keys, so it keeps them distinct. */
  lemma DesmarcarConservaPks(imgs: seq<Imagen>, producto: ProductoId, excluido: Option<nat>)
    requires PksDistintos(imgs)
    ensures PksDistintos(Desmarcar(imgs, producto, excluido))
  {
    var r := Desmarcar(imgs, producto, excluido);
    assert forall i :: 0 <= i < |r| ==> r[i].pk == imgs[i].pk;
  }

  /** The image table after `ImagenProducto.save`. */
  function TrasGuardarImagen(imgs: seq<Imagen>, pk: Option<nat>, producto: ProductoId,
                             esPrincipal: bool, siguiente: nat): seq<Imagen>
    requires PksDistintos(imgs)
  {
    var principal := MarcaPrincipal(imgs, pk, producto, esPrincipal);
    var base := if principal then Desmarcar(imgs, producto, pk) else imgs;
    Escribir(base, Imagen(PkGuardado(pk, siguiente), producto, principal))
  }

  /** Every row of the unmarked table comes from the original table, with the same key and
      product, and has its flag on only if it had it before. */
  lemma DesmarcarProcedencia(imgs: seq<Imagen>, producto: ProductoId, excluido: Option<nat>, a: Imagen)
    requires a in Desmarcar(imgs, producto, excluido)
    ensures exists b | b in imgs :: b.pk == a.pk && b.producto == a.producto && (a.esPrincipal ==> b == a)
    ensures a.producto == producto && a.esPrincipal ==> Some(a.pk) == excluido
    ensures a.producto != producto ==> a in imgs
  {
    var r := Desmarcar(imgs, producto, excluido);
    var i :| 0 <= i < |r| && r[i] == a;
    assert imgs[i] in imgs;
  }

  /** Saving an image keeps "at most one principal image per product". */
  lemma {:induction false} GuardarImagenConservaPrincipalUnica(
    imgs: seq<Imagen>, pk: Option<nat>, producto: ProductoId, esPrincipal: bool, siguiente: nat)
    requires PksDistintos(imgs) && PrincipalUnica(imgs)
    ensures PrincipalUnica(TrasGuardarImagen(imgs, pk, producto, esPrincipal, siguiente))
  {
    var principal := MarcaPrincipal(imgs, pk, producto, esPrincipal);
    var base := if principal then Desmarcar(imgs, producto, pk) else imgs;
    var fila := Imagen(PkGuardado(pk, siguiente), producto, principal);
    var r := Escribir(base, fila);
    forall a, b | a in r && b in r && a.producto == b.producto && a.esPrincipal && b.esPrincipal
      ensures a.pk == b.pk
    {
      if principal {
        if a != fila {
          DesmarcarProcedencia(imgs, producto, pk, a);
        }
        if b != fila {
          DesmarcarProcedencia(imgs, producto, pk, b);
        }
      }
    }
  }

  /** After a save that leaves the image principal, it is the only principal image of its
      product; the first image saved for a product is always such a save. */
  lemma PrincipalGuardadaEsLaUnica(
    imgs: seq<Imagen>, pk: Option<nat>, producto: ProductoId, esPrincipal: bool, siguiente: nat)
    requires PksDistintos(imgs)
    requires MarcaPrincipal(imgs, pk, producto, esPrincipal)
    ensures Imagen(PkGuardado(pk, siguiente), producto, true) in TrasGuardarImagen(imgs, pk, producto, esPrincipal, siguiente)
    ensures forall a | a in TrasGuardarImagen(imgs, pk, producto, esPrincipal, siguiente) ::
      (a.producto == producto && a.esPrincipal) ==> a == Imagen(PkGuardado(pk, siguiente), producto, true)
  {
    var fila := Imagen(PkGuardado(pk, siguiente), producto, true);
    var r := TrasGuardarImagen(imgs, pk, producto, esPrincipal, siguiente);
    forall a | a in r && a.producto == producto && a.esPrincipal ensures a == fila {
      if a != fila {
        DesmarcarProcedencia(imgs, producto, pk, a);
      }
    }
  }

  /** A new image (no key, or key 0) of a product with no images becomes its principal image,
      whatever flag the caller set. */
  lemma PrimeraImagenEsPrincipal(imgs: seq<Imagen>, pk: Option<nat>, producto: ProductoId, esPrincipal: bool,
                                 siguiente: nat)
    requires PksDistintos(imgs)
    requires EsNueva(pk) && !TieneImagenes(imgs, producto)
    ensures Imagen(PkGuardado(pk, siguiente), producto, true) in TrasGuardarImagen(imgs, pk, producto, esPrincipal, siguiente)
  {
    PrincipalGuardadaEsLaUnica(imgs, pk, producto, esPrincipal, siguiente);
  }

  /** Images of other products keep their rows, except a row whose key is overwritten. */
  lemma OtrosProductosIntactos(
    imgs: seq<Imagen>, pk: Option<nat>, producto: ProductoId, esPrincipal: bool, siguiente: nat)
    requires PksDistintos(imgs)
    ensures forall a | a in imgs && a.producto != producto && a.pk != PkGuardado(pk, siguiente) ::
      a in TrasGuardarImagen(imgs, pk, producto, esPrincipal, siguiente)
    ensures forall a | a in TrasGuardarImagen(imgs, pk, producto, esPrincipal, siguiente) && a.producto != producto ::
      a in imgs
  {
    var principal := MarcaPrincipal(imgs, pk, producto, esPrincipal);
    var base := if principal then Desmarcar(imgs, producto, pk) else imgs;
    var r := TrasGuardarImagen(imgs, pk, producto, esPrincipal, siguiente);
    forall a | a in imgs && a.producto != producto && a.pk != PkGuardado(pk, siguiente) ensures a in r {
      if principal {
        var i :| 0 <= i < |imgs| && imgs[i] == a;
        assert Desmarcar(imgs, producto, pk)[i] == a;
      }
    }
    forall a | a in r && a.producto != producto ensures a in imgs {
      if principal {
        DesmarcarProcedencia(imgs, producto, pk, a);
      }
    }
  }

  /** The image part of the catalogue invariant holds again after a save: keys stay
      distinct and below the next free key, and no product has two principal images. */
  lemma GuardarImagenConservaValid(
    imgs: seq<Imagen>, pk: Option<nat>, producto: ProductoId, esPrincipal: bool, siguiente: nat)
    requires PksDistintos(imgs) && PrincipalUnica(imgs)
    requires forall a | a in imgs :: a.pk < siguiente
    ensures PksDistintos(TrasGuardarImagen(imgs, pk, producto, esPrincipal, siguiente))
    ensures PrincipalUnica(TrasGuardarImagen(imgs, pk, producto, esPrincipal, siguiente))
    ensures forall a | a in TrasGuardarImagen(imgs, pk, producto, esPrincipal, siguiente) ::
      a.pk < SiguientePk(siguiente, PkGuardado(pk, siguiente))
  {
    GuardarImagenConservaPrincipalUnica(imgs, pk, producto, esPrincipal, siguiente);
    var principal := MarcaPrincipal(imgs, pk, producto, esPrincipal);
    var r := TrasGuardarImagen(imgs, pk, producto, esPrincipal, siguiente);
    forall a | a in r ensures a.pk < SiguientePk(siguiente, PkGuardado(pk, siguiente)) {
      if a.pk != PkGuardado(pk, siguiente) && principal {
        DesmarcarProcedencia(imgs, producto, pk, a);
      }
    }
  }

  // ---------------------------------------------------------------------------------------
  // TallaProducto: unique_together = ['producto', 'talla']
  // ---------------------------------------------------------------------------------------

  datatype Talla = Talla(producto: ProductoId, talla: string, stock: int)

  predicate TallasUnicas(ts: seq<Talla>) {
    forall i, j ::
      (0 <= i < |ts| && 0 <= j < |ts| && ts[i].producto == ts[j].producto && ts[i].talla == ts[j].talla)
      ==> i == j
  }

  predicate ExisteTalla(ts: seq<Talla>, producto: ProductoId, talla: string) {
    exists t | t in ts :: t.producto == producto && t.talla == talla
  }

  // ---------------------------------------------------------------------------------------
  // The product tables
  // ---------------------------------------------------------------------------------------

  /** The product, image and size tables. */
  class Catalogo {
    var productos: map<ProductoId, Producto>
    var imagenes: seq<Imagen>
    var siguientePk: nat
    var tallas: seq<Talla>

    ghost predicate Valid()
      reads this`imagenes, this`siguientePk, this`tallas
    {
      && PksDistintos(imagenes)
      && (forall a | a in imagenes :: a.pk < siguientePk)
      && PrincipalUnica(imagenes)
      && TallasUnicas(tallas)
    }

    constructor ()
      ensures Valid()
      ensures productos == map[] && imagenes == [] && tallas == [] && siguientePk == 1
    {
      productos := map[];
      imagenes := [];
      siguientePk := 1;
      tallas := [];
    }

    /** `Producto.save`: fills the slug from the name only when it is empty, then writes the
        row, unless another row already holds that slug: then the database raises
        `IntegrityError`, reported as `false`, and nothing is written. */
    method GuardarProducto(id: ProductoId, p: Producto, slugify: string -> string) returns (guardado: bool)
      modifies this`productos
      ensures guardado <==> !SlugOcupado(old(productos), id, AlGuardar(p, slugify).slug)
      ensures guardado ==> productos == old(productos)[id := AlGuardar(p, slugify)]
      ensures guardado ==> productos[id].slug == if p.slug == "" then slugify(p.nombre) else p.slug
      ensures guardado ==> productos[id] == p.(slug := productos[id].slug)
      ensures !guardado ==> productos == old(productos)
      ensures SlugsUnicos(old(productos)) ==> SlugsUnicos(productos)
    {
      var q := p;
      if q.slug == "" {
        q := q.(slug := slugify(q.nombre));
      }
      guardado := !SlugOcupado(productos, id, q.slug);
      if guardado {
        if SlugsUnicos(productos) {
          EscribirConservaSlugsUnicos(productos, id, q);
        }
        productos := productos[id := q];
      }
    }

    /** `producto.stock -= cantidad; producto.save()` on a row of a saved table with unique
        slugs: the save is accepted and writes the row with the new stock. */
    method GuardarStock(id: ProductoId, stock: int, slugify: string -> string)
      requires id in productos && SlugsUnicos(productos) && Guardados(productos, slugify)
      modifies this`productos
      ensures productos == old(productos)[id := AlGuardar(old(productos)[id].(stock := stock), slugify)]
      ensures productos[id].slug == old(productos)[id].slug
      ensures SlugsUnicos(productos) && Guardados(productos, slugify)
    {
      ResguardarSinConflicto(productos, id, stock, slugify);
      var guardado := GuardarProducto(id, productos[id].(stock := stock), slugify);
      assert guardado;
    }

    /** `ImagenProducto.save` for an image of `producto` whose primary key is `pk` (None for an
        image not yet saved) and whose flag is `esPrincipal`; returns the key it was saved under. */
    method GuardarImagen(pk: Option<nat>, producto: ProductoId, esPrincipal: bool) returns (guardado: nat)
      requires Valid()
      modifies this`imagenes, this`siguientePk
      ensures Valid()
      ensures guardado == PkGuardado(pk, old(siguientePk))
      ensures imagenes == TrasGuardarImagen(old(imagenes), pk, producto, esPrincipal, old(siguientePk))
      ensures siguientePk == SiguientePk(old(siguientePk), guardado)
    {
      ghost var viejas := imagenes;
      GuardarImagenConservaValid(viejas, pk, producto, esPrincipal, siguientePk);
      var principal := esPrincipal;
      if (pk.None? || pk == Some(0)) && !TieneImagenes(imagenes, producto) {
        principal := true;
      }
      assert principal == MarcaPrincipal(viejas, pk, producto, esPrincipal);
      if principal {
        DesmarcarPrincipales(producto, pk);
        DesmarcarConservaPks(viejas, producto, pk);
      }
      guardado := PkGuardado(pk, siguientePk);
      imagenes := Escribir(imagenes, Imagen(guardado, producto, principal));
      siguientePk := SiguientePk(siguientePk, guardado);
    }

    /** The bulk update of `ImagenProducto.save`, row by row. */
    method DesmarcarPrincipales(producto: ProductoId, excluido: Option<nat>)
      modifies this`imagenes
      ensures imagenes == Desmarcar(old(imagenes), producto, excluido)
    {
      ghost var antes := imagenes;
      var i := 0;
      while i < |imagenes|
        invariant 0 <= i <= |imagenes| == |antes|
        invariant forall k :: 0 <= k < i ==> imagenes[k] == Desmarcada(antes[k], producto, excluido)
        invariant forall k :: i <= k < |imagenes| ==> imagenes[k] == antes[k]
      {
        var a := imagenes[i];
        if a.producto == producto && a.esPrincipal && Some(a.pk) != excluido {
          imagenes := imagenes[i := a.(esPrincipal := false)];
        }
        i := i + 1;
      }
      forall k | 0 <= k < |imagenes| ensures imagenes[k] == Desmarcar(antes, producto, excluido)[k] {
        DesmarcarEn(antes, producto, excluido, k);
      }
    }

    /** Inserting a `TallaProducto` row: the database refuses a second row for the same
        (product, size) pair, and then nothing is written. */
    method CrearTalla(producto: ProductoId, talla: string, stock: int) returns (creada: bool)
      requires Valid()
      modifies this`tallas
      ensures Valid()
      ensures creada <==> !ExisteTalla(old(tallas), producto, talla)
      ensures tallas == if creada then old(tallas) + [Talla(producto, talla, stock)] else old(tallas)
    {
      creada := !ExisteTalla(tallas, producto, talla);
      if creada {
        tallas := tallas + [Talla(producto, talla, stock)];
        assert forall i | 0 <= i < |old(tallas)| :: tallas[i] in old(tallas);
      }
    }
  }
}
