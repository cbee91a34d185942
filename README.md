# PetJoy storefront core in Dafny

This project models the order-placement path of the PetJoy Django storefront, plus the rules that path depends on.

- **Checkout and the cart views** (`pedidos/views.py`), in `pedidos.dfy`. `Pedidos.Tienda` holds three tables:
  - the order table (`pedidos`);
  - the order-line table (`items`);
  - the product catalogue, a `Productos.Catalogo`.

  `Checkout` follows the view step by step:
  1. An empty cart, a GET or an invalid form changes nothing.
  2. A valid POST appends one `Pedido` carrying the cleaned form values and the cart's four totals.
  3. A loop then, for each cart line:
     - appends one `ItemPedido` that snapshots the line;
     - lowers the stock of the line's product;
     - saves the product row.
  4. Finally it empties the cart.

  The three cart views become methods whose results follow the view's branches:
  - `agregar_al_carrito` accumulates into the line;
  - `actualizar_carrito` overwrites the line when the quantity is positive and removes it otherwise;
  - `eliminar_del_carrito` removes the line.
- **The read-only order views** (`confirmacion_pedido`, `seguimiento_pedido`, `mis_pedidos`), in `consultas.dfy`. They are functions over the order table:
  - Django's `get` returns one row, or raises `DoesNotExist` or `MultipleObjectsReturned`.
  - Tracking requires both the order number and the e-mail to match.
  - "My orders" lists the user's own orders, newest first.
- **Products** (`productos/models.py`), in `productos.dfy`:
  - the effective price, the active-offer test and the rounded discount percentage;
  - the slug rule of `Producto.save`;
  - the principal-image rule of `ImagenProducto.save`, written as a loop over the image table;
  - the (product, size) uniqueness of `TallaProducto`.
- **The shipping form `DatosEnvioForm`** (`pedidos/forms.py`), in `formularios.dfy`. It is an acceptance predicate that follows Django's field cleaning:
  - a text field is stripped of surrounding whitespace;
  - a blank value is an error only on a required field;
  - the length bound, the NUL-character check and the field's own validator run on non-empty values.
- **The session cart** is the `Carrito` class, in `carrito.dfy`. Its implementation is not part of this model. It is modelled as lines keyed by (product, size), with the operations the views call: `agregar`, `eliminar`, `limpiar` and `len`.

Prices are integer cents, because the price columns are two-decimal `DecimalField`s. Python's `round` is modelled as exact round-half-to-even on the rational quotient.

`checkout` has no transaction around its steps. The model therefore applies them in sequence, as written: order, then per line the order line and the stock update, then the cart. A failure midway therefore leaves a partial order behind.

## Model

| member | source | states |
|---|---|---|
| Productos.PrecioActual | productos/models.py:90-94 | the effective price is never above `precio`, never above a set non-zero offer, and is either `precio` or that offer |
| Productos.TieneOferta | productos/models.py:96-98 | an offer is active exactly when the effective price differs from `precio`, and then it is strictly lower |
| Productos.RedondeoPar | productos/models.py:104 | the result is within half a unit of n/d, and a tie goes to the even integer |
| Productos.RedondeoParUnico | productos/models.py:104 | those two conditions single out one integer, so the model is Python's half-to-even `round` |
| Productos.RedondeoCociente | productos/models.py:103-104 | half-to-even rounding of n/d for a divisor of either sign |
| Productos.DescuentoPorcentaje | productos/models.py:100-105 | 0 without an active offer; a division error exactly when an offer is active and `precio` is 0; otherwise the nearest integer to 100·(precio − oferta)/precio, and on an exact half the even one |
| Productos.DescuentoEnRango | productos/models.py:100-105 | with 0 < offer < price the percentage is defined and lies in 0..100 |
| Productos.DescuentoEjemplo | productos/models.py:100-105 | 19.99 reduced to 14.99 shows 25 |
| Productos.DescuentoEmpateAPar | productos/models.py:104 | an exact 2.5 % discount shows 2 (ties go to even) |
| Productos.AlGuardarIdempotente | productos/models.py:74-77 | saving a saved row changes nothing; an existing slug is kept; name, prices and stock are untouched |
| Productos.Catalogo.GuardarProducto | productos/models.py:62-77 | the row is written exactly when no other row holds its slug (`unique=True`), and nothing is written otherwise; only row `id` changes; its slug is `slugify(nombre)` when it was empty and is kept otherwise; every other column is the caller's; slugs stay unique |
| Productos.EscribirConservaSlugsUnicos | productos/models.py:62 | a write the unique slug constraint accepts keeps slugs unique |
| Productos.ResguardarSinConflicto | productos/models.py:62-77 | re-saving a saved row with another stock keeps its slug, so it never clashes with another row, and the table stays unique |
| Productos.Desmarcar | productos/models.py:127 | the bulk update keeps the table's length; only principal images of the product other than the excluded key lose the flag; afterwards none but the excluded key is principal |
| Productos.DesmarcarEn | productos/models.py:127 | row k of the updated table is row k of the original, updated on its own |
| Productos.DesmarcarProcedencia | productos/models.py:127 | every updated row comes from the original with the same key and product; it is principal only if it was; rows of other products are unchanged |
| Productos.Escribir | productos/models.py:128 | saving a row replaces the row with its key, or inserts it; keys stay distinct |
| Productos.GuardarImagenConservaPrincipalUnica | productos/models.py:121-128 | a save keeps "at most one principal image per product" |
| Productos.PrincipalGuardadaEsLaUnica | productos/models.py:126-128 | a save that leaves the image principal makes it the only principal image of its product |
| Productos.PrimeraImagenEsPrincipal | productos/models.py:123-124 | a new image (no key, or the falsy key 0) of a product without images is saved as principal, whatever flag it carried |
| Productos.OtrosProductosIntactos | productos/models.py:126-128 | images of other products keep their rows, apart from the row of the image being saved, and the save adds none |
| Productos.GuardarImagenConservaValid | productos/models.py:121-128 | a save keeps keys distinct and below the next free key, and principal images unique |
| Productos.Catalogo.DesmarcarPrincipales | productos/models.py:127 | the loop over the image table leaves exactly the table `Desmarcar` describes |
| Productos.Catalogo.GuardarStock | pedidos/views.py:117-119 | lowering a product's stock and saving it is accepted when slugs are unique and every row is as `save` left it; the row keeps its slug and the table stays unique and saved |
| Productos.Catalogo.GuardarImagen | productos/models.py:121-128 | `ImagenProducto.save` leaves the image table `TrasGuardarImagen` describes and keeps the catalogue invariant |
| Productos.Catalogo.CrearTalla | productos/models.py:131-140 | a size row is inserted exactly when its (product, size) pair is new; the pairs stay unique |
| Formularios.Recortar | pedidos/forms.py:8-36 | the cleaned text is a slice of the input, with only whitespace around it and no whitespace at its ends |
| Formularios.RecortarSinEspacios | pedidos/forms.py:8-36 | a value without surrounding whitespace is kept as it is |
| Formularios.Validar | pedidos/forms.py:6-49 | the form is valid exactly when every field passes; a valid form yields each field's cleaned value; an invalid one names a non-empty set of failing fields |
| Formularios.VacioSoloEnOpcionales | pedidos/forms.py:8-49 | a blank text field is accepted exactly for `telefono` and `notas` |
| Formularios.LongitudExcedida | pedidos/forms.py:9-33 | a value longer than its field's `max_length` once stripped is refused |
| Formularios.CodigoPostalCincoDigitos | pedidos/forms.py:32-36 | the postal code is accepted exactly when, once stripped, it is five digits |
| Formularios.CodigoPostalRechazado | pedidos/forms.py:32-36 | "ABCDE" and "1234" are refused |
| Formularios.CodigoPostalAceptado | pedidos/forms.py:32-36 | "28001" is accepted, also with surrounding blanks, which cleaning removes |
| Formularios.MetodoPagoDeLasOpciones | pedidos/forms.py:37-41 | the payment method is accepted exactly when it is a non-empty choice |
| Carritos.Eliminada | pedidos/views.py:62 | removing a key keeps exactly the lines with another key |
| Carritos.EliminadaLongitud | pedidos/views.py:62 | removal shortens the cart by one line when the key was there, and by none otherwise |
| Carritos.NumeroDeClaves | pedidos/views.py:72 | the cart's length is its number of distinct (product, size) keys, which are exactly the keys it holds a quantity for |
| Carritos.AgregadaCantidad | pedidos/views.py:32 | adding keeps one line per key; the key gets the given quantity (overwrite, or new line) or its old quantity plus it; no other key changes |
| Carritos.EliminadaCantidad | pedidos/views.py:62 | removal leaves no quantity under the key and every other key's quantity as it was |
| Carritos.Carrito.Agregar | pedidos/views.py:32 | `agregar` keeps one line per key and updates only that key's quantity, as `AgregadaCantidad` states |
| Carritos.Carrito.Eliminar | pedidos/views.py:62 | `eliminar` drops that key's line and nothing else |
| Carritos.Carrito.Limpiar | pedidos/views.py:139 | `limpiar` empties the cart |
| Pedidos.ConfirmadoSoloSiValido | pedidos/views.py:72-78 | checkout places an order exactly when the cart is non-empty and a POST passes every field; a form error names at least one field |
| Pedidos.FormularioDeVisitanteIncompleto | pedidos/views.py:143-156 | an anonymous visitor's initial form is invalid as it stands (`nombre` blank), while its blank `telefono` is accepted |
| Pedidos.FormularioDeClientePrellenado | pedidos/views.py:146-155 | a logged-in customer's form starts from their profile, with `metodo_pago` at 'tarjeta' |
| Pedidos.PedidoDelFormulario | pedidos/views.py:82-102 | the new order's customer is the user, or none for a visitor; its contact columns are the stripped form values (a five-digit postal code, a listed payment method); its four amounts are the cart's totals |
| Pedidos.ItemsDe | pedidos/views.py:105-114 | the loop creates exactly one order line per cart line |
| Pedidos.ItemsDeCopian | pedidos/views.py:105-114 | order line i belongs to the new order and copies cart line i's product, product name, size, quantity, unit price and line total |
| Pedidos.StockTras | pedidos/views.py:116-119 | the stock loop neither adds nor removes products |
| Pedidos.StockTrasAnadir | pedidos/views.py:116-119 | each round saves the line's product as the table holds it then, with its stock lowered by the line's quantity |
| Pedidos.GuardarDosVeces | pedidos/views.py:117-119 | re-saving a row already saved once, with a new stock, is saving the original row with that stock |
| Pedidos.StockTrasFuera | pedidos/views.py:116-119 | a product named by none of the lines so far is untouched |
| Pedidos.StockTrasDentro | pedidos/views.py:116-119 | a product named by some line is its original row, with its stock lowered by the summed quantity of its lines, saved once |
| Pedidos.StockFinal | pedidos/views.py:116-119 | each product's stock becomes its old stock minus the summed quantity of its cart lines; its name and prices are kept; a product outside the cart is unchanged |
| Pedidos.StockPuedeSerNegativo | pedidos/views.py:118 | nothing bounds the stock below: ordering 3 of a product with 2 in stock leaves -1 |
| Pedidos.ActualizadaCantidad | pedidos/views.py:46-51 | a positive quantity overwrites the line (or adds it); any other quantity removes it; no other line changes |
| Pedidos.NumerosUnicosAnadir | pedidos/views.py:87-102 | appending an order with a fresh number keeps order numbers unique |
| Pedidos.Tienda.AgregarAlCarrito | pedidos/views.py:24-32 | a missing product is a 404 that leaves the cart; otherwise the posted quantity (1 if absent) is added to the line of the posted size ('' if absent) |
| Pedidos.Tienda.ActualizarCarrito | pedidos/views.py:38-51 | a missing product is a 404 that leaves the cart; otherwise the line takes a positive quantity or is removed, and no other line changes |
| Pedidos.Tienda.EliminarDelCarrito | pedidos/views.py:56-62 | a missing product is a 404 that leaves the cart; otherwise the line of the size in the query string ('' if absent) is removed |
| Pedidos.Tienda.CrearPedido | pedidos/views.py:87-102 | `Pedido.objects.create` appends exactly that order and keeps the store invariant |
| Pedidos.Tienda.AnadirItem | pedidos/views.py:106-114 | the order-line table gains the order line of cart line i, and the store invariant holds |
| Pedidos.Tienda.BajarStock | pedidos/views.py:117-119 | the catalogue moves from `StockTras` of i lines to `StockTras` of i + 1, and its slugs stay unique and saved |
| Pedidos.Tienda.RegistrarLinea | pedidos/views.py:105-119 | one round of the loop appends the line's order line and performs the line's stock update |
| Pedidos.Tienda.RegistrarLineas | pedidos/views.py:105-119 | the loop appends `ItemsDe` of the cart and leaves the catalogue at `StockTras` of the cart |
| Pedidos.Tienda.Confirmar | pedidos/views.py:78-139 | a valid submission appends one order, appends its order lines, updates the stock and empties the cart |
| Pedidos.Tienda.Checkout | pedidos/views.py:68-162 | the answer is the view's branch; an empty cart, a GET or an invalid form changes no table and not the cart; a valid POST appends exactly one order and its lines, applies the stock loop and empties the cart; the product table keeps unique slugs |
| Consultas.Coincidencias | pedidos/views.py:183 | the positions of the orders that meet the lookup's criterion, all of them and in order |
| Consultas.Obtener | pedidos/views.py:183-185 | `get` returns a matching order; it reports `DoesNotExist` exactly when none matches and `MultipleObjectsReturned` exactly when two do |
| Consultas.ObtenerUnico | pedidos/views.py:183-185 | when at most one order can match, `get` never reports several and finds an order exactly when one matches |
| Consultas.Confirmacion | pedidos/views.py:165-167 | the page shows an order exactly when one order alone has the requested number, and that order; a 404 exactly when none has it; `MultipleObjectsReturned` exactly when two have it |
| Consultas.ConfirmacionDelNuevo | pedidos/views.py:165-167 | with unique numbers the confirmation page shows the order just placed |
| Consultas.SeguimientoPedido | pedidos/views.py:174-190 | a GET looks nothing up; a found order has both the posted number and the posted e-mail |
| Consultas.SeguimientoConNumerosUnicos | pedidos/views.py:179-185 | with unique numbers a tracking POST finds an order exactly when one has both the number and the e-mail, and otherwise reports "not found" |
| Consultas.SeguimientoEmailAjeno | pedidos/views.py:183-185 | the right number with another e-mail is not found |
| Consultas.DelCliente | pedidos/views.py:196 | the filter keeps exactly the orders whose customer is the user |
| Consultas.Insertar | pedidos/views.py:196 | inserting into a newest-first list keeps it newest first and adds exactly that order |
| Consultas.OrdenarPorFecha | pedidos/views.py:196 | the ordering is a permutation of its input, newest first |
| Consultas.NoCrecenEsOrden | pedidos/views.py:196 | comparing neighbours suffices for the whole list to be newest first |
| Consultas.MisPedidos | pedidos/views.py:193-196 | an anonymous visitor is sent to log in; a customer gets a newest-first permutation of their own orders |
| Consultas.MisPedidosSoloPropios | pedidos/views.py:196 | an order is listed exactly when it is in the table and belongs to the user |

## Left out

- E-mail sending (`send_mail`, `render_to_string`): foreign I/O whose failures are swallowed. Nothing after it depends on it, so `Checkout`'s outcome is the same without it.
- Templates, flash messages, redirects and the HTTP referer. Each view's answer is reduced to which branch it took.
- The hosted-payment views and the URL table: external network calls and routing.
- The catalogue views, `get_imagen_url`, `slugify` and `email_confirmacion`: library behaviour or debug code. `slugify` is a parameter.
- The `Carrito` class: its implementation is not part of this model.
  - Its four totals, each line's total and the unit price `agregar` records are opaque functions (`Pedidos.Calculadora`).
  - A product's 404 lookup uses the catalogue's product table.
- The database clock and the generation of `numero_pedido`: both are parameters of `Checkout`, and the number must be new.
- Concurrency: two checkouts racing for the same stock, and transaction rollback.
- Pedidos.Tienda.Checkout: requires the product table to hold unique slugs and every row to be as `Producto.save` left it (a row whose slug is empty has a name that slugifies to the empty string). The database's unique constraint gives the first; the second holds for rows written through `save`, but not for rows inserted by bulk or raw SQL. Under it the stock saves never clash on the slug, so the `IntegrityError` path of `Producto.save` is not reachable from checkout in this model.
- Pedidos.Tienda.Checkout: requires every cart line to name a product of the catalogue. The cart class that resolves a line's product is not part of this model, so what happens with a deleted product is unknown.
- Pedidos.Tienda.Checkout: lines of one product are assumed to share one product instance, so their decrements accumulate. If the cart hands out separate instances, the last save would win instead.
- Pedidos.Tienda.AgregarAlCarrito: a posted quantity that `int()` cannot parse (a 500 in the source) is not modelled. The quantity is either absent or an integer. The same holds for `ActualizarCarrito`.
- Formularios.CodigoPostalCincoDigitos: only ASCII digits count. Python's `\d` also accepts other Unicode decimal digits, so the model accepts fewer postal codes than the source.
- Formularios.Validar: the e-mail check of `EmailField` is an abstract predicate (`Reglas.esEmail`), and the payment choices are an abstract set.
- Productos.DescuentoPorcentaje: rounds the exact quotient. Python computes it in 28-digit decimal arithmetic, which gives the same integer for prices of the column's size.
- Consultas.MisPedidos: orders with equal dates stay in table order. The database leaves their order unspecified.
- Consultas.SeguimientoPedido: `MultipleObjectsReturned` is not caught in the source (a server error). The model reports it as `VariosExisten`, which unique order numbers rule out.
- The `auto_now`/`auto_now_add` timestamps other than the order's creation time, and the image file itself.
