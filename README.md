# Inventory manager — a verified Dafny model

This project models the core of a small in-memory inventory manager written
in Python. It covers three parts:

- **Products** (`Producto`). Construction is guarded: an empty or
  whitespace-only name, a negative price or a negative quantity is refused.
  Every product gets an id from a class-wide counter that starts at 1000.
  Two guarded updates change the quantity or the price, and a method gives
  the value of the stock (price times quantity).
- **Repository** (`RepositorioMemoria`). It is a dictionary from product id
  to product. It refuses a duplicate id, reports whether a removal happened,
  and lists its products in insertion order, either all of them or one
  category.
- **Inventory** (`Inventario`). This business-rule layer sits over one
  repository. It creates and stores products, raises and lowers stock with a
  not-found check and an insufficient-stock check, and lists the products at
  or below a stock threshold.

Files:

- `errores.dfy` (module `Errores`): `Option`, `Result`, and `Error` with one
  constructor per failure the Python code raises.
- `modelos.dfy` (module `Modelos`): `Categoria`; Python's `str.strip()`
  (`Recortar`); the constructor's checks (`Validar`); the id counter
  (`Contador`); and the `Producto` class.
- `repositorios.dfy` (module `Repositorios`): the order-preserving filters
  and their lemmas, and the `RepositorioMemoria` and `Inventario` classes.
- `escenario.dfy` (module `Escenario`): two client methods. Their outcomes
  follow from the contracts alone.

`Categoria` is the five-value enumeration of product categories. `EsEspacio`
is the set of characters for which Python's `str.isspace()` holds, which is
what `strip()` removes. Both are plain definitions with no contract of their
own, so they have no row in the table below.

`RecortarFijo` and `RecortarIdempotente` are stand-alone facts about
`Recortar`, and no other proof calls them. They justify recording the
product invariant as `Recortado(nombre)`, which is cheaper for the solver
than the equation `Recortar(nombre) == nombre`.

The repository's invariant has two parts. `Indexados` holds the map and key
order alone, so the listing functions read only the repository. `Valid`
adds that every stored product is valid.

Modelling decisions:

- Stored products are shared objects, as in Python. `Producto` is a class
  with mutable `precio` and `cantidad` fields. The fields that nothing
  reassigns are `const`. `obtener` returns the stored object itself, and the
  stock operations mutate that object in place.
- The class attribute `Producto._contador` becomes an explicit `Contador`
  object passed to each construction. Python's `__init__` becomes the static
  method `Producto.Nuevo`. It validates first and only then draws an id, so a
  refused construction consumes no id. The Dafny constructor is just the
  allocation step after those checks.
- The repository is a `map<int, Producto>` plus `orden`, the keys in
  insertion order, since Python dictionaries iterate in insertion order.
- Every Python `ValueError` becomes a `Result.Err` value. The variant names
  the failure that the error message describes. The code raises `ValueError`
  for all of these failures, including the duplicate id, the missing product
  and insufficient stock. The model follows the code: these are
  distinguished variants of one error type, not separate exception types.
- `precio` is a `real`. Python ints are unbounded, like Dafny's `int`.
- The creation timestamp is a string the caller supplies.

## Model

| member | source | states |
|---|---|---|
| `Modelos.Recortar` | src/mi_proyecto/models/producto.py:42 | `strip()`: the result is the slice of the input between leading and trailing whitespace (Python's `isspace` set). It is empty exactly when the input is all whitespace, and otherwise begins and ends with non-whitespace. |
| `Modelos.RecortarFijo` | src/mi_proyecto/models/producto.py:51-52 | A string is its own strip exactly when neither end is whitespace. The product invariant records a trimmed name and description as `Recortado` (no whitespace at either end), and this lemma shows that means stripping leaves them unchanged. |
| `Modelos.RecortarIdempotente` | src/mi_proyecto/models/producto.py:51-52 | Stripping twice gives the same result as stripping once, so the stored name and description are already trimmed. |
| `Modelos.Validar` | src/mi_proyecto/models/producto.py:42-47 | The constructor's checks, in the constructor's order. The name error happens exactly when the name is all whitespace, including when it is empty. The price error happens exactly when the name is fine and the price is below 0. The quantity error happens exactly when the name and price are fine and the quantity is below 0. No error happens exactly when all three are fine. |
| `Modelos.Contador.constructor` | src/mi_proyecto/models/producto.py:29 | The counter starts at 1000. |
| `Modelos.Contador.Siguiente` | src/mi_proyecto/models/producto.py:49-50 | The counter goes up by exactly one, and the new value is the id handed out. |
| `Modelos.Producto.constructor` | src/mi_proyecto/models/producto.py:50-55 | Given inputs that pass validation: the product holds the given id, the trimmed name and description, and the given price, quantity and category, and the product invariant holds. |
| `Modelos.Producto.Nuevo` | src/mi_proyecto/models/producto.py:31-56 | On invalid input, it returns the first failing check's error, and the counter is unchanged. On valid input, the counter goes up by one, the new product's id is the counter's new value, its fields are the trimmed or given inputs, and the invariant holds (non-empty trimmed name, `precio >= 0`, `cantidad >= 0`). |
| `Modelos.Producto.ActualizarCantidad` | src/mi_proyecto/models/producto.py:58-63 | A negative quantity gives the quantity error and leaves `cantidad` unchanged. Otherwise `cantidad` becomes the new value and the result is `Ok(true)`. Only `cantidad` may change, and the invariant is preserved. |
| `Modelos.Producto.ActualizarPrecio` | src/mi_proyecto/models/producto.py:65-70 | A negative price gives the price error and leaves `precio` unchanged. Otherwise `precio` becomes the new value and the result is `Ok(true)`. Only `precio` may change, and the invariant is preserved. |
| `Modelos.Producto.CalcularValorTotal` | src/mi_proyecto/models/producto.py:72-74 | Reads but changes nothing. It is never negative for a valid product, and it is zero when the stock or the price is zero. |
| `Repositorios.FiltrarCategoria` | src/mi_proyecto/repositories/inventario.py:72 | Every element of the result is in the input and has category `c`. Every input element of category `c` is in the result. The result is no longer than the input. |
| `Repositorios.FiltrarCategoriaConcat` | src/mi_proyecto/repositories/inventario.py:72 | The category filter keeps input order: filtering a concatenation concatenates the filtered parts. |
| `Repositorios.FiltrarBajoStock` | src/mi_proyecto/repositories/inventario.py:111 | Every element of the result is in the input and has `cantidad <= limite`. Every input element with `cantidad <= limite` is in the result. |
| `Repositorios.FiltrarBajoStockConcat` | src/mi_proyecto/repositories/inventario.py:111 | The low-stock filter keeps input order in the same sense. |
| `Repositorios.CardinalSinRepetidos` | src/mi_proyecto/repositories/inventario.py:61 | A key sequence without repeats has as many distinct keys as entries, so listing the dictionary yields exactly its size. |
| `Repositorios.IndexadosAgregar` | src/mi_proyecto/repositories/inventario.py:52 | Inserting a product under a new id keeps every key equal to its product's id and every key listed once. It appends the product at the end of the listing, and at the end of its own category's listing only. |
| `Repositorios.ValoresQuitar` | src/mi_proyecto/repositories/inventario.py:66 | Deleting a key removes exactly its entry from the listing and keeps the other entries in order. |
| `Repositorios.IndexadosQuitar` | src/mi_proyecto/repositories/inventario.py:65-66 | Deleting a present key keeps every remaining key equal to its product's id and listed once. It removes exactly that key's position from the key order and from the listing. |
| `Repositorios.RepositorioMemoria.constructor` | src/mi_proyecto/repositories/inventario.py:44-46 | The repository starts empty and satisfies its invariant. |
| `Repositorios.RepositorioMemoria.Agregar` | src/mi_proyecto/repositories/inventario.py:48-53 | A duplicate id gives the duplicate-id error, and the map and order are unchanged. Otherwise the map gains exactly that key, mapped to that product, and the result is `Ok(true)`. The listing gains the product at the end. Each category listing gains it at the end when its category matches and is otherwise unchanged. The invariant is kept: each key is its product's id, the keys are listed once each in `orden`, and the stored products are valid. |
| `Repositorios.RepositorioMemoria.Obtener` | src/mi_proyecto/repositories/inventario.py:55-57 | The result is `Some` exactly when the id is a key. It is then the stored object itself, and its id is the requested id. It reads but changes nothing. |
| `Repositorios.RepositorioMemoria.ObtenerTodos` | src/mi_proyecto/repositories/inventario.py:59-61 | The length equals the number of keys. Entry `i` is the product under the `i`-th inserted key, and its id is that key. Every stored product appears. |
| `Repositorios.RepositorioMemoria.Eliminar` | src/mi_proyecto/repositories/inventario.py:63-68 | The result is true exactly when the id was a key. The map afterwards is the old map without that key, and `Obtener(id)` is `None`. For an absent id, the order is unchanged. For a present id, exactly that entry leaves the order and the listing, and the others keep their order. |
| `Repositorios.RepositorioMemoria.ObtenerPorCategoria` | src/mi_proyecto/repositories/inventario.py:70-72 | Every element has category `c` and is the product stored under its own id. Every stored product of category `c` is in the result. The order is the listing order (see `FiltrarCategoriaConcat` and `Agregar`). |
| `Repositorios.Inventario.constructor` | src/mi_proyecto/repositories/inventario.py:80-82 | The inventory holds the given repository. |
| `Repositorios.Inventario.AgregarProducto` | src/mi_proyecto/repositories/inventario.py:84-89 | A validation error propagates, with the counter and the repository untouched. After validation, the counter goes up by one. If that id is already a key, the duplicate-id error propagates and the repository is unchanged. Otherwise the result is a new product with that id, the trimmed name and description, and the given price, quantity, category and timestamp. It is mapped under its id and appended to the listing, and it is appended to its own category's listing, with the other category listings unchanged. |
| `Repositorios.Inventario.AumentarStock` | src/mi_proyecto/repositories/inventario.py:91-97 | An absent id gives the not-found error. Otherwise the quantity becomes `old + cantidad` when that is at least 0. When it is negative, the quantity error comes from `actualizar_cantidad` and the quantity is unchanged. The price and all other products are unchanged. |
| `Repositorios.Inventario.DisminuirStock` | src/mi_proyecto/repositories/inventario.py:99-107 | An absent id gives the not-found error. When stock is below `cantidad`, it gives the insufficient-stock error carrying the available stock, and the quantity is unchanged. Otherwise the quantity becomes `old - cantidad`, which is at least 0. The price and all other products are unchanged. |
| `Repositorios.Inventario.ObtenerProductosBajoStock` | src/mi_proyecto/repositories/inventario.py:109-111 | The default threshold is 10. Every element has `cantidad <= limite` (equal included) and is the product stored under its id. Every stored product at or below the threshold is in the result, in listing order. |
| `Escenario.VentaDeWidget` | src/mi_proyecto/repositories/inventario.py:84-111 | From a fresh counter and repository: adding a product (price 10, stock 5) yields id 1001. Raising its stock by 3 succeeds (`Ok(true)`) and gives 8. Selling 20 fails with insufficient stock (8 available) and leaves 8. The low-stock list at the default threshold is non-empty and holds only that product. |
| `Escenario.IdsConsecutivos` | src/mi_proyecto/models/producto.py:42-50 | From a fresh counter, two successful constructions get ids 1001 and 1002. A construction refused between them for a negative price consumes no id. |

## Left out

- `IRepositorio` (src/mi_proyecto/repositories/inventario.py:10-36) is an abstract base class. `Inventario` in the model holds a `RepositorioMemoria` directly, because interface polymorphism is not part of this model.
- `fecha_creacion` comes from the wall clock in Python. Here it is a string the caller passes in, and nothing is claimed about its format.
- `__str__` and `__repr__` are presentation only and depend on how floats print.
- `src/mi_proyecto/utils/formatters.py` (text layout) and `src/mi_proyecto/services/reportes.py` (report aggregation over `obtener_todos`) are not part of this model. Most of the report methods reach attributes the inventory does not have (`respositorio`, `repositorio` where the attribute is `_repositorio`), and `valor_total_inventario` adds up quantities rather than values.
- Floating-point arithmetic is not modelled. `precio` is a real number, so `CalcularValorTotal` is the exact product, with no rounding, NaN or infinities.
- The methods of `Producto`, `RepositorioMemoria` and `Inventario` require their object's invariant (`Valid()`). `Agregar` also requires the product's invariant. Python imposes no such precondition. In the model every product is created through `Nuevo` and changed only through the guarded updates, so the invariant always holds for the objects these methods see.
- Repository listings and filters are specified by membership, length and order-preservation lemmas. The model does not claim that the filtered lists have no repeated entries (`ObtenerTodos` lists each key once).
- Escenario.VentaDeWidget: it takes the product name as a parameter rather than the literal `"Widget"`, and it claims that the low-stock list holds only that product, not that the list has length exactly one.
