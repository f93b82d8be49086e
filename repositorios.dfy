/** The dictionary-backed repository and the inventory rules built on it. */
module Repositorios {
  import opened Errores
  import opened Modelos

  // ---------------------------------------------------------------------
  // Sequences of keys and of products
  // ---------------------------------------------------------------------

  predicate SinRepetidos(s: seq<int>)
  {
    forall i, j :: 0 <= i < j < |s| ==> s[i] != s[j]
  }

  /** A sequence without repeats has as many distinct elements as entries. */
  lemma {:induction false} CardinalSinRepetidos(s: seq<int>)
    requires SinRepetidos(s)
    ensures |set k | k in s| == |s|
  {
    if s != [] {
      var resto := s[1..];
      assert SinRepetidos(resto) by {
        forall i, j | 0 <= i < j < |resto| ensures resto[i] != resto[j] {
          assert resto[i] == s[i + 1] && resto[j] == s[j + 1];
        }
      }
      CardinalSinRepetidos(resto);
      assert s[0] !in resto by {
        forall j | 0 <= j < |resto| ensures resto[j] != s[0] {
          assert resto[j] == s[j + 1];
        }
      }
      assert (set k | k in s) == {s[0]} + (set k | k in resto) by {
        assert s == [s[0]] + resto;
      }
    }
  }

  /** The position of `x` in `s`. */
  function Indice(s: seq<int>, x: int): (i: nat)
    requires x in s
    ensures i < |s| && s[i] == x
    ensures forall j :: 0 <= j < i ==> s[j] != x
  {
    if s[0] == x then 0 else 1 + Indice(s[1..], x)
  }

  /** Every entry of `claves` is a key of `m`. */
  predicate ClavesEn(claves: seq<int>, m: map<int, Producto>)
  {
    forall i :: 0 <= i < |claves| ==> claves[i] in m
  }

  /** The values of `m` listed in the order of `claves`. */
  function Valores(claves: seq<int>, m: map<int, Producto>): (r: seq<Producto>)
    requires ClavesEn(claves, m)
    ensures |r| == |claves|
    ensures forall i :: 0 <= i < |claves| ==> r[i] == m[claves[i]]
  {
    if claves == [] then [] else [m[claves[0]]] + Valores(claves[1..], m)
  }

  /** The list comprehension of `obtener_por_categoria`: the products of
      `ps` whose category is `c`, and no others. */
  function FiltrarCategoria(ps: seq<Producto>, c: Categoria): (r: seq<Producto>)
    ensures |r| <= |ps|
    ensures forall i :: 0 <= i < |r| ==> r[i] in ps && r[i].categoria == c
    ensures forall i :: 0 <= i < |ps| && ps[i].categoria == c ==> ps[i] in r
  {
    if ps == [] then []
    else
      assert ps == [ps[0]] + ps[1..];
      (if ps[0].categoria == c then [ps[0]] else []) + FiltrarCategoria(ps[1..], c)
  }

  /** The category filter keeps the order of its input: filtering a
      concatenation concatenates the filtered parts. */
  lemma {:induction false} FiltrarCategoriaConcat(a: seq<Producto>, b: seq<Producto>, c: Categoria)
    ensures FiltrarCategoria(a + b, c) == FiltrarCategoria(a, c) + FiltrarCategoria(b, c)
  {
    if a != [] {
      assert (a + b)[1..] == a[1..] + b;
      FiltrarCategoriaConcat(a[1..], b, c);
    } else {
      assert a + b == b;
    }
  }

  /** The list comprehension of `obtener_productos_bajo_stock`: the products
      of `ps` whose stock is at or below `limite`, and no others. */
  function FiltrarBajoStock(ps: seq<Producto>, limite: int): (r: seq<Producto>)
    reads ps
    ensures |r| <= |ps|
    ensures forall i :: 0 <= i < |r| ==> r[i] in ps && r[i].cantidad <= limite
    ensures forall i :: 0 <= i < |ps| && ps[i].cantidad <= limite ==> ps[i] in r
  {
    if ps == [] then []
    else
      assert ps == [ps[0]] + ps[1..];
      (if ps[0].cantidad <= limite then [ps[0]] else []) + FiltrarBajoStock(ps[1..], limite)
  }

  /** The low-stock filter keeps the order of its input. */
  lemma {:induction false} FiltrarBajoStockConcat(a: seq<Producto>, b: seq<Producto>, limite: int)
    ensures FiltrarBajoStock(a + b, limite) == FiltrarBajoStock(a, limite) + FiltrarBajoStock(b, limite)
  {
    if a != [] {
      assert (a + b)[1..] == a[1..] + b;
      FiltrarBajoStockConcat(a[1..], b, limite);
    } else {
      assert a + b == b;
    }
  }

  /** The dictionary `m` with its keys in the order `s`: every key is the id
      of the product stored under it, and `s` lists each key exactly once. */
  predicate Indexados(m: map<int, Producto>, s: seq<int>)
  {
    (forall k :: k in m ==> m[k].idProducto == k) &&
    SinRepetidos(s) && ClavesEn(s, m) &&
    (forall k :: k in m ==> k in s)
  }

  /** Inserting a product under a new id keeps the dictionary indexed,
      appends the product to the listing, and appends it to the listing of
      its category only. */
  lemma IndexadosAgregar(m: map<int, Producto>, s: seq<int>, p: Producto)
    requires Indexados(m, s) && p.idProducto !in m
    ensures Indexados(m[p.idProducto := p], s + [p.idProducto])
    ensures Valores(s + [p.idProducto], m[p.idProducto := p]) == Valores(s, m) + [p]
    ensures forall c ::
      FiltrarCategoria(Valores(s + [p.idProducto], m[p.idProducto := p]), c) ==
      FiltrarCategoria(Valores(s, m), c) + (if p.categoria == c then [p] else [])
  {
    var todos := Valores(s, m);
    assert Valores(s + [p.idProducto], m[p.idProducto := p]) == todos + [p];
    forall c {
      FiltrarCategoriaConcat(todos, [p], c);
    }
  }

  /** Dropping entry `i` of a sequence without repeats leaves a sequence
      without repeats that holds every other element. */
  lemma QuitarPosicion(s: seq<int>, i: nat)
    requires SinRepetidos(s) && i < |s|
    ensures SinRepetidos(s[..i] + s[i + 1..])
    ensures forall k :: k in s[..i] + s[i + 1..] <==> k in s && k != s[i]
  {
  }

  /** Removing key `s[i]` from both the key sequence and the map removes
      entry `i` from the listed values and keeps the rest in order. */
  lemma ValoresQuitar(s: seq<int>, m: map<int, Producto>, i: nat)
    requires SinRepetidos(s) && i < |s|
    requires ClavesEn(s, m)
    ensures ClavesEn(s[..i] + s[i + 1..], m - {s[i]})
    ensures Valores(s[..i] + s[i + 1..], m - {s[i]}) == Valores(s, m)[..i] + Valores(s, m)[i + 1..]
  {
  }

  /** Deleting the key `k` keeps the dictionary indexed and removes exactly
      its entry from the key order and from the listing; the other entries
      keep their order. */
  lemma IndexadosQuitar(m: map<int, Producto>, s: seq<int>, k: int)
    requires Indexados(m, s) && k in m
    ensures var i := Indice(s, k);
      Indexados(m - {k}, s[..i] + s[i + 1..]) &&
      Valores(s[..i] + s[i + 1..], m - {k}) == Valores(s, m)[..i] + Valores(s, m)[i + 1..]
  {
    var i := Indice(s, k);
    var t, n := s[..i] + s[i + 1..], m - {k};
    QuitarPosicion(s, i);
    ValoresQuitar(s, m, i);
    assert forall x :: x in n ==> n[x].idProducto == x;
    assert forall x :: x in n ==> x in t;
    assert Indexados(n, t);
  }

  // ---------------------------------------------------------------------
  // RepositorioMemoria
  // ---------------------------------------------------------------------

  /** The in-memory repository: a dictionary from id to product. Python
      dictionaries iterate in insertion order; `orden` records that order. */
  class RepositorioMemoria {
    var productos: map<int, Producto>
    var orden: seq<int>

    /** Every key is the id of the product stored under it, and `orden`
        lists each key exactly once. Ids never change, so this part of the
        invariant reads only the repository itself. */
    ghost predicate Indexado()
      reads this
    {
      Indexados(productos, orden)
    }

    /** The repository's invariant: it is indexed and every stored product
        is valid. */
    ghost predicate Valid()
      reads this, productos.Values
    {
      Indexado() && forall k :: k in productos ==> productos[k].Valid()
    }

    constructor ()
      ensures Valid() && productos == map[] && orden == []
    {
      productos := map[];
      orden := [];
    }

    /** `obtener`: the product stored under `id`, if any. */
    function Obtener(id: int): (r: Option<Producto>)
      reads this
      requires Indexado()
      ensures r.Some? <==> id in productos
      ensures r.Some? ==> r.value == productos[id] && r.value.idProducto == id
    {
      if id in productos then Some(productos[id]) else None
    }

    /** `obtener_todos`: every stored product once, in insertion order. */
    function ObtenerTodos(): (r: seq<Producto>)
      reads this
      requires Indexado()
      ensures |r| == |orden| == |productos|
      ensures forall i :: 0 <= i < |r| ==> r[i].idProducto == orden[i] && r[i] == productos[orden[i]]
      ensures forall k :: k in productos ==> productos[k] in r
    {
      var r := Valores(orden, productos);
      CardinalSinRepetidos(orden);
      assert (set k | k in orden) == productos.Keys by {
        forall k ensures k in (set x | x in orden) <==> k in productos.Keys {
          if k in orden {
            assert orden[Indice(orden, k)] == k;
          }
        }
      }
      forall k | k in productos ensures productos[k] in r {
        assert r[Indice(orden, k)] == productos[k];
      }
      r
    }

    /** `agregar`: refuse an id that is already a key; otherwise store the
        product under its id, after every product already stored. */
    method Agregar(p: Producto) returns (r: Result<bool>)
      requires Valid() && p.Valid()
      modifies this
      ensures Valid()
      ensures p.idProducto in old(productos) ==>
        r == Err(IdDuplicado(p.idProducto)) &&
        productos == old(productos) && orden == old(orden)
      ensures p.idProducto !in old(productos) ==>
        r == Ok(true) &&
        productos == old(productos)[p.idProducto := p] &&
        orden == old(orden) + [p.idProducto] &&
        ObtenerTodos() == old(ObtenerTodos()) + [p] &&
        forall c :: ObtenerPorCategoria(c) ==
          old(ObtenerPorCategoria(c)) + (if p.categoria == c then [p] else [])
    {
      if p.idProducto in productos {
        return Err(IdDuplicado(p.idProducto));
      }
      IndexadosAgregar(productos, orden, p);
      productos := productos[p.idProducto := p];
      orden := orden + [p.idProducto];
      return Ok(true);
    }

    /** `eliminar`: remove the entry for `id` and say whether there was one.
        The other products keep their order. */
    method Eliminar(id: int) returns (r: bool)
      requires Valid()
      modifies this
      ensures Valid()
      ensures r == (id in old(productos))
      ensures productos == old(productos) - {id}
      ensures Obtener(id) == None
      ensures !r ==> orden == old(orden)
      ensures r ==>
        var i := Indice(old(orden), id);
        orden == old(orden)[..i] + old(orden)[i + 1..] &&
        ObtenerTodos() == old(ObtenerTodos())[..i] + old(ObtenerTodos())[i + 1..]
    {
      if id in productos {
        var i := Indice(orden, id);
        IndexadosQuitar(productos, orden, id);
        productos := productos - {id};
        orden := orden[..i] + orden[i + 1..];
        return true;
      }
      return false;
    }

    /** `obtener_por_categoria`: the stored products of category `c`, in
        insertion order. */
    function ObtenerPorCategoria(c: Categoria): (r: seq<Producto>)
      reads this
      requires Indexado()
      ensures forall i :: 0 <= i < |r| ==>
        r[i].categoria == c && r[i].idProducto in productos && productos[r[i].idProducto] == r[i]
      ensures forall k :: k in productos && productos[k].categoria == c ==> productos[k] in r
    {
      FiltrarCategoria(ObtenerTodos(), c)
    }
  }

  // ---------------------------------------------------------------------
  // Inventario
  // ---------------------------------------------------------------------

  /** The stock threshold `obtener_productos_bajo_stock` uses when none is given. */
  const LIMITE_BAJO_STOCK: int := 10

  /** The business-rule layer over one repository. */
  class Inventario {
    const repositorio: RepositorioMemoria

    ghost predicate Valid()
      reads repositorio, repositorio.productos.Values
    {
      repositorio.Valid()
    }

    constructor (repositorio: RepositorioMemoria)
      ensures this.repositorio == repositorio
    {
      this.repositorio := repositorio;
    }

    /** `agregar_producto`: build the product (a validation error leaves both
        the counter and the repository as they were), then store it. */
    method AgregarProducto(contador: Contador, nombre: string, descripcion: string,
                           precio: real, cantidad: int, categoria: Categoria,
                           fechaCreacion: string) returns (r: Result<Producto>)
      requires Valid()
      modifies contador, repositorio
      ensures Valid()
      ensures Validar(nombre, precio, cantidad).Some? ==>
        r == Err(Validar(nombre, precio, cantidad).value) &&
        contador.valor == old(contador.valor) &&
        repositorio.productos == old(repositorio.productos) &&
        repositorio.orden == old(repositorio.orden)
      ensures Validar(nombre, precio, cantidad) == None ==>
        contador.valor == old(contador.valor) + 1
      ensures Validar(nombre, precio, cantidad) == None &&
              contador.valor in old(repositorio.productos) ==>
        r == Err(IdDuplicado(contador.valor)) &&
        repositorio.productos == old(repositorio.productos) &&
        repositorio.orden == old(repositorio.orden)
      ensures Validar(nombre, precio, cantidad) == None &&
              contador.valor !in old(repositorio.productos) ==>
        r.Ok? && fresh(r.value) &&
        r.value.idProducto == contador.valor &&
        r.value.nombre == Recortar(nombre) && r.value.descripcion == Recortar(descripcion) &&
        r.value.cantidad == cantidad && r.value.precio == precio &&
        r.value.categoria == categoria && r.value.fechaCreacion == fechaCreacion &&
        repositorio.productos == old(repositorio.productos)[r.value.idProducto := r.value] &&
        repositorio.Obtener(r.value.idProducto) == Some(r.value) &&
        repositorio.ObtenerTodos() == old(repositorio.ObtenerTodos()) + [r.value] &&
        forall c :: repositorio.ObtenerPorCategoria(c) ==
          old(repositorio.ObtenerPorCategoria(c)) + (if categoria == c then [r.value] else [])
    {
      var creado := Producto.Nuevo(contador, nombre, descripcion, precio, cantidad,
                                   categoria, fechaCreacion);
      if creado.Err? {
        return Err(creado.error);
      }
      var producto := creado.value;
      var agregado := repositorio.Agregar(producto);
      if agregado.Err? {
        return Err(agregado.error);
      }
      return Ok(producto);
    }

    /** `aumentar_stock`: add `cantidad` (of either sign) to the stock of
        product `id`; an unknown id, or a total below zero, is refused and
        changes nothing. */
    method AumentarStock(id: int, cantidad: int) returns (r: Result<bool>)
      requires Valid()
      modifies repositorio.productos.Values
      ensures Valid()
      ensures id !in repositorio.productos ==> r == Err(ProductoNoExiste(id))
      ensures id in repositorio.productos ==>
        var p := repositorio.productos[id];
        p.precio == old(p.precio) &&
        (old(p.cantidad) + cantidad < 0 ==>
          r == Err(CantidadNegativa) && p.cantidad == old(p.cantidad)) &&
        (old(p.cantidad) + cantidad >= 0 ==>
          r == Ok(true) && p.cantidad == old(p.cantidad) + cantidad)
      ensures forall q :: q in repositorio.productos.Values && q.idProducto != id ==>
        q.cantidad == old(q.cantidad) && q.precio == old(q.precio)
    {
      var encontrado := repositorio.Obtener(id);
      if encontrado.None? {
        return Err(ProductoNoExiste(id));
      }
      var producto := encontrado.value;
      r := producto.ActualizarCantidad(producto.cantidad + cantidad);
    }

    /** `disminuir_stock`: take `cantidad` off the stock of product `id`; an
        unknown id, or a sale larger than the stock, is refused and changes
        nothing. What is left is never negative. */
    method DisminuirStock(id: int, cantidad: int) returns (r: Result<bool>)
      requires Valid()
      modifies repositorio.productos.Values
      ensures Valid()
      ensures id !in repositorio.productos ==> r == Err(ProductoNoExiste(id))
      ensures id in repositorio.productos ==>
        var p := repositorio.productos[id];
        p.precio == old(p.precio) &&
        (old(p.cantidad) < cantidad ==>
          r == Err(StockInsuficiente(old(p.cantidad))) && p.cantidad == old(p.cantidad)) &&
        (old(p.cantidad) >= cantidad ==>
          r == Ok(true) && p.cantidad == old(p.cantidad) - cantidad && p.cantidad >= 0)
      ensures forall q :: q in repositorio.productos.Values && q.idProducto != id ==>
        q.cantidad == old(q.cantidad) && q.precio == old(q.precio)
    {
      var encontrado := repositorio.Obtener(id);
      if encontrado.None? {
        return Err(ProductoNoExiste(id));
      }
      var producto := encontrado.value;
      if producto.cantidad < cantidad {
        return Err(StockInsuficiente(producto.cantidad));
      }
      var _ := producto.ActualizarCantidad(producto.cantidad - cantidad);
      return Ok(true);
    }

    /** `obtener_productos_bajo_stock`: the stored products whose stock is at
        or below `limite` (a stock equal to it included), in repository order. */
    function ObtenerProductosBajoStock(limite: int := LIMITE_BAJO_STOCK): (r: seq<Producto>)
      reads repositorio, repositorio.productos.Values
      requires Valid()
      ensures forall i :: 0 <= i < |r| ==>
        r[i].cantidad <= limite && r[i].idProducto in repositorio.productos &&
        repositorio.productos[r[i].idProducto] == r[i]
      ensures forall k :: k in repositorio.productos && repositorio.productos[k].cantidad <= limite ==>
        repositorio.productos[k] in r
    {
      FiltrarBajoStock(repositorio.ObtenerTodos(), limite)
    }
  }
}
