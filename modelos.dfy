/** The product entity: categories, the validation rules of the
    constructor, the class-wide id counter and the two guarded updates. */
module Modelos {
  import opened Errores

  datatype Categoria = Electronica | Alimentos | Ropa | Libros | Otros

  // ---------------------------------------------------------------------
  // Python's str.strip() with no argument
  // ---------------------------------------------------------------------

  /** The characters for which Python's `str.isspace()` holds; `str.strip()`
      removes exactly these from both ends. */
  predicate EsEspacio(c: char)
  {
    var n := c as int;
    (0x09 <= n <= 0x0D) || (0x1C <= n <= 0x20) || n == 0x85 || n == 0xA0 ||
    n == 0x1680 || (0x2000 <= n <= 0x200A) || n == 0x2028 || n == 0x2029 ||
    n == 0x202F || n == 0x205F || n == 0x3000
  }

  predicate SoloEspacios(s: string)
  {
    forall k :: 0 <= k < |s| ==> EsEspacio(s[k])
  }

  /** The first index at or after `i` that does not hold whitespace, or
      `|s|` when there is none. */
  function SaltarEspacios(s: string, i: nat): (j: nat)
    requires i <= |s|
    decreases |s| - i
    ensures i <= j <= |s|
    ensures forall k :: i <= k < j ==> EsEspacio(s[k])
    ensures j < |s| ==> !EsEspacio(s[j])
  {
    if i < |s| && EsEspacio(s[i]) then SaltarEspacios(s, i + 1) else i
  }

  /** The end of `s[i..j]` once its trailing whitespace is dropped. */
  function RetrocederEspacios(s: string, i: nat, j: nat): (e: nat)
    requires i <= j <= |s|
    decreases j - i
    ensures i <= e <= j
    ensures forall k :: e <= k < j ==> EsEspacio(s[k])
    ensures e > i ==> !EsEspacio(s[e - 1])
  {
    if j > i && EsEspacio(s[j - 1]) then RetrocederEspacios(s, i, j - 1) else j
  }

  /** `s.strip()`: the slice of `s` left once the whitespace at both ends is
      gone. It is empty exactly when `s` holds nothing but whitespace, and
      neither of its ends is whitespace. */
  function Recortar(s: string): (r: string)
    ensures var i := SaltarEspacios(s, 0);
      i + |r| <= |s| && r == s[i..i + |r|] &&
      (forall k :: 0 <= k < i ==> EsEspacio(s[k])) &&
      (forall k :: i + |r| <= k < |s| ==> EsEspacio(s[k]))
    ensures r == [] <==> SoloEspacios(s)
    ensures Recortado(r)
  {
    var i := SaltarEspacios(s, 0);
    var e := RetrocederEspacios(s, i, |s|);
    assert e > i ==> s[i..e][0] == s[i] && s[i..e][e - i - 1] == s[e - 1];
    s[i..e]
  }

  /** Neither end of `s` is whitespace. */
  predicate Recortado(s: string)
  {
    s == [] || (!EsEspacio(s[0]) && !EsEspacio(s[|s| - 1]))
  }

  /** The strings that strip leaves alone are exactly those with no
      whitespace at either end. */
  lemma RecortarFijo(s: string)
    ensures Recortar(s) == s <==> Recortado(s)
  {
  }

  /** Stripping twice is stripping once. */
  lemma RecortarIdempotente(s: string)
    ensures Recortar(Recortar(s)) == Recortar(s)
  {
  }

  // ---------------------------------------------------------------------
  // Validation of Producto.__init__
  // ---------------------------------------------------------------------

  /** The three checks of the constructor, in the order the constructor
      makes them: the first one that fails names the error, and `None` means
      the product may be built. */
  function Validar(nombre: string, precio: real, cantidad: int): (r: Option<Error>)
    ensures r == Some(NombreVacio) <==> SoloEspacios(nombre)
    ensures r == Some(PrecioNegativo) <==> !SoloEspacios(nombre) && precio < 0.0
    ensures r == Some(CantidadNegativa) <==>
      !SoloEspacios(nombre) && precio >= 0.0 && cantidad < 0
    ensures r == None <==> !SoloEspacios(nombre) && precio >= 0.0 && cantidad >= 0
  {
    if nombre == [] || Recortar(nombre) == [] then Some(NombreVacio)
    else if precio < 0.0 then Some(PrecioNegativo)
    else if cantidad < 0 then Some(CantidadNegativa)
    else None
  }

  /** The class attribute `Producto._contador`, made an explicit object that
      every construction draws from. */
  class Contador {
    var valor: int

    constructor ()
      ensures valor == 1000
    {
      valor := 1000;
    }

    /** Raise the counter by one and hand out its new value. */
    method Siguiente() returns (id: int)
      modifies this
      ensures valor == old(valor) + 1 && id == valor
    {
      valor := valor + 1;
      id := valor;
    }
  }

  class Producto {
    const idProducto: int
    const nombre: string
    const descripcion: string
    var precio: real
    var cantidad: int
    const categoria: Categoria
    /** The creation timestamp, supplied by the caller (the clock is not modelled). */
    const fechaCreacion: string

    /** The product's invariant: a trimmed non-empty name, a trimmed
        description, and neither price nor quantity below zero. */
    ghost predicate Valid()
      reads this
    {
      nombre != [] && Recortado(nombre) && Recortado(descripcion) &&
      precio >= 0.0 && cantidad >= 0
    }

    /** The assignments of `__init__` once validation has passed and the id
        has been drawn; use `Nuevo` to create a product. */
    constructor (idProducto: int, nombre: string, descripcion: string, precio: real,
                 cantidad: int, categoria: Categoria, fechaCreacion: string)
      requires Validar(nombre, precio, cantidad) == None
      ensures Valid()
      ensures this.idProducto == idProducto && this.nombre == Recortar(nombre) &&
              this.descripcion == Recortar(descripcion) && this.precio == precio &&
              this.cantidad == cantidad && this.categoria == categoria &&
              this.fechaCreacion == fechaCreacion
    {
      this.idProducto := idProducto;
      this.nombre := Recortar(nombre);
      this.descripcion := Recortar(descripcion);
      this.precio := precio;
      this.cantidad := cantidad;
      this.categoria := categoria;
      this.fechaCreacion := fechaCreacion;
    }

    /** `Producto(...)`: validate, and only then draw the next id from the
        counter and build the product. A failed construction leaves the
        counter as it was. */
    static method Nuevo(contador: Contador, nombre: string, descripcion: string,
                        precio: real, cantidad: int, categoria: Categoria,
                        fechaCreacion: string) returns (r: Result<Producto>)
      modifies contador
      ensures Validar(nombre, precio, cantidad).Some? ==>
        r == Err(Validar(nombre, precio, cantidad).value) &&
        contador.valor == old(contador.valor)
      ensures Validar(nombre, precio, cantidad) == None ==>
        r.Ok? && fresh(r.value) && r.value.Valid() &&
        contador.valor == old(contador.valor) + 1 &&
        r.value.idProducto == contador.valor &&
        r.value.nombre == Recortar(nombre) && r.value.descripcion == Recortar(descripcion) &&
        r.value.precio == precio && r.value.cantidad == cantidad &&
        r.value.categoria == categoria && r.value.fechaCreacion == fechaCreacion
    {
      var error := Validar(nombre, precio, cantidad);
      if error.Some? {
        return Err(error.value);
      }
      var id := contador.Siguiente();
      var p := new Producto(id, nombre, descripcion, precio, cantidad, categoria, fechaCreacion);
      return Ok(p);
    }

    /** `actualizar_cantidad`: a negative quantity is refused and changes
        nothing; any other replaces the quantity. */
    method ActualizarCantidad(nuevaCantidad: int) returns (r: Result<bool>)
      requires Valid()
      modifies this`cantidad
      ensures Valid()
      ensures nuevaCantidad < 0 ==> r == Err(CantidadNegativa) && cantidad == old(cantidad)
      ensures nuevaCantidad >= 0 ==> r == Ok(true) && cantidad == nuevaCantidad
    {
      if nuevaCantidad < 0 {
        return Err(CantidadNegativa);
      }
      cantidad := nuevaCantidad;
      return Ok(true);
    }

    /** `actualizar_precio`: a negative price is refused and changes nothing;
        any other replaces the price. */
    method ActualizarPrecio(nuevoPrecio: real) returns (r: Result<bool>)
      requires Valid()
      modifies this`precio
      ensures Valid()
      ensures nuevoPrecio < 0.0 ==> r == Err(PrecioNegativo) && precio == old(precio)
      ensures nuevoPrecio >= 0.0 ==> r == Ok(true) && precio == nuevoPrecio
    {
      if nuevoPrecio < 0.0 {
        return Err(PrecioNegativo);
      }
      precio := nuevoPrecio;
      return Ok(true);
    }

    /** `calcular_valor_total`: the stock's worth, price times quantity. It
        is never negative for a valid product and is zero when the shelf is
        empty or the product is free. */
    function CalcularValorTotal(): (v: real)
      reads this
      ensures precio >= 0.0 && cantidad >= 0 ==> v >= 0.0
      ensures cantidad == 0 || precio == 0.0 ==> v == 0.0
    {
      precio * cantidad as real
    }
  }
}
