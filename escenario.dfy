/** A client of the inventory: the end-to-end sale scenario, showing that
    the contracts of the model alone determine its outcome. */
module Escenario {
  import opened Errores
  import opened Modelos
  import opened Repositorios

  /** A fresh counter and repository; add a product named `nombre` (price
      10, stock 5), raise its stock by 3, try to sell 20 of it and then list
      the products at or below the default threshold. */
  method VentaDeWidget(nombre: string, descripcion: string, fecha: string)
    returns (id: int, subida: Result<bool>, stock: int, venta: Result<bool>,
             bajoStock: seq<Producto>)
    requires nombre != [] && !EsEspacio(nombre[0])
    ensures id == 1001
    ensures subida == Ok(true)
    ensures stock == 8
    ensures venta == Err(StockInsuficiente(8))
    ensures bajoStock != []
    ensures forall i :: 0 <= i < |bajoStock| ==> bajoStock[i].idProducto == id
  {
    var contador := new Contador();
    var repositorio := new RepositorioMemoria();
    var inventario := new Inventario(repositorio);
    assert Validar(nombre, 10.0, 5) == None;
    var widget := inventario.AgregarProducto(contador, nombre, descripcion, 10.0, 5,
                                             Electronica, fecha);
    assert widget.Ok? && widget.value.idProducto == 1001;
    assert repositorio.productos == map[1001 := widget.value];
    id := widget.value.idProducto;
    subida := inventario.AumentarStock(id, 3);
    assert widget.value.cantidad == 8;
    venta := inventario.DisminuirStock(id, 20);
    stock := widget.value.cantidad;
    bajoStock := inventario.ObtenerProductosBajoStock();
    assert repositorio.productos[1001] in bajoStock;
  }

  /** Two constructions from a fresh counter get the ids 1001 and 1002, and
      a refused one in between takes no id. */
  method IdsConsecutivos(nombre: string) returns (primero: int, segundo: int)
    requires nombre != [] && !EsEspacio(nombre[0])
    ensures primero == 1001 && segundo == 1002
  {
    var contador := new Contador();
    var a := Producto.Nuevo(contador, nombre, "", 1.0, 1, Otros, "");
    var rechazado := Producto.Nuevo(contador, nombre, "", -1.0, 1, Otros, "");
    var b := Producto.Nuevo(contador, nombre, "", 1.0, 1, Otros, "");
    primero, segundo := a.value.idProducto, b.value.idProducto;
  }
}
