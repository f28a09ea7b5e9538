/** Verified client calls of the handlers on small concrete stores: what a
    caller can conclude from the handlers' contracts alone. */
module Escenarios {
  import opened Valores
  import opened Normalizacion
  import opened Pedidos
  import opened Transiciones

  /** A decoder for events that carry no gateway body. */
  function SinCuerpo(): Json
  {
    (s: string) => None
  }

  /** A store holding one order of tenant "t1" with id "o1" in the given state. */
  method TablasConPedido(estado: string) returns (tablas: Tablas)
    ensures fresh(tablas) && tablas.Valid()
    ensures tablas.pedidos == map[(Str("t1"), Str("o1")) := map["tenant_id" := Str("t1"), "id" := Str("o1"), "estado_pedido" := Str(estado)]]
    ensures tablas.cocina == map[] && tablas.despachador == map[] && tablas.delivery == map[]
  {
    var pedido := map["tenant_id" := Str("t1"), "id" := Str("o1"), "estado_pedido" := Str(estado)];
    tablas := new Tablas(map[(Str("t1"), Str("o1")) := pedido], map[], map[], map[]);
  }

  /** An order in "pagado" advanced to the kitchen: 200, a COCINA record
      "cocinando" for employee "e1" with no end time, and the order in "cocina". */
  method AvanceACocina() returns (resp: Respuesta, registro: Fields, estado: Option<Value>)
    ensures resp == Respuesta(200, TransicionRealizada("pagado", "cocina", Str("t1"), Str("o1")))
    ensures Get(registro, "id_pedido") == Some(Str("o1")) && Get(registro, "id_empleado") == Some(Str("e1"))
    ensures Get(registro, "hora_comienzo") == Some(Str("10:00")) && Get(registro, "hora_fin") == Some(Null)
    ensures Get(registro, "status") == Some(Str("cocinando"))
    ensures estado == Some(Str("cocina"))
  {
    NombresDeEtapa();
    var tablas := TablasConPedido("pagado");
    var event := map["tenant_id" := Str("t1"), "id_pedido" := Str("o1"), "id_empleado" := Str("e1")];
    assert Normalize(event, SinCuerpo()) == event;
    assert TenantId(event) == Some(Str("t1")) && IdPedido(event) == Some(Str("o1"));
    assert Get(event, "id_empleado") == Some(Str("e1"));
    assert ValidarPedidoYEstado(event, "pagado", tablas.pedidos).Aceptado?;
    resp := tablas.PagadoACocina(event, SinCuerpo(), "10:00");
    registro := tablas.cocina[Str("o1")];
    estado := Get(tablas.pedidos[(Str("t1"), Str("o1"))], "estado_pedido");
    RegistroCocina(registro);
  }

  /** The COCINA record opened for employee "e1" at "10:00". */
  lemma RegistroCocina(registro: Fields)
    requires registro == RegistroEtapa(Str("o1"), Some(Str("e1")), "10:00")
    ensures Get(registro, "id_pedido") == Some(Str("o1")) && Get(registro, "id_empleado") == Some(Str("e1"))
    ensures Get(registro, "hora_comienzo") == Some(Str("10:00")) && Get(registro, "hora_fin") == Some(Null)
    ensures Get(registro, "status") == Some(Str("cocinando"))
  {
  }

  /** The same handler twice on one order: the second call is refused with
      400 and names the state the first call left. */
  method ReintentoRechazado() returns (primera: Respuesta, segunda: Respuesta)
    ensures primera.statusCode == 200
    ensures segunda == Respuesta(400, EstadoInesperado(Some(Str("cocina")), "pagado"))
  {
    NombresDeEtapa();
    var tablas := TablasConPedido("pagado");
    var event := map["tenant_id" := Str("t1"), "id" := Str("o1")];
    assert Normalize(event, SinCuerpo()) == event;
    assert IdPedido(event) == Some(Str("o1"));
    assert ValidarPedidoYEstado(event, "pagado", tablas.pedidos).Aceptado?;
    primera := tablas.PagadoACocina(event, SinCuerpo(), "10:00");
    assert ValidarPedidoYEstado(event, "pagado", tablas.pedidos) == Rechazado(Respuesta(400, EstadoInesperado(Some(Str("cocina")), "pagado")));
    segunda := tablas.PagadoACocina(event, SinCuerpo(), "10:05");
  }

  /** An order in "empaquetamiento" sent to delivery by an event that names
      no driver and no places: the delivery record holds the defaults. */
  method AvanceADelivery() returns (resp: Respuesta, entrega: Fields)
    ensures resp.statusCode == 200
    ensures Get(entrega, "id_pedido") == Some(Str("o1")) && Get(entrega, "tenant_id") == Some(Str("t1"))
    ensures Get(entrega, "repartidor") == Some(Str("no_asignado")) && Get(entrega, "id_repartidor") == Some(Str("no_asignado"))
    ensures Get(entrega, "origen") == Some(Str("no_definido")) && Get(entrega, "destino") == Some(Str("no_definido"))
    ensures Get(entrega, "status") == Some(Str("en camino"))
  {
    NombresDeEtapa();
    var tablas := TablasConPedido("empaquetamiento");
    var event := map["tenant_id" := Str("t1"), "id_pedido" := Str("o1"), "repartidor" := Str("")];
    assert Normalize(event, SinCuerpo()) == event;
    assert TenantId(event) == Some(Str("t1")) && IdPedido(event) == Some(Str("o1"));
    assert ValidarPedidoYEstado(event, "empaquetamiento", tablas.pedidos).Aceptado?;
    resp := tablas.EmpaquetamientoADelivery(event, SinCuerpo(), "10:30");
    entrega := tablas.delivery[Str("o1")];
    EntregaPorDefecto(event, entrega);
  }

  /** The delivery record built from an event whose driver is the empty
      string and which names no places. */
  lemma EntregaPorDefecto(event: Fields, entrega: Fields)
    requires event == map["tenant_id" := Str("t1"), "id_pedido" := Str("o1"), "repartidor" := Str("")]
    requires entrega == RegistroDelivery(Str("o1"), Str("t1"), event)
    ensures Get(entrega, "id_pedido") == Some(Str("o1")) && Get(entrega, "tenant_id") == Some(Str("t1"))
    ensures Get(entrega, "repartidor") == Some(Str("no_asignado")) && Get(entrega, "id_repartidor") == Some(Str("no_asignado"))
    ensures Get(entrega, "origen") == Some(Str("no_definido")) && Get(entrega, "destino") == Some(Str("no_definido"))
    ensures Get(entrega, "status") == Some(Str("en camino"))
  {
  }

  /** An order in "cocina" sent to packaging: its COCINA record is closed at
      the first clock read and its DESPACHADOR record opens at the second. */
  method AvanceAEmpaquetamiento() returns (resp: Respuesta, cierre: Fields, apertura: Fields)
    ensures resp.statusCode == 200
    ensures Get(cierre, "status") == Some(Str("terminado")) && Get(cierre, "hora_fin") == Some(Str("10:20"))
    ensures Get(apertura, "status") == Some(Str("cocinando")) && Get(apertura, "hora_comienzo") == Some(Str("10:21"))
  {
    NombresDeEtapa();
    var tablas := TablasConPedido("cocina");
    var event := map["tenant_id" := Str("t1"), "id_pedido" := Str("o1")];
    assert Normalize(event, SinCuerpo()) == event;
    assert TenantId(event) == Some(Str("t1")) && IdPedido(event) == Some(Str("o1"));
    assert ValidarPedidoYEstado(event, "cocina", tablas.pedidos).Aceptado?;
    assert Get(event, "id_empleado") == None;
    resp := tablas.CocinaAEmpaquetamiento(event, SinCuerpo(), "10:20", "10:21");
    RelevoDeEtapa(tablas.cocina, tablas.despachador);
    cierre := tablas.cocina[Str("o1")];
    apertura := tablas.despachador[Str("o1")];
  }

  /** A COCINA record closed at "10:20" with no record before it, and the
      DESPACHADOR record opened at "10:21" for an event naming no employee. */
  lemma RelevoDeEtapa(cocina: TablaEtapa, despachador: TablaEtapa)
    requires cocina == Cerrar(map[], Str("o1"), "10:20")
    requires despachador == map[][Str("o1") := RegistroEtapa(Str("o1"), None, "10:21")]
    ensures Str("o1") in cocina && Str("o1") in despachador
    ensures Get(cocina[Str("o1")], "status") == Some(Str("terminado"))
    ensures Get(cocina[Str("o1")], "hora_fin") == Some(Str("10:20"))
    ensures Get(despachador[Str("o1")], "status") == Some(Str("cocinando"))
    ensures Get(despachador[Str("o1")], "hora_comienzo") == Some(Str("10:21"))
  {
  }

  /** The last handler: the order ends "entregado", its delivery record is
      "cumplido", and the handler then refuses the same order. */
  method AvanceAEntregado() returns (primera: Respuesta, segunda: Respuesta, estado: Option<Value>, entrega: Fields)
    ensures primera.statusCode == 200
    ensures segunda == Respuesta(400, EstadoInesperado(Some(Str("entregado")), "delivery"))
    ensures estado == Some(Str("entregado"))
    ensures Get(entrega, "status") == Some(Str("cumplido")) && Get(entrega, "id_pedido") == Some(Str("o1"))
  {
    NombresDeEtapa();
    var tablas := TablasConPedido("delivery");
    var event := map["tenant_id" := Str("t1"), "id_pedido" := Str("o1")];
    assert Normalize(event, SinCuerpo()) == event;
    assert TenantId(event) == Some(Str("t1")) && IdPedido(event) == Some(Str("o1"));
    assert ValidarPedidoYEstado(event, "delivery", tablas.pedidos).Aceptado?;
    primera := tablas.DeliveryAEntregado(event, SinCuerpo());
    estado := Get(tablas.pedidos[(Str("t1"), Str("o1"))], "estado_pedido");
    entrega := tablas.delivery[Str("o1")];
    EntregaCumplida(entrega);
    assert ValidarPedidoYEstado(event, "delivery", tablas.pedidos) == Rechazado(Respuesta(400, EstadoInesperado(Some(Str("entregado")), "delivery")));
    segunda := tablas.DeliveryAEntregado(event, SinCuerpo());
  }

  /** A DELIVERY record marked fulfilled with no record before it. */
  lemma EntregaCumplida(entrega: Fields)
    requires entrega == Cumplir(map[], Str("o1"))[Str("o1")]
    ensures Get(entrega, "status") == Some(Str("cumplido")) && Get(entrega, "id_pedido") == Some(Str("o1"))
  {
  }

  /** A gateway event whose body names the order and whose path repeats
      `id_pedido` with another value: the body's value is the one kept. */
  method CuerpoGanaSobreRuta() returns (r: Fields)
    ensures r == map["tenant_id" := Str("t1"), "id_pedido" := Str("o1")]
  {
    var texto := "{\"tenant_id\":\"t1\",\"id_pedido\":\"o1\"}";
    var decodificado := map["tenant_id" := Str("t1"), "id_pedido" := Str("o1")];
    var json: Json := (s: string) => if s == texto then Some(decodificado) else None;
    var event := map["body" := Str(texto), "pathParameters" := Obj(map["id_pedido" := Str("ignored")])];
    r := ParseEvent(event, json);
  }

  /** A gateway event whose body does not decode and whose path names the
      order still reaches the guard with the path's identifiers; missing
      the tenant, it is refused with 400 and nothing is written. */
  method CuerpoInvalido() returns (resp: Respuesta, sinEscrituras: bool)
    ensures resp == Respuesta(400, FaltanIdentificadores)
    ensures sinEscrituras
  {
    NombresDeEtapa();
    var tablas := TablasConPedido("pagado");
    var event := map["body" := Str("{no es json"), "pathParameters" := Obj(map["id_pedido" := Str("o1")])];
    var json: Json := (s: string) => None;
    var pedidos0, cocina0, despachador0, delivery0 := tablas.pedidos, tablas.cocina, tablas.despachador, tablas.delivery;
    assert Normalize(event, json) == map["id_pedido" := Str("o1")];
    assert ValidarPedidoYEstado(map["id_pedido" := Str("o1")], "pagado", tablas.pedidos) == Rechazado(Respuesta(400, FaltanIdentificadores));
    resp := tablas.PagadoACocina(event, json, "10:00");
    sinEscrituras := && tablas.pedidos == pedidos0 && tablas.cocina == cocina0
                     && tablas.despachador == despachador0 && tablas.delivery == delivery0;
  }

  /** An order that is not stored is answered 404 and nothing is written. */
  method PedidoInexistente() returns (resp: Respuesta, sinEscrituras: bool)
    ensures resp == Respuesta(404, PedidoNoEncontrado(Str("t1"), Str("o2")))
    ensures sinEscrituras
  {
    NombresDeEtapa();
    var tablas := TablasConPedido("cocina");
    var event := map["tenant_id" := Str("t1"), "id_pedido" := Str("o2")];
    var pedidos0, cocina0, despachador0, delivery0 := tablas.pedidos, tablas.cocina, tablas.despachador, tablas.delivery;
    assert Normalize(event, SinCuerpo()) == event;
    assert ValidarPedidoYEstado(event, "cocina", tablas.pedidos) == Rechazado(Respuesta(404, PedidoNoEncontrado(Str("t1"), Str("o2"))));
    resp := tablas.CocinaAEmpaquetamiento(event, SinCuerpo(), "10:20", "10:21");
    sinEscrituras := && tablas.pedidos == pedidos0 && tablas.cocina == cocina0
                     && tablas.despachador == despachador0 && tablas.delivery == delivery0;
  }
}
