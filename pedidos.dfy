/** The order state machine, the guard every handler runs before writing,
    and the effect of each store write, all as functions over the tables'
    contents. */
module Pedidos {
  import opened Valores

  /** The values of an order's `estado_pedido`, in pipeline order. */
  datatype Estado = Pagado | Cocina | Empaquetamiento | Delivery | Entregado
  {
    /** The string stored in `estado_pedido`. */
    function Nombre(): string
    {
      match this
      case Pagado => "pagado"
      case Cocina => "cocina"
      case Empaquetamiento => "empaquetamiento"
      case Delivery => "delivery"
      case Entregado => "entregado"
    }

    /** Position in the pipeline. */
    function Orden(): nat
    {
      match this
      case Pagado => 0
      case Cocina => 1
      case Empaquetamiento => 2
      case Delivery => 3
      case Entregado => 4
    }

    /** The state the handler for this state moves an order to; the last
        state has no handler. */
    function Siguiente(): (r: Option<Estado>)
      ensures r.Some? ==> r.value.Orden() == Orden() + 1
      ensures r.None? <==> this == Entregado
    {
      match this
      case Pagado => Some(Cocina)
      case Cocina => Some(Empaquetamiento)
      case Empaquetamiento => Some(Delivery)
      case Delivery => Some(Entregado)
      case Entregado => None
    }
  }

  /** Distinct states are stored under distinct strings. */
  lemma NombreInyectivo(a: Estado, b: Estado)
    ensures a.Nombre() == b.Nombre() <==> a == b
  {
  }

  /** The strings each handler compares against and writes: the name of its
      state and of that state's successor. */
  lemma NombresDeEtapa()
    ensures Pagado.Nombre() == "pagado" && Pagado.Siguiente().value.Nombre() == "cocina"
    ensures Cocina.Nombre() == "cocina" && Cocina.Siguiente().value.Nombre() == "empaquetamiento"
    ensures Empaquetamiento.Nombre() == "empaquetamiento" && Empaquetamiento.Siguiente().value.Nombre() == "delivery"
    ensures Delivery.Nombre() == "delivery" && Delivery.Siguiente().value.Nombre() == "entregado"
  {
  }

  // ---------------------------------------------------------------------
  // Tables

  /** PEDIDOS is keyed by (tenant_id, id). */
  type ClavePedido = (Value, Value)
  type TablaPedidos = map<ClavePedido, Fields>
  /** COCINA, DESPACHADOR and DELIVERY are keyed by id_pedido. */
  type TablaEtapa = map<Value, Fields>

  /** Every stored order carries its own key attributes, as a DynamoDB item does. */
  predicate PedidosValidos(pedidos: TablaPedidos)
  {
    forall k :: k in pedidos ==>
      Get(pedidos[k], "tenant_id") == Some(k.0) && Get(pedidos[k], "id") == Some(k.1)
  }

  /** Every stage record carries its own key attribute `id_pedido`. */
  predicate EtapaValida(tabla: TablaEtapa)
  {
    forall k :: k in tabla ==> Get(tabla[k], "id_pedido") == Some(k)
  }

  // ---------------------------------------------------------------------
  // Responses

  /** The `mensaje` of a response body, with the identifiers it echoes. */
  datatype Mensaje =
    | FaltanIdentificadores
    | PedidoNoEncontrado(tenantId: Value, idPedido: Value)
    | EstadoInesperado(actual: Option<Value>, esperado: string)
    | TransicionRealizada(desde: string, hacia: string, tenantId: Value, idPedido: Value)

  datatype Respuesta = Respuesta(statusCode: int, mensaje: Mensaje)

  /** `(pedido, None)` or `(None, error_response)`. */
  datatype Guardia = Aceptado(pedido: Fields) | Rechazado(error: Respuesta)

  // ---------------------------------------------------------------------
  // Reads

  /** `event.get("tenant_id")`. */
  function TenantId(event: Fields): Option<Value>
  {
    Get(event, "tenant_id")
  }

  /** `event.get("id_pedido") or event.get("id")`. */
  function IdPedido(event: Fields): Option<Value>
  {
    Or(Get(event, "id_pedido"), Get(event, "id"))
  }

  /** `obtener_pedido`: the item stored under (tenant_id, id), if any. */
  function ObtenerPedido(pedidos: TablaPedidos, tenantId: Value, idPedido: Value): (r: Option<Fields>)
    ensures r.Some? <==> (tenantId, idPedido) in pedidos
    ensures r.Some? ==> r.value == pedidos[(tenantId, idPedido)]
    ensures PedidosValidos(pedidos) && r.Some? ==>
              Get(r.value, "tenant_id") == Some(tenantId) && Get(r.value, "id") == Some(idPedido)
  {
    if (tenantId, idPedido) in pedidos then Some(pedidos[(tenantId, idPedido)]) else None
  }

  /** `validar_pedido_y_estado`: 400 when an identifier is missing or falsy,
      404 when no order is stored under them, 400 when the order is in
      another state, and otherwise the stored order. */
  function ValidarPedidoYEstado(event: Fields, esperado: string, pedidos: TablaPedidos): (r: Guardia)
    ensures r.Rechazado? && r.error == Respuesta(400, FaltanIdentificadores) <==>
              !Present(TenantId(event)) || !Present(IdPedido(event))
    ensures r.Rechazado? && r.error.statusCode == 404 <==>
              && Present(TenantId(event)) && Present(IdPedido(event))
              && ((TenantId(event).value, IdPedido(event).value) !in pedidos
                  || pedidos[(TenantId(event).value, IdPedido(event).value)] == map[])
    ensures r.Rechazado? ==> r.error.statusCode in {400, 404}
    ensures r.Rechazado? && r.error.statusCode == 404 ==>
              r.error.mensaje == PedidoNoEncontrado(TenantId(event).value, IdPedido(event).value)
    ensures r.Rechazado? && r.error.statusCode == 400 && r.error != Respuesta(400, FaltanIdentificadores) ==>
              && (TenantId(event).value, IdPedido(event).value) in pedidos
              && r.error.mensaje == EstadoInesperado(Get(pedidos[(TenantId(event).value, IdPedido(event).value)], "estado_pedido"), esperado)
    ensures r.Aceptado? <==>
              && Present(TenantId(event)) && Present(IdPedido(event))
              && (TenantId(event).value, IdPedido(event).value) in pedidos
              && Get(pedidos[(TenantId(event).value, IdPedido(event).value)], "estado_pedido") == Some(Str(esperado))
    ensures r.Aceptado? ==>
              && r.pedido == pedidos[(TenantId(event).value, IdPedido(event).value)]
              && r.pedido["estado_pedido"] == Str(esperado)
  {
    var tenantId := TenantId(event);
    var idPedido := IdPedido(event);
    if !Present(tenantId) || !Present(idPedido) then
      Rechazado(Respuesta(400, FaltanIdentificadores))
    else
      match ObtenerPedido(pedidos, tenantId.value, idPedido.value)
      case None => Rechazado(Respuesta(404, PedidoNoEncontrado(tenantId.value, idPedido.value)))
      case Some(pedido) =>
        if pedido == map[] then
          Rechazado(Respuesta(404, PedidoNoEncontrado(tenantId.value, idPedido.value)))
        else if Get(pedido, "estado_pedido") != Some(Str(esperado)) then
          Rechazado(Respuesta(400, EstadoInesperado(Get(pedido, "estado_pedido"), esperado)))
        else
          Aceptado(pedido)
  }

  // ---------------------------------------------------------------------
  // Writes

  /** The PEDIDOS table after `actualizar_estado_pedido`: an upsert that
      sets `estado_pedido` on the item under (tenant_id, id), creating the
      item when it is absent, and leaves everything else alone. */
  function ConEstado(pedidos: TablaPedidos, tenantId: Value, idPedido: Value, nuevo: string): (r: TablaPedidos)
    ensures r.Keys == pedidos.Keys + {(tenantId, idPedido)}
    ensures forall k :: k in pedidos && k != (tenantId, idPedido) ==> r[k] == pedidos[k]
    ensures Get(r[(tenantId, idPedido)], "estado_pedido") == Some(Str(nuevo))
    ensures (tenantId, idPedido) in pedidos ==>
              && r[(tenantId, idPedido)].Keys == pedidos[(tenantId, idPedido)].Keys + {"estado_pedido"}
              && forall f :: f in pedidos[(tenantId, idPedido)] && f != "estado_pedido" ==>
                   r[(tenantId, idPedido)][f] == pedidos[(tenantId, idPedido)][f]
    ensures (tenantId, idPedido) !in pedidos ==>
              r[(tenantId, idPedido)] == map["tenant_id" := tenantId, "id" := idPedido, "estado_pedido" := Str(nuevo)]
  {
    var clave := (tenantId, idPedido);
    var item := if clave in pedidos then pedidos[clave] else map["tenant_id" := tenantId, "id" := idPedido];
    pedidos[clave := item["estado_pedido" := Str(nuevo)]]
  }

  /** The record under `idPedido` as `update_item` finds it: the stored one,
      or a fresh item holding only its key when none is stored. */
  function Existente(tabla: TablaEtapa, idPedido: Value): Fields
  {
    if idPedido in tabla then tabla[idPedido] else map["id_pedido" := idPedido]
  }

  /** `update_item` with `SET atributo = valor` on a stage table keyed by
      `id_pedido`: an upsert of one attribute. */
  function FijarAtributo(tabla: TablaEtapa, idPedido: Value, atributo: string, valor: Value): TablaEtapa
  {
    tabla[idPedido := Existente(tabla, idPedido)[atributo := valor]]
  }

  /** Closing a kitchen or packaging record: `SET hora_fin = :hf, status = "terminado"`. */
  function Cerrar(tabla: TablaEtapa, idPedido: Value, horaFin: string): TablaEtapa
  {
    tabla[idPedido := Existente(tabla, idPedido)["hora_fin" := Str(horaFin)]["status" := Str("terminado")]]
  }

  /** Fulfilling the delivery record: `SET status = "cumplido"`. */
  function Cumplir(tabla: TablaEtapa, idPedido: Value): TablaEtapa
  {
    FijarAtributo(tabla, idPedido, "status", Str("cumplido"))
  }

  /** The record opened in COCINA and, with the same literal fields, in
      DESPACHADOR: a missing or falsy employee becomes "no_asignado", the
      end time is null and the status is "cocinando". */
  function RegistroEtapa(idPedido: Value, idEmpleado: Option<Value>, horaComienzo: string): (r: Fields)
    ensures r.Keys == {"id_pedido", "id_empleado", "hora_comienzo", "hora_fin", "status"}
    ensures r["id_pedido"] == idPedido
    ensures Truthy(r["id_empleado"])
    ensures Present(idEmpleado) ==> r["id_empleado"] == idEmpleado.value
    ensures !Present(idEmpleado) ==> r["id_empleado"] == Str("no_asignado")
    ensures r["hora_comienzo"] == Str(horaComienzo) && r["hora_fin"] == Null
    ensures r["status"] == Str("cocinando")
  {
    map[
      "id_pedido" := idPedido,
      "id_empleado" := OrDefault(idEmpleado, "no_asignado"),
      "hora_comienzo" := Str(horaComienzo),
      "hora_fin" := Null,
      "status" := Str("cocinando")
    ]
  }

  /** The record opened in DELIVERY: driver fields missing or falsy become
      "no_asignado", places missing or falsy become "no_definido", and the
      status is "en camino". */
  function RegistroDelivery(idPedido: Value, tenantId: Value, event: Fields): (r: Fields)
    ensures r.Keys == {"id_pedido", "tenant_id", "repartidor", "id_repartidor", "origen", "destino", "status"}
    ensures r["id_pedido"] == idPedido && r["tenant_id"] == tenantId
    ensures forall f :: f in {"repartidor", "id_repartidor", "origen", "destino"} ==>
              Truthy(r[f]) && (Present(Get(event, f)) ==> r[f] == event[f])
    ensures !Present(Get(event, "repartidor")) ==> r["repartidor"] == Str("no_asignado")
    ensures !Present(Get(event, "id_repartidor")) ==> r["id_repartidor"] == Str("no_asignado")
    ensures !Present(Get(event, "origen")) ==> r["origen"] == Str("no_definido")
    ensures !Present(Get(event, "destino")) ==> r["destino"] == Str("no_definido")
    ensures r["status"] == Str("en camino")
  {
    map[
      "id_pedido" := idPedido,
      "tenant_id" := tenantId,
      "repartidor" := OrDefault(Get(event, "repartidor"), "no_asignado"),
      "id_repartidor" := OrDefault(Get(event, "id_repartidor"), "no_asignado"),
      "origen" := OrDefault(Get(event, "origen"), "no_definido"),
      "destino" := OrDefault(Get(event, "destino"), "no_definido"),
      "status" := Str("en camino")
    ]
  }

  // ---------------------------------------------------------------------
  // Properties of the guard and of the writes

  /** The writes keep every order's key attributes in place. */
  lemma ConEstadoPreservaValidez(pedidos: TablaPedidos, tenantId: Value, idPedido: Value, nuevo: string)
    requires PedidosValidos(pedidos)
    ensures PedidosValidos(ConEstado(pedidos, tenantId, idPedido, nuevo))
  {
    var r := ConEstado(pedidos, tenantId, idPedido, nuevo);
    forall k | k in r
      ensures Get(r[k], "tenant_id") == Some(k.0) && Get(r[k], "id") == Some(k.1)
    {
      if k == (tenantId, idPedido) && k in pedidos {
        assert Get(pedidos[k], "tenant_id") == Some(k.0);
        assert r[k]["tenant_id"] == pedidos[k]["tenant_id"];
        assert r[k]["id"] == pedidos[k]["id"];
      }
    }
  }

  /** `update_item` on a stage table touches one record only, writes the
      attribute it is given, keeps the record's other attributes, and
      creates the record, with its key attribute, when it is absent. */
  lemma FijarAtributoEfecto(tabla: TablaEtapa, idPedido: Value, atributo: string, valor: Value)
    ensures var r := FijarAtributo(tabla, idPedido, atributo, valor);
            && r.Keys == tabla.Keys + {idPedido}
            && (forall k :: k in tabla && k != idPedido ==> r[k] == tabla[k])
            && r[idPedido][atributo] == valor
            && (idPedido in tabla ==>
                  && r[idPedido].Keys == tabla[idPedido].Keys + {atributo}
                  && forall f :: f in tabla[idPedido] && f != atributo ==> r[idPedido][f] == tabla[idPedido][f])
            && (idPedido !in tabla ==> r[idPedido] == map["id_pedido" := idPedido, atributo := valor])
  {
  }

  /** Setting an attribute other than the key keeps every record's key
      attribute in place. */
  lemma FijarAtributoPreservaValidez(tabla: TablaEtapa, idPedido: Value, atributo: string, valor: Value)
    requires EtapaValida(tabla) && atributo != "id_pedido"
    ensures EtapaValida(FijarAtributo(tabla, idPedido, atributo, valor))
  {
    if idPedido in tabla {
      assert Get(tabla[idPedido], "id_pedido") == Some(idPedido);
    }
  }

  /** A closed record is "terminado" with the given end time, and every
      record still carries its key. */
  lemma CerrarTermina(tabla: TablaEtapa, idPedido: Value, horaFin: string)
    requires EtapaValida(tabla)
    ensures var r := Cerrar(tabla, idPedido, horaFin);
            && EtapaValida(r)
            && r[idPedido]["status"] == Str("terminado") && r[idPedido]["hora_fin"] == Str(horaFin)
  {
    if idPedido in tabla {
      assert Get(tabla[idPedido], "id_pedido") == Some(idPedido);
    }
  }

  /** Closing touches one record only, writes its end time and status,
      keeps its other attributes, and creates it, with its key, when absent. */
  lemma CerrarEfecto(tabla: TablaEtapa, idPedido: Value, horaFin: string)
    ensures var r := Cerrar(tabla, idPedido, horaFin);
            && r.Keys == tabla.Keys + {idPedido}
            && (forall k :: k in tabla && k != idPedido ==> r[k] == tabla[k])
            && r[idPedido]["hora_fin"] == Str(horaFin) && r[idPedido]["status"] == Str("terminado")
            && (idPedido in tabla ==>
                  && r[idPedido].Keys == tabla[idPedido].Keys + {"hora_fin", "status"}
                  && forall f :: f in tabla[idPedido] && f !in {"hora_fin", "status"} ==> r[idPedido][f] == tabla[idPedido][f])
            && (idPedido !in tabla ==>
                  r[idPedido] == map["id_pedido" := idPedido, "hora_fin" := Str(horaFin), "status" := Str("terminado")])
  {
  }

  /** The fulfilled delivery record is "cumplido", and every record still
      carries its key. */
  lemma CumplirEntrega(tabla: TablaEtapa, idPedido: Value)
    requires EtapaValida(tabla)
    ensures var r := Cumplir(tabla, idPedido);
            && EtapaValida(r)
            && r[idPedido]["status"] == Str("cumplido")
  {
    FijarAtributoEfecto(tabla, idPedido, "status", Str("cumplido"));
    FijarAtributoPreservaValidez(tabla, idPedido, "status", Str("cumplido"));
  }

  /** Writing a record that carries `id_pedido` under that key keeps the
      stage table's key attributes in place (`put_item`). */
  lemma PonerRegistroPreservaValidez(tabla: TablaEtapa, idPedido: Value, registro: Fields)
    requires EtapaValida(tabla) && Get(registro, "id_pedido") == Some(idPedido)
    ensures EtapaValida(tabla[idPedido := registro])
  {
  }

  /** The order the guard accepts carries the identifiers read from the event. */
  lemma GuardiaDevuelveClave(event: Fields, esperado: string, pedidos: TablaPedidos)
    requires PedidosValidos(pedidos)
    requires ValidarPedidoYEstado(event, esperado, pedidos).Aceptado?
    ensures var p := ValidarPedidoYEstado(event, esperado, pedidos).pedido;
            && "tenant_id" in p && p["tenant_id"] == TenantId(event).value
            && "id" in p && p["id"] == IdPedido(event).value
  {
    var clave := (TenantId(event).value, IdPedido(event).value);
    assert Get(pedidos[clave], "tenant_id") == Some(clave.0);
  }

  /** A guard accepts an order in one state only. */
  lemma GuardiaAceptaUnSoloEstado(event: Fields, pedidos: TablaPedidos, a: string, b: string)
    requires ValidarPedidoYEstado(event, a, pedidos).Aceptado?
    requires ValidarPedidoYEstado(event, b, pedidos).Aceptado?
    ensures a == b
  {
  }

  /** `id_pedido` takes precedence: when it is truthy, the `id` field does
      not influence the guard. */
  lemma IdPedidoPrecedeAId(event: Fields, esperado: string, pedidos: TablaPedidos, id: Value)
    requires Present(Get(event, "id_pedido"))
    ensures ValidarPedidoYEstado(event["id" := id], esperado, pedidos) == ValidarPedidoYEstado(event, esperado, pedidos)
  {
    assert TenantId(event["id" := id]) == TenantId(event);
    assert IdPedido(event["id" := id]) == IdPedido(event);
  }

  /** Once an order has been moved from `desde` to another state, the same
      guard rejects it with 400 naming the new state. */
  lemma TransicionNoRepetible(event: Fields, pedidos: TablaPedidos, desde: string, hacia: string)
    requires PedidosValidos(pedidos)
    requires ValidarPedidoYEstado(event, desde, pedidos).Aceptado?
    requires desde != hacia
    ensures var p := ValidarPedidoYEstado(event, desde, pedidos).pedido;
            ValidarPedidoYEstado(event, desde, ConEstado(pedidos, p["tenant_id"], p["id"], hacia))
              == Rechazado(Respuesta(400, EstadoInesperado(Some(Str(hacia)), desde)))
  {
    var clave := (TenantId(event).value, IdPedido(event).value);
    var p := ValidarPedidoYEstado(event, desde, pedidos).pedido;
    assert Get(p, "tenant_id") == Some(clave.0) && Get(p, "id") == Some(clave.1);
    var despues := ConEstado(pedidos, clave.0, clave.1, hacia);
    assert despues[clave] != map[] by {
      assert "estado_pedido" in despues[clave];
    }
  }

  /** Moving an order from `e` to its successor enables exactly the next
      handler's guard. */
  lemma TransicionHabilitaSiguiente(event: Fields, pedidos: TablaPedidos, e: Estado)
    requires PedidosValidos(pedidos)
    requires ValidarPedidoYEstado(event, e.Nombre(), pedidos).Aceptado?
    requires e.Siguiente().Some?
    ensures var p := ValidarPedidoYEstado(event, e.Nombre(), pedidos).pedido;
            var despues := ConEstado(pedidos, p["tenant_id"], p["id"], e.Siguiente().value.Nombre());
            && PedidosValidos(despues)
            && (forall s: Estado :: ValidarPedidoYEstado(event, s.Nombre(), despues).Aceptado? <==> s == e.Siguiente().value)
  {
    var clave := (TenantId(event).value, IdPedido(event).value);
    var n := e.Siguiente().value;
    var despues := ConEstado(pedidos, clave.0, clave.1, n.Nombre());
    ConEstadoPreservaValidez(pedidos, clave.0, clave.1, n.Nombre());
    forall s: Estado
      ensures ValidarPedidoYEstado(event, s.Nombre(), despues).Aceptado? <==> s == n
    {
      NombreInyectivo(s, n);
    }
  }

  /** No handler accepts an order that has been delivered: every state that
      has a handler differs from "entregado". */
  lemma EntregadoEsTerminal(event: Fields, pedidos: TablaPedidos, e: Estado)
    requires ValidarPedidoYEstado(event, Entregado.Nombre(), pedidos).Aceptado?
    requires e.Siguiente().Some?
    ensures ValidarPedidoYEstado(event, e.Nombre(), pedidos)
              == Rechazado(Respuesta(400, EstadoInesperado(Some(Str("entregado")), e.Nombre())))
  {
    NombreInyectivo(e, Entregado);
  }
}
