/** The four transition handlers and `actualizar_estado_pedido`, as methods
    of an object holding the four tables they read and write. */
module Transiciones {
  import opened Valores
  import opened Normalizacion
  import opened Pedidos

  /** The PEDIDOS, COCINA, DESPACHADOR and DELIVERY tables. */
  class Tablas {
    var pedidos: TablaPedidos
    var cocina: TablaEtapa
    var despachador: TablaEtapa
    var delivery: TablaEtapa

    /** Every item carries its own key attributes. */
    ghost predicate Valid()
      reads this
    {
      PedidosValidos(pedidos) && EtapaValida(cocina) && EtapaValida(despachador) && EtapaValida(delivery)
    }

    constructor (pedidos: TablaPedidos, cocina: TablaEtapa, despachador: TablaEtapa, delivery: TablaEtapa)
      requires PedidosValidos(pedidos) && EtapaValida(cocina) && EtapaValida(despachador) && EtapaValida(delivery)
      ensures Valid()
      ensures this.pedidos == pedidos && this.cocina == cocina
      ensures this.despachador == despachador && this.delivery == delivery
    {
      this.pedidos := pedidos;
      this.cocina := cocina;
      this.despachador := despachador;
      this.delivery := delivery;
    }

    /** `actualizar_estado_pedido`: set `estado_pedido` on the order under
        (tenant_id, id), creating it when absent; no other table changes. */
    method ActualizarEstadoPedido(tenantId: Value, idPedido: Value, nuevo: string)
      requires Valid()
      modifies this
      ensures Valid()
      ensures pedidos == ConEstado(old(pedidos), tenantId, idPedido, nuevo)
      ensures cocina == old(cocina) && despachador == old(despachador) && delivery == old(delivery)
    {
      ConEstadoPreservaValidez(pedidos, tenantId, idPedido, nuevo);
      var clave := (tenantId, idPedido);
      var item := if clave in pedidos then pedidos[clave] else map["tenant_id" := tenantId, "id" := idPedido];
      pedidos := pedidos[clave := item["estado_pedido" := Str(nuevo)]];
    }

    /** `pagado_a_cocina`: on an order in "pagado", open its COCINA record
        and move it to "cocina". */
    method PagadoACocina(event: Fields, json: Json, ahora: string) returns (resp: Respuesta)
      requires Valid()
      modifies this
      ensures Valid()
      ensures var ev := Normalize(event, json);
              var g := ValidarPedidoYEstado(ev, Pagado.Nombre(), old(pedidos));
              g.Rechazado? ==> resp == g.error && unchanged(this)
      ensures var ev := Normalize(event, json);
              var g := ValidarPedidoYEstado(ev, Pagado.Nombre(), old(pedidos));
              g.Aceptado? ==>
                var tenantId, idPedido := TenantId(ev).value, IdPedido(ev).value;
                && resp == Respuesta(200, TransicionRealizada(Pagado.Nombre(), Pagado.Siguiente().value.Nombre(), tenantId, idPedido))
                && pedidos == ConEstado(old(pedidos), tenantId, idPedido, Pagado.Siguiente().value.Nombre())
                && Get(pedidos[(tenantId, idPedido)], "estado_pedido") == Some(Str(Pagado.Siguiente().value.Nombre()))
                && cocina == old(cocina)[idPedido := RegistroEtapa(idPedido, Get(ev, "id_empleado"), ahora)]
                && despachador == old(despachador) && delivery == old(delivery)
    {
      NombresDeEtapa();
      var ev := ParseEvent(event, json);
      var guardia := ValidarPedidoYEstado(ev, "pagado", pedidos);
      if guardia.Rechazado? {
        return guardia.error;
      }
      GuardiaDevuelveClave(ev, "pagado", pedidos);
      var tenantId := guardia.pedido["tenant_id"];
      var idPedido := guardia.pedido["id"];
      var registro := RegistroEtapa(idPedido, Get(ev, "id_empleado"), ahora);
      PonerRegistroPreservaValidez(cocina, idPedido, registro);
      cocina := cocina[idPedido := registro];
      ActualizarEstadoPedido(tenantId, idPedido, "cocina");
      resp := Respuesta(200, TransicionRealizada("pagado", "cocina", tenantId, idPedido));
    }

    /** `cocina_a_empaquetamiento`: on an order in "cocina", close its COCINA
        record, open its DESPACHADOR record and move it to "empaquetamiento".
        The two timestamps come from two separate clock reads. */
    method CocinaAEmpaquetamiento(event: Fields, json: Json, horaFin: string, horaComienzo: string)
      returns (resp: Respuesta)
      requires Valid()
      modifies this
      ensures Valid()
      ensures var ev := Normalize(event, json);
              var g := ValidarPedidoYEstado(ev, Cocina.Nombre(), old(pedidos));
              g.Rechazado? ==> resp == g.error && unchanged(this)
      ensures var ev := Normalize(event, json);
              var g := ValidarPedidoYEstado(ev, Cocina.Nombre(), old(pedidos));
              g.Aceptado? ==>
                var tenantId, idPedido := TenantId(ev).value, IdPedido(ev).value;
                && resp == Respuesta(200, TransicionRealizada(Cocina.Nombre(), Cocina.Siguiente().value.Nombre(), tenantId, idPedido))
                && pedidos == ConEstado(old(pedidos), tenantId, idPedido, Cocina.Siguiente().value.Nombre())
                && Get(pedidos[(tenantId, idPedido)], "estado_pedido") == Some(Str(Cocina.Siguiente().value.Nombre()))
                && cocina == Cerrar(old(cocina), idPedido, horaFin)
                && cocina[idPedido]["status"] == Str("terminado")
                && cocina[idPedido]["hora_fin"] == Str(horaFin)
                && despachador == old(despachador)[idPedido := RegistroEtapa(idPedido, Get(ev, "id_empleado"), horaComienzo)]
                && delivery == old(delivery)
    {
      NombresDeEtapa();
      var ev := ParseEvent(event, json);
      var guardia := ValidarPedidoYEstado(ev, "cocina", pedidos);
      if guardia.Rechazado? {
        return guardia.error;
      }
      GuardiaDevuelveClave(ev, "cocina", pedidos);
      var tenantId := guardia.pedido["tenant_id"];
      var idPedido := guardia.pedido["id"];
      CerrarTermina(cocina, idPedido, horaFin);
      cocina := Cerrar(cocina, idPedido, horaFin);
      var registro := RegistroEtapa(idPedido, Get(ev, "id_empleado"), horaComienzo);
      PonerRegistroPreservaValidez(despachador, idPedido, registro);
      despachador := despachador[idPedido := registro];
      ActualizarEstadoPedido(tenantId, idPedido, "empaquetamiento");
      resp := Respuesta(200, TransicionRealizada("cocina", "empaquetamiento", tenantId, idPedido));
    }

    /** `empaquetamiento_a_delivery`: on an order in "empaquetamiento", close
        its DESPACHADOR record, open its DELIVERY record and move it to
        "delivery". */
    method EmpaquetamientoADelivery(event: Fields, json: Json, horaFin: string) returns (resp: Respuesta)
      requires Valid()
      modifies this
      ensures Valid()
      ensures var ev := Normalize(event, json);
              var g := ValidarPedidoYEstado(ev, Empaquetamiento.Nombre(), old(pedidos));
              g.Rechazado? ==> resp == g.error && unchanged(this)
      ensures var ev := Normalize(event, json);
              var g := ValidarPedidoYEstado(ev, Empaquetamiento.Nombre(), old(pedidos));
              g.Aceptado? ==>
                var tenantId, idPedido := TenantId(ev).value, IdPedido(ev).value;
                && resp == Respuesta(200, TransicionRealizada(Empaquetamiento.Nombre(), Empaquetamiento.Siguiente().value.Nombre(), tenantId, idPedido))
                && pedidos == ConEstado(old(pedidos), tenantId, idPedido, Empaquetamiento.Siguiente().value.Nombre())
                && Get(pedidos[(tenantId, idPedido)], "estado_pedido") == Some(Str(Empaquetamiento.Siguiente().value.Nombre()))
                && cocina == old(cocina)
                && despachador == Cerrar(old(despachador), idPedido, horaFin)
                && despachador[idPedido]["status"] == Str("terminado")
                && despachador[idPedido]["hora_fin"] == Str(horaFin)
                && delivery == old(delivery)[idPedido := RegistroDelivery(idPedido, tenantId, ev)]
    {
      NombresDeEtapa();
      var ev := ParseEvent(event, json);
      var guardia := ValidarPedidoYEstado(ev, "empaquetamiento", pedidos);
      if guardia.Rechazado? {
        return guardia.error;
      }
      GuardiaDevuelveClave(ev, "empaquetamiento", pedidos);
      var tenantId := guardia.pedido["tenant_id"];
      var idPedido := guardia.pedido["id"];
      CerrarTermina(despachador, idPedido, horaFin);
      despachador := Cerrar(despachador, idPedido, horaFin);
      var registro := RegistroDelivery(idPedido, tenantId, ev);
      PonerRegistroPreservaValidez(delivery, idPedido, registro);
      delivery := delivery[idPedido := registro];
      ActualizarEstadoPedido(tenantId, idPedido, "delivery");
      resp := Respuesta(200, TransicionRealizada("empaquetamiento", "delivery", tenantId, idPedido));
    }

    /** `delivery_a_entregado`: on an order in "delivery", mark its DELIVERY
        record "cumplido" and move it to "entregado". */
    method DeliveryAEntregado(event: Fields, json: Json) returns (resp: Respuesta)
      requires Valid()
      modifies this
      ensures Valid()
      ensures var ev := Normalize(event, json);
              var g := ValidarPedidoYEstado(ev, Delivery.Nombre(), old(pedidos));
              g.Rechazado? ==> resp == g.error && unchanged(this)
      ensures var ev := Normalize(event, json);
              var g := ValidarPedidoYEstado(ev, Delivery.Nombre(), old(pedidos));
              g.Aceptado? ==>
                var tenantId, idPedido := TenantId(ev).value, IdPedido(ev).value;
                && resp == Respuesta(200, TransicionRealizada(Delivery.Nombre(), Delivery.Siguiente().value.Nombre(), tenantId, idPedido))
                && pedidos == ConEstado(old(pedidos), tenantId, idPedido, Delivery.Siguiente().value.Nombre())
                && Get(pedidos[(tenantId, idPedido)], "estado_pedido") == Some(Str(Delivery.Siguiente().value.Nombre()))
                && cocina == old(cocina) && despachador == old(despachador)
                && delivery == Cumplir(old(delivery), idPedido)
                && delivery[idPedido]["status"] == Str("cumplido")
    {
      NombresDeEtapa();
      var ev := ParseEvent(event, json);
      var guardia := ValidarPedidoYEstado(ev, "delivery", pedidos);
      if guardia.Rechazado? {
        return guardia.error;
      }
      GuardiaDevuelveClave(ev, "delivery", pedidos);
      var tenantId := guardia.pedido["tenant_id"];
      var idPedido := guardia.pedido["id"];
      CumplirEntrega(delivery, idPedido);
      delivery := Cumplir(delivery, idPedido);
      ActualizarEstadoPedido(tenantId, idPedido, "entregado");
      resp := Respuesta(200, TransicionRealizada("delivery", "entregado", tenantId, idPedido));
    }
  }
}
