# Order state machine of the restaurant back end

This project models `estado_pedidos.py`. The file holds four AWS Lambda handlers that move a
restaurant order through its fixed pipeline:

`pagado` → `cocina` → `empaquetamiento` → `delivery` → `entregado`.

Each step also writes a record to the table of the stage it starts or finishes:

- **COCINA**: the kitchen.
- **DESPACHADOR**: packaging.
- **DELIVERY**: the courier.

Every handler runs the same sequence:

1. It normalises the incoming event with `parse_event`. The event is either an API-gateway
   request with a JSON `body` and `pathParameters`, or an already flat payload.
2. It checks the order with `validar_pedido_y_estado`. This returns 400 when an identifier is
   missing, 404 when there is no such order, and 400 when the order is in another state.
3. Only then does it write: the stage records first, and last the order's `estado_pedido`,
   through `actualizar_estado_pedido`.

The model has five modules:

- `Valores` (`valores.dfy`): decoded JSON values and the Python semantics the handlers rely on:
  `dict.get`, truthiness, and `a or b`.
- `Normalizacion` (`normalizacion.dfy`): `parse_event`.
  - The normalised event is specified as a function, `Normalize`.
  - The source's `setdefault` loop is a method proved against that function, `ParseEvent`.
  - The JSON decoder is a parameter. It returns `None` where `json.loads` raises.
- `Pedidos` (`pedidos.dfy`): the pure side of the model.
  - The states and their order.
  - The four tables as maps.
  - The guard, as the function `ValidarPedidoYEstado`.
  - The effect of each DynamoDB write, as functions over the tables.
  - The properties of all of these.
- `Transiciones` (`transiciones.dfy`): the class `Tablas`.
  - It holds the four tables as fields.
  - Its methods are `actualizar_estado_pedido` and the four handlers, and each one modifies
    the object.
  - Every method keeps the store invariant `Valid()`: each stored item carries its own key
    attributes.
  - Every method states its whole new state in terms of the functions of `Pedidos`.
- `Escenarios` (`escenarios.dfy`): verified client calls of the handlers on concrete one-order
  stores.
  They show what a caller can conclude from the handlers' contracts alone.

About the tables:

- PEDIDOS is keyed by the pair (`tenant_id`, `id`).
- The three stage tables are keyed by `id_pedido`.
- `update_item` is an upsert. On a missing key it creates an item holding the key and the
  attributes it sets. The model does the same: `ConEstado`, `FijarAtributo`, `Cerrar`,
  `Cumplir`.
- `put_item` replaces the whole item.

Timestamps come from the clock in the source. Here they are parameters of the handlers.
`cocina_a_empaquetamiento` reads the clock twice, once for the end time and once for the start
time, so its model takes two timestamps.

## Model

| member | source | states |
|---|---|---|
| Valores.Or | estado_pedidos.py:70 | Python `a or b`: a truthy left operand is the result, otherwise the right operand is; so the result is truthy exactly when one of the operands is |
| Valores.OrDefault | estado_pedidos.py:137 | `x or "default"`: a truthy value is kept, a missing or falsy one gives `Str(default)`; with a non-empty default the field is never falsy |
| Normalizacion.ParseEvent | estado_pedidos.py:25-51 | the `setdefault` loop's result equals `Normalize`; its keys are the body's plus the path's; body values are kept on a shared key; path values fill only missing keys; without a string body the event is returned unchanged |
| Normalizacion.UnparseableBody | estado_pedidos.py:34-45 | a body that does not decode leaves exactly the path parameters, and the empty object when there is no object `pathParameters` |
| Normalizacion.NoStringBody | estado_pedidos.py:33-51 | an event without a string `body` passes through unchanged |
| Normalizacion.BodyWins | estado_pedidos.py:43-45 | on a key present in both, the body's value wins over the path parameter |
| Pedidos.Estado.Siguiente | estado_pedidos.py:115-336 | each state but `entregado` has exactly one successor, the next in pipeline order; `entregado` has none |
| Pedidos.NombreInyectivo | estado_pedidos.py:92 | distinct states are stored under distinct strings |
| Pedidos.ObtenerPedido | estado_pedidos.py:54-61 | `get_item` yields an item exactly when the key is stored, and that item; on a valid store it carries the requested `tenant_id` and `id` |
| Pedidos.ValidarPedidoYEstado | estado_pedidos.py:64-101 | 400 "missing identifiers" exactly when `tenant_id` or `id_pedido or id` is falsy; 404 exactly when both are present and no non-empty order is stored under them; accepted exactly when the stored order's `estado_pedido` is the expected one, and then the result is that order; every rejection is 400 or 404; the 404 echoes the event's `tenant_id` and `id_pedido`; the wrong-state 400 names the stored state and the expected one |
| Pedidos.NombresDeEtapa | estado_pedidos.py:127-145 | each handler's expected state and written state are the names of an `Estado` and of its `Siguiente()`: "pagado"/"cocina" here, and likewise at lines 172/203, 236/273 and 305/321 |
| Pedidos.ConEstado | estado_pedidos.py:104-112 | the upsert of `estado_pedido`: it adds the key if absent, sets the new state, keeps every other order and every other attribute of this one; an absent order becomes an item with only its key and state |
| Pedidos.RegistroEtapa | estado_pedidos.py:135-141 | the COCINA record, built again with the same fields for DESPACHADOR at lines 192-198: exactly five fields, a missing or falsy employee becomes "no_asignado", `hora_fin` null, status "cocinando" |
| Pedidos.RegistroDelivery | estado_pedidos.py:260-268 | the DELIVERY record: exactly seven fields; each of driver, driver id, origin and destination is the event's value when truthy, else "no_asignado"/"no_definido"; status "en camino" |
| Pedidos.ConEstadoPreservaValidez | estado_pedidos.py:104-112 | the state upsert keeps every order's key attributes in place |
| Pedidos.FijarAtributoEfecto | estado_pedidos.py:313-318 | `update_item ... SET` touches one record, writes the attribute, keeps the record's other attributes, and creates the record with its key when absent |
| Pedidos.FijarAtributoPreservaValidez | estado_pedidos.py:313-318 | setting a non-key attribute keeps every stage record's key in place |
| Pedidos.CerrarTermina | estado_pedidos.py:181-189 | a closed record, COCINA here and DESPACHADOR at lines 249-257, is "terminado" with the given `hora_fin`, and the table keeps its key invariant |
| Pedidos.CerrarEfecto | estado_pedidos.py:181-189 | the closing upsert (also lines 249-257) touches one record, sets `hora_fin` and status "terminado", keeps the record's other attributes and every other record, and creates a record holding exactly `id_pedido`, `hora_fin` and `status` when none is stored |
| Pedidos.CumplirEntrega | estado_pedidos.py:313-318 | the delivery record becomes "cumplido", and the table keeps its key invariant |
| Pedidos.PonerRegistroPreservaValidez | estado_pedidos.py:143 | `put_item` (also lines 200 and 270) of a record carrying its `id_pedido` keeps the table's key invariant |
| Pedidos.GuardiaDevuelveClave | estado_pedidos.py:131-132 | the accepted order's `tenant_id` and `id`, which every handler writes under (also lines 176-177, 240-241, 309-310), are the identifiers read from the event |
| Pedidos.GuardiaAceptaUnSoloEstado | estado_pedidos.py:91-92 | one order passes the guard for one expected state only |
| Pedidos.IdPedidoPrecedeAId | estado_pedidos.py:70 | when `id_pedido` is truthy, the `id` field has no influence on the guard's verdict |
| Pedidos.TransicionNoRepetible | estado_pedidos.py:91-112 | after an order has been moved out of `desde`, the same guard rejects it with 400 naming the new state |
| Pedidos.TransicionHabilitaSiguiente | estado_pedidos.py:91-112 | moving an order to its successor makes exactly the next handler's guard accept it, and keeps the store valid |
| Pedidos.EntregadoEsTerminal | estado_pedidos.py:91-99 | no handler accepts a delivered order: each rejects it with 400 naming "entregado" |
| Transiciones.Tablas.constructor | estado_pedidos.py:13-16 | the object holds the four given tables, and establishes the key invariant `Valid()` when every given table already keeps it |
| Transiciones.Tablas.ActualizarEstadoPedido | estado_pedidos.py:104-112 | PEDIDOS becomes `ConEstado` of its old value; the other tables are unchanged; the invariant is kept |
| Transiciones.Tablas.PagadoACocina | estado_pedidos.py:117-157 | the guard expects `Pagado.Nombre()` and the order moves to `Pagado.Siguiente()`; on rejection, the guard's response and no write at all; otherwise 200, the order is "cocina", COCINA gains the opened record under the order's id, and the other stage tables are unchanged |
| Transiciones.Tablas.CocinaAEmpaquetamiento | estado_pedidos.py:162-221 | the guard expects `Cocina.Nombre()` and the order moves to `Cocina.Siguiente()`; on rejection, the guard's response and no write; otherwise 200, the order is "empaquetamiento", the COCINA record is closed ("terminado", end time), DESPACHADOR gains the opened record, and DELIVERY is unchanged |
| Transiciones.Tablas.EmpaquetamientoADelivery | estado_pedidos.py:226-291 | the guard expects `Empaquetamiento.Nombre()` and the order moves to `Empaquetamiento.Siguiente()`; on rejection, the guard's response and no write; otherwise 200, the order is "delivery", the DESPACHADOR record is closed, DELIVERY gains the delivery record, and COCINA is unchanged |
| Transiciones.Tablas.DeliveryAEntregado | estado_pedidos.py:296-336 | the guard expects `Delivery.Nombre()` and the order moves to `Delivery.Siguiente()`; on rejection, the guard's response and no write; otherwise 200, the order is "entregado", the DELIVERY record is "cumplido", and COCINA and DESPACHADOR are unchanged |
| Escenarios.AvanceACocina | estado_pedidos.py:117-157 | a paid order with employee "e1" gets a COCINA record "cocinando" for "e1" with no end time, and ends in "cocina" |
| Escenarios.RegistroCocina | estado_pedidos.py:135-141 | the concrete kitchen record's fields |
| Escenarios.ReintentoRechazado | estado_pedidos.py:117-157 | a second `pagado_a_cocina` on the same order, addressed by `id`, is refused with 400 naming "cocina" |
| Escenarios.AvanceAEmpaquetamiento | estado_pedidos.py:162-221 | the kitchen record is closed at the first clock read and the packaging record opens at the second |
| Escenarios.RelevoDeEtapa | estado_pedidos.py:181-198 | the closed COCINA record and the opened DESPACHADOR record, on a store with no earlier records |
| Escenarios.AvanceADelivery | estado_pedidos.py:243-270 | an empty driver string and missing places give the delivery record its defaults |
| Escenarios.EntregaPorDefecto | estado_pedidos.py:260-268 | the concrete defaulted delivery record's fields |
| Escenarios.AvanceAEntregado | estado_pedidos.py:296-336 | the order ends "entregado", its delivery record is "cumplido", and a second call is refused with 400 |
| Escenarios.EntregaCumplida | estado_pedidos.py:313-318 | a record created by the "cumplido" upsert holds its key and that status |
| Escenarios.CuerpoGanaSobreRuta | estado_pedidos.py:33-47 | a body naming the order wins over a path parameter with another value |
| Escenarios.CuerpoInvalido | estado_pedidos.py:34-78 | a body that does not decode falls back to the path parameters; missing the tenant, the request is refused with 400 and all four tables equal their values before the call |
| Escenarios.PedidoInexistente | estado_pedidos.py:80-89 | an unknown order is answered 404 with its identifiers, and all four tables equal their values before the call |

## Left out

- The boto3 resource, the table handles, and the table names read from environment variables
  (lines 6-16). The four tables are the fields of `Tablas`.
- JSON text parsing, which is the decoder parameter `Json`.
- The `json.dumps` of the response bodies. A response is its status code plus a `Mensaje` that
  names the message and the identifiers it echoes. These are left out of it:
  - the message wording;
  - the stage records that the 200 bodies repeat.
- A body that decodes to something other than an object. When `pathParameters` is a non-empty
  object, `setdefault` raises on it (line 45). Otherwise the loop does not run, `parse_event`
  returns the non-object (line 47), and the handler raises at `event.get` (line 69). Either way
  the Lambda crashes; the decoder returns objects only.
- Floating-point JSON numbers. Numbers are integers in this model.
- `obtener_timestamp_iso` (line 21). Timestamps are opaque string parameters.
- The Lambda `context` argument, which no handler reads.
- Concurrency. Between the guard's read and the writes, another invocation may change the order.
  The model treats each handler call as atomic.
- Failures of the DynamoDB calls themselves: throttling, a missing table, and a rejected key type.
  In particular, a key attribute of a type the table schema does not allow would make
  `get_item` raise. The model accepts any value as a key.
- The Step Functions and API-gateway wiring that invokes the handlers.
