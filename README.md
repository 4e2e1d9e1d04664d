# Datalogger inventory: a verified model

This project models the logic of a small inventory tracker for dataloggers
(field measurement devices). The tracker lends devices to client demands.
It keeps four kinds of record:

- **Datalogger**: a device with a unique serial number and a status
  (`Estoque`, `Alocado`, `Calibração`, `Manutenção`).
- **Cliente**: a client.
- **Demanda**: a client's job (`Ativa`, `Finalizada`, `Cancelada`).
- **Alocacao**: a device lent to a demand (`Em campo`, `Retornado`).

The routes move these records through a status state machine:

- allocating takes a device out of stock;
- registering a return brings it back, to stock or to calibration;
- finalising a demand returns all of its allocations at once;
- deletes are refused while a dependent record is still active;
- serial numbers stay unique.

The dashboard reads the store and computes:

- a stock summary;
- an availability projection;
- prioritised alerts;
- an occupancy history;
- the occupancy per client.

## Layout

- `common.dfy`: shared values.
  - `Option` and `Patch`. A `Patch` is one field of an update body, either absent or set.
  - Day numbers for dates.
  - The route errors and their HTTP status codes.
- `seqs.dfy`: list filtering, mapping, and a stable sort by an integer key, with their lemmas.
- `tables.dfy`: a table of rows by autoincrement id.
  - Listing without `ORDER BY` returns rows in ascending id order.
  - Counting and insert/put/delete.
- `datalogger_model.dfy`, `cliente_model.dfy`, `demanda_model.dfy`, `alocacao_model.dfy`:
  - the records and status constants;
  - `to_dict` as a response record with nullable fields.
- `database.dfy`: the store.
  - `Db`, an immutable snapshot of the four tables.
  - `Store`, a class whose four table fields the route methods update in place.
  - Invariants:
    - `Valid`: keys below the autoincrement counter, unique serials, in-field allocations that point to an existing device and demand, and allocation statuses that are `Em campo` or `Retornado`.
    - `Coherent`: every in-field device is `Alocado`, and no device is in the field twice.
- `datalogger_routes.dfy`, `cliente_routes.dfy`, `demanda_routes.dfy`, `alocacao_routes.dfy`:
  - Each state-changing route is a method on `Store`. It returns `Result<Id>`.
  - Its contract gives every error case, and the whole new state in each case.
  - Listing routes are functions of a `Db` snapshot.
- `dashboard.dfy`: the five dashboard routes.
  - The loops of the source are methods, proved against specification functions.
  - Lemmas state what those functions promise.

Every state-changing route preserves `Valid`. Every route preserves `Coherent`, except a device update that sets the status directly, which the source allows without any check.

## Model

| member | source | states |
|---|---|---|
| DataloggerModel.DataloggerToDict | datalogger-system/src/models/datalogger.py:25-37 | the response carries the id, serial, model, status and notes of the record; each calendar date is null exactly when the record's date is unset, and otherwise holds that date |
| DemandaModel.DemandaToDict | src/models/demanda.py:25-38 | the id, client id, description, status and notes are the record's; the client name is null exactly when the client row is missing, and is otherwise that client's name; the actual end date is null exactly when unset; the start and expected end dates are always present |
| AlocacaoModel.AlocacaoToDict | src/models/alocacao.py:22-37 | the id, device id, demand id, status and notes are the record's; serial, demand description and client name are each null exactly when the related device, demand, or demand and client are missing, and otherwise hold that row's serial, description or name; the actual return date is null exactly when unset |
| Common.Error.HttpStatusAsWritten | src/routes/datalogger.py:56-61 | as written, a `get_or_404` miss inside the route's `try` and a commit the database refuses are both answered 500, a route's own lookup miss 404, and a refused rule 400 |
| Common.Error.HttpStatus | src/routes/datalogger.py:56-61 | as intended, the status is 404 exactly for the not-found errors, 500 exactly for a refused commit, and 400 exactly for the refused requests |
| Common.Abort404AnswersInternalError | src/routes/alocacao.py:71-77 | a `get_or_404` miss is answered 500 as written and 404 as intended; the two differ |
| Common.NotFoundAnswersAgree | datalogger-system/src/routes/demanda.py:33-35 | as intended, both kinds of not-found error are answered 404, and a route's own lookup miss already is |
| DataloggerRoutes.CreateDatalogger | src/routes/datalogger.py:23-50 | a serial already held by a device is refused with nothing changed; otherwise exactly one device is added under the next id, with status defaulting to `Estoque` and dates unset unless given; nothing else changes, and both invariants are kept |
| DataloggerRoutes.UpdateDatalogger | src/routes/datalogger.py:64-91 | a missing id aborts; a new serial that differs from the device's own and is held by another device is refused with nothing changed; otherwise only the fields present are assigned (dates only when non-empty); validity is kept, and coherence too when the status is not patched, is set to `Alocado`, or the device is not in the field |
| DataloggerRoutes.AlocacoesAtivasDoDatalogger | src/routes/datalogger.py:103 | the count of the device's in-field allocations is positive exactly when the device is in the field |
| DataloggerRoutes.AlocacoesDoDatalogger | datalogger-system/src/models/datalogger.py:20 | the allocations the session loads for a device are exactly those referring to it, in field or returned; there are some exactly when some allocation refers to the device |
| DataloggerRoutes.DeleteDatalogger | src/routes/datalogger.py:97-113 | as written: a missing id aborts; a device with an in-field allocation is refused with nothing changed; a device that some returned allocation still refers to fails its commit (500) with nothing changed; only a device no allocation refers to is removed |
| DataloggerRoutes.DeleteDataloggerPretendido | src/routes/datalogger.py:97-110 | as intended: a missing id aborts; a device with an in-field allocation is refused with nothing changed; otherwise only that device is removed, and both invariants are kept |
| DataloggerRoutes.ExclusaoComHistorico | src/routes/datalogger.py:103-113 | a valid store holds a device whose only allocation is returned: it passes the in-field guard, yet an allocation still refers to it, so the route as written answers 500 where the intended delete removes it |
| DataloggerRoutes.ExclusaoPreserva | src/routes/datalogger.py:103-108 | removing a device with no allocation in the field keeps the store valid, and coherent when it was |
| DataloggerRoutes.ListDataloggers | src/routes/datalogger.py:9-18 | exactly the devices matching the status filter, or all devices without it, in ascending id order |
| DataloggerRoutes.Disponiveis | src/routes/datalogger.py:116-119 | exactly the devices whose status is `Estoque` |
| DataloggerRoutes.CalibracaoVencida | src/routes/datalogger.py:124-131 | exactly the devices with a next calibration date that is not after today; a device without that date is never listed |
| ClienteRoutes.CreateCliente | src/routes/cliente.py:17-32 | exactly one client is added under the next id, with the name and the optional contact fields; nothing else changes |
| ClienteRoutes.UpdateCliente | src/routes/cliente.py:46-59 | a missing id aborts; otherwise only the five contact fields present in the body are assigned |
| ClienteRoutes.DemandasAtivasDoCliente | src/routes/cliente.py:71 | the count of the client's `Ativa` demands is positive exactly when the client has an active demand |
| ClienteRoutes.DeleteCliente | src/routes/cliente.py:65-78 | a missing id aborts; a client with an `Ativa` demand is refused with nothing changed; otherwise only that client is removed |
| ClienteRoutes.DemandasDoCliente | src/routes/cliente.py:84-89 | a missing client aborts; otherwise exactly the demands whose client is that id |
| DemandaRoutes.ListDemandas | datalogger-system/src/routes/demanda.py:10-23 | exactly the demands matching every filter supplied (status, client) |
| DemandaRoutes.AlocacoesDaDemanda | datalogger-system/src/routes/demanda.py:151-156 | a missing demand aborts; otherwise exactly the allocations of that demand |
| DemandaRoutes.CreateDemanda | datalogger-system/src/routes/demanda.py:28-52 | a missing client is not found and nothing changes; otherwise one demand is added, with status defaulting to `Ativa` and the actual end date only when given |
| DemandaRoutes.UpdateDemanda | datalogger-system/src/routes/demanda.py:66-93 | a missing demand aborts; a `cliente_id` in the body that names no client is not found and nothing changes; otherwise only the fields present are assigned (dates only when non-empty) |
| DemandaRoutes.AlocacoesEmCampoDaDemanda | datalogger-system/src/routes/demanda.py:105 | exactly the demand's in-field allocations, ascending; there are some exactly when the demand has one in the field |
| DemandaRoutes.AlocacoesDaDemandaCarregadas | src/models/demanda.py:20 | the allocations the session loads for a demand are exactly those referring to it, in field or returned; there are some exactly when some allocation refers to the demand |
| DemandaRoutes.DeleteDemanda | datalogger-system/src/routes/demanda.py:99-115 | as written: a missing demand aborts; a demand with an in-field allocation is refused with nothing changed; a demand that some returned allocation still refers to fails its commit (500) with nothing changed; only a demand no allocation refers to is removed |
| DemandaRoutes.DeleteDemandaPretendida | datalogger-system/src/routes/demanda.py:99-112 | as intended: a missing demand aborts; a demand with an in-field allocation is refused with nothing changed; otherwise only that demand is removed, and both invariants are kept |
| DemandaRoutes.ExclusaoComHistorico | datalogger-system/src/routes/demanda.py:105-115 | a valid store holds a finished demand whose only allocation is returned: it passes the in-field guard, yet an allocation still refers to it, so the route as written answers 500 where the intended delete removes it |
| DemandaRoutes.ExclusaoPreserva | datalogger-system/src/routes/demanda.py:104-109 | removing a demand with no allocation in the field keeps the store valid, and coherent when it was |
| DemandaRoutes.DevolverAlocacoes | datalogger-system/src/routes/demanda.py:131-141 | the loop returns each listed allocation with the given date, and sends the device of each to `Estoque` when the device exists; clients and demands are untouched |
| DemandaRoutes.DevolverDaDemanda | datalogger-system/src/routes/demanda.py:131-141 | looping over the demand's in-field allocations has the same effect as returning every in-field allocation of that demand at once |
| DemandaRoutes.RetornadasDaDemanda | datalogger-system/src/routes/demanda.py:131-136 | returning any list that holds exactly the demand's in-field allocations marks exactly those allocations `Retornado` on the end date |
| DemandaRoutes.ReestocadosDaDemanda | datalogger-system/src/routes/demanda.py:131-141 | for such a list, the devices put back in stock are exactly those carrying an in-field allocation of the demand |
| DemandaRoutes.FinalizarDemanda | datalogger-system/src/routes/demanda.py:118-145 | with no status guard, a missing id aborts and anything else succeeds; the demand becomes `Finalizada` with the given end date, or today when none is given; each of its in-field allocations becomes `Retornado` on that date and its device goes to `Estoque`; nothing else changes |
| DemandaRoutes.FinalizarPreservaValidade | datalogger-system/src/routes/demanda.py:123-141 | finalising keeps the store valid |
| DemandaRoutes.FinalizarPreservaCoerencia | datalogger-system/src/routes/demanda.py:131-141 | finalising keeps in-field devices `Alocado` and each device in the field at most once |
| DemandaRoutes.FinalizarContagens | datalogger-system/src/routes/demanda.py:131-135 | with N in-field allocations in the demand, exactly N more allocations are `Retornado` and exactly N fewer are in the field |
| AlocacaoRoutes.CreateAlocacao | src/routes/alocacao.py:32-66 | guards run in the source's order: device missing (404), device not `Estoque` (400), demand missing (404), demand not `Ativa` (400), each changing nothing; on success, one `Em campo` allocation with the given dates is added, that device becomes `Alocado`, and nothing else changes |
| AlocacaoRoutes.StatusAposRetorno | src/routes/alocacao.py:127-130 | a returned device gets a documented status other than `Alocado`: `Calibração` exactly when calibration was requested, `Estoque` otherwise |
| AlocacaoRoutes.RegistrarRetorno | src/routes/alocacao.py:107-135 | a missing id aborts; an allocation already `Retornado` is refused with nothing changed; otherwise it becomes `Retornado` with the given date or today, its notes change only when the new ones are non-empty, and its device, when it exists, goes to calibration or stock |
| AlocacaoRoutes.RetornoPreserva | src/routes/alocacao.py:116-131 | a return keeps the store valid and coherent |
| AlocacaoRoutes.UpdateAlocacao | src/routes/alocacao.py:80-101 | a missing id aborts; otherwise status, device and demand never change, the notes change when present, and each date changes only when given non-empty |
| AlocacaoRoutes.DeleteAlocacao | src/routes/alocacao.py:141-155 | a missing id aborts; otherwise only that allocation is removed, and its device returns to `Estoque` exactly when the allocation was in the field and the device exists |
| AlocacaoRoutes.ListAlocacoes | src/routes/alocacao.py:11-27 | exactly the allocations matching every filter supplied (status, demand, device) |
| AlocacaoRoutes.AlocacoesEmCampo | src/routes/alocacao.py:161-164 | exactly the `Em campo` allocations |
| AlocacaoRoutes.RetornosPrevistos | src/routes/alocacao.py:169-182 | exactly the `Em campo` allocations whose expected return lies within the bounds supplied; as many as the count of such rows; ordered by expected return date, with ties in id order |
| Dashboard.Percentual | src/routes/dashboard.py:55 | the rate is 0 with no devices |
| Dashboard.PercentualLimites | src/routes/dashboard.py:241 | over a non-empty total the rate times the total is the part times 100, and the rate lies within 0 to 100 when the part does not exceed the total |
| Dashboard.StatusPartition | src/routes/dashboard.py:16-20 | the four status counts add up to at most the device count, and to exactly that count when every status is a documented one |
| Dashboard.ContagemPorStatus | src/routes/dashboard.py:17-20 | counting the devices of a status counts the device listing filtered by that status |
| Dashboard.ContagemDemandasAtivas | src/routes/dashboard.py:23 | counting the `Ativa` demands counts the demand listing filtered by that status |
| Dashboard.ResumoEstoque | src/routes/dashboard.py:13-58 | the total is the number of device rows; `em_estoque`, `alocados`, `em_calibracao`, `em_manutencao`, `demandas_ativas`, `calibracoes_vencidas`, `retornos_proximos` (expected within 7 days) and `alocacoes_em_campo` are the sizes of the corresponding listings; the status counts add up to at most the total; the occupancy rate is `alocados` over the total, within 0 to 100 |
| Dashboard.RetornosDoDia | src/routes/dashboard.py:79-84 | exactly the in-field allocations expected back on the given day |
| Dashboard.RetornosAteConta | src/routes/dashboard.py:90-95 | the returns accumulated up to day i are the in-field allocations expected back between today and today + i |
| Dashboard.DisponibilidadeCresce | src/routes/dashboard.py:87-95 | the projected availability starts at the stock count and never decreases from one day to a later one |
| Dashboard.DisponibilidadeLimite | src/routes/dashboard.py:87-95 | the projected availability never exceeds the stock count plus all allocations in the field |
| Dashboard.DetalhesDoDia | src/routes/dashboard.py:70-84 | the returns grouped under a day of the horizon are exactly that day's returns, in id order |
| Dashboard.AgruparPorData | src/routes/dashboard.py:79-84 | the grouping loop puts each allocation under its expected return date and keeps the list's order within a date |
| Dashboard.DisponibilidadePasso | src/routes/dashboard.py:94-95 | each day's availability is the previous day's (the stock count on day 0) plus that day's returns |
| Dashboard.Projetados | src/routes/dashboard.py:90-102 | the first n projection days, day i being today + i with its availability, return count and returns |
| Dashboard.AcumularProjecao | src/routes/dashboard.py:87-102 | the accumulation loop produces exactly the specified projection days |
| Dashboard.ProjecaoDisponibilidade | src/routes/dashboard.py:63-108 | `dias + 1` days (none when `dias` is negative; 31 when the request has no `dias`), day i being today + i with its availability and returns; current availability is the stock count and total is the device count |
| Dashboard.OrdemPrioridade | src/routes/dashboard.py:202-203 | `alta` sorts first, then `media`, then `baixa`, then any other value |
| Dashboard.CalibracoesProximas | src/routes/dashboard.py:162-169 | exactly the devices whose next calibration falls after today and within 30 days |
| Dashboard.RetornosAtrasados | src/routes/dashboard.py:182-187 | exactly the in-field allocations expected back before today |
| Dashboard.AcrescentarAlertas | src/routes/dashboard.py:151-199 | each append loop adds one alert per listed record, in order |
| Dashboard.Alertas | src/routes/dashboard.py:140-205 | the alerts sorted by priority: ordered, a permutation of the unsorted alerts, and stable within each priority |
| Dashboard.OrdenarPorPrioridade | src/routes/dashboard.py:202-203 | sorting by priority orders the alerts, permutes them, and keeps ties in order |
| Dashboard.AlertasDeTipos | src/routes/dashboard.py:145-199 | each kind of alert comes only from its own query |
| Dashboard.PartesPorTipo | src/routes/dashboard.py:145-199 | in the concatenated list, an alert of a kind lies in the part of that kind |
| Dashboard.PartesContidas | src/routes/dashboard.py:145-199 | every part's alerts are in the concatenated list |
| Dashboard.ParteVencidasCompletas | src/routes/dashboard.py:146-159 | every device whose calibration is overdue has an alert with its date and the days since it |
| Dashboard.ParteVencidasFieis | src/routes/dashboard.py:146-159 | every overdue alert names an existing device, its date, and a non-negative day count |
| Dashboard.ParteProximasCompletas | src/routes/dashboard.py:162-179 | every device whose calibration falls due within 30 days has an alert with its date and the days left |
| Dashboard.ParteProximasFieis | src/routes/dashboard.py:162-179 | every upcoming alert names an existing device, its date, and 1 to 30 days left |
| Dashboard.AlertasVencidas | src/routes/dashboard.py:146-159 | the alert list holds an overdue-calibration alert for exactly the overdue devices, with the right days |
| Dashboard.AlertasProximas | src/routes/dashboard.py:162-179 | the alert list holds an upcoming-calibration alert for exactly the devices due within 30 days, with 1 to 30 days left |
| Dashboard.AlertasAtrasos | src/routes/dashboard.py:182-199 | the alert list holds an overdue-return alert for exactly the in-field allocations past their expected return, with their device and demand and at least one day late; in a valid store that device exists, so the serial lookup for the message cannot fail |
| Dashboard.CalibracaoUmaSoVez | src/routes/dashboard.py:146-179 | no device gets both an overdue and an upcoming calibration alert |
| Dashboard.ContarAlocados | src/routes/dashboard.py:234-239 | the inner loop counts the listed allocations out on the given day |
| Dashboard.ContagemPreFiltrada | src/routes/dashboard.py:215-239 | on a day of the period, the prefiltered allocations out that day are exactly the allocations of the whole table out that day |
| Dashboard.Historico | src/routes/dashboard.py:231-246 | the history from the start date has as many entries as days asked for |
| Dashboard.HistoricoDias | src/routes/dashboard.py:231-246 | entry i of the history is the day start + i, counting the allocations out on that day |
| Dashboard.DiaContado | src/routes/dashboard.py:232-246 | one day's entry: the allocations out that day, the device count minus them, and their rate |
| Dashboard.AcrescentarDia | src/routes/dashboard.py:231-248 | one pass of the outer loop extends the history of the first i days to the first i + 1 |
| Dashboard.HistoricoOcupacao | src/routes/dashboard.py:210-250 | the answer is the history of `dias + 1` days (none when `dias` is negative) from `dias` days ago, and of 31 days from 30 days ago when the request has no `dias`; by `Dashboard.HistoricoDias`, each entry counts allocations of any status that left by that day and had not come back before it, with `disponivel` equal to total minus that count |
| Dashboard.HistoricoContaEmCampo | src/routes/dashboard.py:236-239 | each day counts at least the in-field allocations that left by then and have no return date |
| Dashboard.ClientesOcupados | src/routes/dashboard.py:116-126 | the groups are exactly the clients with at least one in-field allocation through their demands, each once, ascending |
| Dashboard.OcupacaoPorCliente | src/routes/dashboard.py:113-135 | one entry per such client, with its name and a positive count of its in-field allocations |
| Dashboard.TotalDosGrupos | src/routes/dashboard.py:116-126 | over distinct clients, the group counts add up to the allocations of any of them, so none is counted twice |
| Dashboard.OcupacaoTotal | src/routes/dashboard.py:116-133 | the counts add up to the in-field allocations whose demand and client exist, which is at most all allocations in the field |

## Left out

- HTTP, JSON and Flask request handling.
  - A payload field that is missing or of the wrong type ends a route in its `except Exception` branch, which answers 500. The model's parameters are always well typed, so that path is not modelled.
  - A required field is a parameter. An optional one is an `Option`, or a `Patch` for update bodies.
- `except Exception` → 500 paths and session rollback.
  - A route either commits all its changes or, on an error result, none.
  - Database failures are not modelled.
- Date parsing and formatting (`strptime`, `isoformat`).
  - Dates are day numbers.
  - `date.today()` is the parameter `today`.
  - A `to_dict` date field holds the day number instead of its ISO text.
- Query-string parameters.
  - The filters arrive as `Option` values already converted: a status string, or an id for the demand, client and device filters.
  - The text-to-integer comparison that SQLite performs on those id filters is not modelled.
  - The `dias` parameter is an `Option` of an integer, defaulting to 30 when absent. Its `int()` conversion failure is the 500 path above.
- Truthiness of `enviar_calibracao` is modelled as a boolean.
- Row order of queries without `ORDER BY` is modelled as ascending primary key, as SQLite returns rows of a rowid table scan.
  - `GROUP BY` in the occupancy per client also yields ascending client id.
  - `order_by` and `list.sort` are a stable sort, ties in the order given.
- Foreign keys and the ORM's handling of them.
  - The allocation columns `datalogger_id` and `demanda_id` are `NOT NULL`, and the `alocacoes` relationships of devices and demands use the default cascade. Deleting a device or demand that any allocation refers to therefore fails at commit, whatever the database. `DataloggerRoutes.DeleteDatalogger` and `DemandaRoutes.DeleteDemanda` model that failure as the error `IntegridadeViolada`, answered 500.
  - The intended deletes of the findings below, and deleting a client, can leave records that name a missing row. `to_dict` reports the related fields of such a record as null.
- ClienteRoutes.DeleteCliente: removes the client whenever no demand of it is `Ativa`. The `Cliente` model, which declares the relationship to its demands, is not part of this model. If it declares that relationship with the default cascade, as the device and demand models do, then deleting a client with finished or cancelled demands fails at commit through `demandas.cliente_id NOT NULL` and answers 500. The model does not capture that failure.
- `created_at` / `updated_at` timestamps: they come from the clock and drive no logic.
- Alert messages and the `tipo`/`prioridade` strings.
  - The alert kind is the constructor.
  - The priority comes from the kind.
  - The message text is not modelled; its day counts are fields.
- Rounding of the occupancy rates to two decimals.
  - `Dashboard.Percentual` is the exact ratio.
  - The float division and `round` are not modelled.
- `Dashboard.ProjecaoDisponibilidade`: the `detalhes_retornos` of a day hold allocation ids, not their `to_dict` records.
- `Dashboard.Alertas`: the overdue-return message reads the device's serial through the relationship. With a dangling device id this would raise and answer 500. The model does not carry that path. `Dashboard.AlertasAtrasos` proves the device exists in every valid store.
- Single-record `GET` routes (`/dataloggers/<id>`, `/clientes/<id>`, `/demandas/<id>`, `/alocacoes/<id>`).
  - Each is a lookup followed by `to_dict`.
  - Only their not-found answer is modelled, by `Common.Error.HttpStatusAsWritten`.
- The `GET /clientes` listing returns every client and is not modelled separately.
- The `Cliente` model file is not part of this model. The record's fields are taken from the routes that build it.
- Application wiring, CORS, database selection and static files.
- Concurrent requests: the model is sequential.

## Findings

| source | as written | input that shows it | evidently intended | confidence | as-written member | corrected member |
|---|---|---|---|---|---|---|
| src/routes/datalogger.py:107 | `db.session.delete(datalogger)` makes the ORM set `datalogger_id` of every allocation of the device to null; the column is `NOT NULL`, so the commit fails, `except Exception` rolls back and answers 500, and the in-field guard before it never decides anything for a device that was ever allocated | allocate device 1, return it, then `DELETE /dataloggers/1` | a device with no allocation in field is deleted, as the guard and its message say | not executed | DataloggerRoutes.DeleteDatalogger | DataloggerRoutes.DeleteDataloggerPretendido |
| datalogger-system/src/routes/demanda.py:109 | `db.session.delete(demanda)` makes the ORM set `demanda_id` of every allocation of the demand to null; the column is `NOT NULL`, so the commit fails and the route answers 500, even after the demand is finalised | create a demand with one allocation, finalise it, then `DELETE /demandas/<id>` | a demand with no allocation in field is deleted, as the guard and its message say | not executed | DemandaRoutes.DeleteDemanda | DemandaRoutes.DeleteDemandaPretendida |
| src/routes/datalogger.py:58 | `get_or_404` raises the not-found exception inside the route's `try`, and `except Exception` catches it and answers 500 with the exception text; the same happens at every `get_or_404` call in the five route files | `GET /dataloggers/999` on a store with no device 999 | a 404 answer for a missing record, as the routes give for the lookups they check themselves | not executed | Common.Error.HttpStatusAsWritten | Common.Error.HttpStatus |
