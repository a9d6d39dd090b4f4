# Work-order manager: a verified model of its rules

The system is a small web front end for a repair shop. It keeps clients, their
equipment, technician profiles and service orders ("OS") in a hosted database.
Every screen and dialog reads and writes that database directly. This project
models the rules hidden in those screens and proves them:

- the schema's closed enumerations, their runtime `Constants` lists, and the
  foreign keys between the tables (`Schema`, `Tables`);
- the service-order list: the status/client filter, the status and payment
  badges, the status shown on the printout, the order number and the empty-list
  notice (`ServiceOrders`);
- the dashboard statistics over the ten most recent orders (`Dashboard`);
- the client screen: the per-client order count, edit prefill and update, and
  the delete guard (`Clients`);
- the equipment screen: the brand/model and serial cells, and edit prefill and
  update (`Equipments`);
- the technician screen: the admin gate, the technician list, the
  active/inactive toggle and the delete confirmation (`Technicians`);
- the creation dialogs for service orders, clients and equipment, and the
  technician edit dialog (`CreateServiceOrder`, `CreateClient`,
  `CreateEquipment`, `EditTechnician`);
- the password-reset gate (`ResetPassword`).

The hosted database is a `Tables.Store` object with one map per table, keyed by
row id. Its invariant `Valid()` says that every row sits under its own id and
every declared foreign key resolves. The store refuses an insert or update whose
reference does not resolve. It also refuses to delete a client that equipment or
orders still reference. An update or delete whose id filter matches no row
succeeds and changes nothing. The screens and dialogs are classes whose fields
are the components' state variables. Each handler is a method with a `modifies`
frame. Anything the code learns from outside is a parameter: the signed-in user,
whether a remote call fails, the id and date the database assigns, the current
month, and how the value field is parsed. Money is integer cents. A creation date
is a `(year, month)` pair.

The screens hold status and payment status as plain strings, so unknown values
are representable there and are modelled. Stored rows use the enumerations.

The service-order dialog's submit button is disabled only while saving or while
the client, the equipment or the technician is unchosen
(src/components/CreateServiceOrderModal.tsx:236). Its `disabled` expression does
not look at the problem description: `CreateServiceOrder.SubmitDisabled` follows
that expression, and `EmptyProblemDescriptionDoesNotDisable` states it.

## Model

| member | source | states |
|---|---|---|
| Schema.ParseOsStatus | src/integrations/supabase/types.ts:283 | exactly the four `os_status` spellings are read, and each reads back as the text it came from |
| Schema.ParsePaymentStatus | src/integrations/supabase/types.ts:284 | exactly "pendente" and "pago" are read, and each reads back as its text |
| Schema.ParseUserType | src/integrations/supabase/types.ts:285 | exactly "admin" and "tecnico" are read, and each reads back as its text |
| Schema.EnumTextRoundTrip | src/integrations/supabase/types.ts:282-286 | text then parse gives back every member of the three enumerations |
| Schema.OsStatusConstants | src/integrations/supabase/types.ts:413 | the runtime list has the union's four values, in union order, each once |
| Schema.PaymentStatusConstants | src/integrations/supabase/types.ts:414 | the runtime list has the union's two values, in union order, each once |
| Schema.UserTypeConstants | src/integrations/supabase/types.ts:415 | the runtime list has the union's two values, in union order, each once |
| Schema.ClientFromInsert | src/integrations/supabase/types.ts:28-37 | a stored client has the assigned id and creation date and the insert's name, email, phone, address and owner as given |
| Schema.EquipmentFromInsert | src/integrations/supabase/types.ts:63-74 | a stored equipment has the assigned id and creation date and the insert's type, brand, model, serial number, observations, client and owner as given |
| Schema.ServiceOrderFromInsert | src/integrations/supabase/types.ts:194-207 | a stored order takes the insert's mandatory fields as given, an omitted status or payment status takes the column default, and value and solution are copied |
| Schema.InsertRoundTrip | src/integrations/supabase/types.ts:180-207 | every stored order is what the database makes of some insert, so the Insert shape loses nothing |
| Schema.ApplyClientUpdate | src/integrations/supabase/types.ts:38-47 | a client update writes name, email, phone and address and keeps id, owner and creation date |
| Schema.ApplyEquipmentUpdate | src/integrations/supabase/types.ts:75-86 | an equipment update writes the six form columns and keeps id, owner and creation date |
| Schema.ApplyProfileUpdate | src/integrations/supabase/types.ts:157-168 | a profile update writes only the columns it names, possibly as null, and keeps id, owner, role and creator |
| Tables.EquipmentCount | src/pages/Clients.tsx:137-140 | the exact count of a client's equipment is positive iff some equipment row references the client |
| Tables.OrderCount | src/pages/Clients.tsx:152-155 | the exact count of a client's orders is positive iff some order row references the client |
| Tables.Store.constructor | src/integrations/supabase/types.ts:16-275 | empty tables satisfy the id and foreign-key invariant |
| Tables.Store.InsertClient | src/integrations/supabase/types.ts:28-37 | the insert succeeds iff the id is new, adds exactly that row, and keeps the invariant |
| Tables.Store.InsertEquipment | src/integrations/supabase/types.ts:87-95 | the insert succeeds iff the id is new and the client exists, adds exactly that row, and keeps the invariant |
| Tables.Store.InsertServiceOrder | src/integrations/supabase/types.ts:222-244 | the insert succeeds iff the id is new and client, equipment and technician profile exist, adds exactly that row, and keeps the invariant |
| Tables.Store.UpdateClient | src/integrations/supabase/types.ts:38-47 | only the row with the given id changes; a missing id changes nothing |
| Tables.Store.UpdateEquipment | src/integrations/supabase/types.ts:75-95 | refused iff the row exists and the new client does not; otherwise only the row with the given id changes |
| Tables.Store.UpdateProfile | src/integrations/supabase/types.ts:157-177 | only the profile with the given id changes; a missing id changes nothing |
| Tables.Store.DeleteClient | src/pages/Clients.tsx:166-171 | the delete succeeds iff no equipment and no order references the client, removes exactly that client, and keeps the invariant |
| ServiceOrders.Listed | src/pages/ServiceOrders.tsx:15-41 | a listed order carries the stored order's id, client and value, and status texts that parse back to the stored enumerations |
| ServiceOrders.ApplyFilters | src/pages/ServiceOrders.tsx:121-133 | an order is shown iff it was loaded and passes both selectors ("all" disables one); the result is an order-preserving sublist |
| ServiceOrders.InitialFiltersShowAll | src/pages/ServiceOrders.tsx:55-56 | with both selectors at their initial "all", every loaded order is shown in loaded order |
| ServiceOrders.ApplyFiltersIdempotent | src/pages/ServiceOrders.tsx:122-132 | filtering the filtered list again with the same selectors changes nothing |
| ServiceOrders.StatusBadge | src/pages/ServiceOrders.tsx:135-148 | a known status gets its fixed label and its own class (in progress, waiting, completed, delivered); any other text is shown raw with the outline style |
| ServiceOrders.KnownStatusBadgesDistinct | src/pages/ServiceOrders.tsx:135-148 | two different known statuses never share a badge, a label or a class |
| ServiceOrders.StoredStatusNeverFallsBack | src/pages/ServiceOrders.tsx:145-146 | a status read from a stored order never reaches the raw-text fallback |
| ServiceOrders.PaymentBadge | src/pages/ServiceOrders.tsx:150-156 | the badge reads "Pago" iff the text is "pago", and "Pendente" for every other text |
| ServiceOrders.PrintStatus | src/pages/ServiceOrders.tsx:265-273 | finalizado and entregue, and only they, get the completed class; em_andamento, and only it, gets the in-progress class; aguardando_peca, and only it, gets the waiting class; an unknown status gets the pending class with its raw text |
| ServiceOrders.PrintLabelMatchesBadge | src/pages/ServiceOrders.tsx:270-273 | the printout's status label equals the list badge's label for every status text |
| ServiceOrders.OrderNumber | src/pages/ServiceOrders.tsx:450 | the displayed number is the last eight characters of the id, or the whole id when it is shorter |
| ServiceOrders.EmptyListNotice | src/pages/ServiceOrders.tsx:421-429 | a notice replaces the table iff nothing is shown; it says "none registered" iff nothing was loaded either |
| ServiceOrders.NoneRegisteredIffNothingLoaded | src/pages/ServiceOrders.tsx:421-429 | after filtering, "none registered" appears iff no order was loaded, and a non-empty list filtered to nothing reads "none match the filters" |
| Dashboard.RecentWindow | src/pages/Dashboard.tsx:133-134 | the loaded window is the first min(n, 10) of the newest-first orders |
| Dashboard.OpenCompletedDisjoint | src/pages/Dashboard.tsx:162-167 | open and completed orders are disjoint, so their counts add up to at most the total |
| Dashboard.CalculateStats | src/pages/Dashboard.tsx:152-183 | total is the number of orders; open, completed and pending payments each equal the per-order count of orders with that status or payment status; open plus completed is at most the total, and no open order gives zero open |
| Seqs.Filter | src/pages/Dashboard.tsx:162-170 | `filter` keeps, in their order, exactly the elements passing the test, each as often as it occurs: its length is the per-element count of those passing |
| Seqs.CountWhereAppend | src/pages/Dashboard.tsx:162-170 | the per-element count over two joined lists is the sum of the counts over each |
| Dashboard.RevenueMatchesPerOrderSum | src/pages/Dashboard.tsx:156-174 | the monthly revenue equals the per-order sum of values (missing as 0) over orders paid and created in the current month and year |
| Dashboard.RevenueNonNegative | src/pages/Dashboard.tsx:172-174 | with no negative stored value, the monthly revenue is not negative |
| Dashboard.PerOrderSumNonNegative | src/pages/Dashboard.tsx:172-174 | the per-order revenue sum is not negative when no value is |
| Dashboard.StatsBoundedByWindow | src/pages/Dashboard.tsx:133-139 | the statistics describe at most the ten loaded orders |
| Dashboard.UnknownPaymentShownPendingButNotCounted | src/pages/Dashboard.tsx:168-170 | an order with an unknown payment text, at any position of the list, reads "Pendente" on its badge but leaves the pending-payment count as it is without that order |
| Clients.ListClient | src/pages/Clients.tsx:64-76 | each listed client carries the exact count of its orders, or 0 when the count query yields none |
| Clients.ClientEditPrefill | src/pages/Clients.tsx:91-100 | the edit form copies the name and turns a missing email, phone or address into "" |
| Clients.ClientFormUpdate | src/pages/Clients.tsx:108-111 | the update writes all four form fields, "" included |
| Clients.UnchangedClientEdit | src/pages/Clients.tsx:93-111 | saving an unedited form turns a null email, phone or address into "" and keeps everything else; the row is unchanged iff none of the three was null |
| Clients.UnchangedClientEditStable | src/pages/Clients.tsx:93-111 | a second unedited save after the first changes nothing |
| Clients.ClientsPage.constructor | src/pages/Clients.tsx:29-37 | nothing is being edited, the form is empty and the dialog is closed |
| Clients.ClientsPage.HandleEdit | src/pages/Clients.tsx:91-100 | remembers the client, prefills the form and opens the dialog |
| Clients.ClientsPage.HandleUpdate | src/pages/Clients.tsx:102-132 | with no client being edited nothing happens; otherwise only the edited id's row takes the form, the dialog closes on success, and saving ends |
| Clients.ClientsPage.HandleDelete | src/pages/Clients.tsx:134-187 | refuses when the client has equipment; only then refuses when it has orders; the client is deleted iff the delete succeeds and it has neither equipment nor orders; a missing count does not block, and with both counts missing the database's restrict rule alone decides |
| Equipments.BrandModelCell | src/pages/Equipments.tsx:252-254 | "brand model" when both are present, the one present otherwise, "-" when neither is; never empty |
| Equipments.SerialCell | src/pages/Equipments.tsx:256 | the serial number, or "-" when it is missing or "" |
| Equipments.Joined | src/pages/Equipments.tsx:70-74 | the joined client is the one the row's client id names |
| Equipments.EquipmentEditPrefill | src/pages/Equipments.tsx:110-121 | the edit form keeps the type, takes the client from the join, and turns missing optional texts into "" |
| Equipments.EquipmentFormUpdate | src/pages/Equipments.tsx:129-132 | the update writes the six form fields, "" included |
| Equipments.UnchangedEquipmentEdit | src/pages/Equipments.tsx:112-132 | saving an unedited form keeps type and client and turns null texts into ""; the row is unchanged iff none of the four texts was null |
| Equipments.EquipmentsPage.constructor | src/pages/Equipments.tsx:41-51 | nothing is being edited, the form is empty and the dialog is closed |
| Equipments.EquipmentsPage.HandleEdit | src/pages/Equipments.tsx:110-121 | remembers the equipment, prefills the form and opens the dialog |
| Equipments.EquipmentsPage.HandleUpdate | src/pages/Equipments.tsx:123-153 | with no equipment being edited nothing happens; otherwise only the edited id's row takes the form, and the dialog closes iff the database accepts |
| Technicians.ToggledStatus | src/pages/Technicians.tsx:108 | "ativo" becomes "inativo"; every other status, null included, becomes "ativo" |
| Technicians.ToggleTwiceRestores | src/pages/Technicians.tsx:108 | toggling twice restores the status iff it was "ativo" or "inativo" |
| Technicians.TechnicianList | src/pages/Technicians.tsx:60-67 | the list is exactly the "tecnico" profiles, in returned order |
| Technicians.DeleteRequest | src/pages/Technicians.tsx:80-87 | a delete is requested iff the confirmation is accepted, and then for the technician's account |
| Technicians.TechniciansPage.constructor | src/pages/Technicians.tsx:25-31 | an empty list, loading, and no user type yet |
| Technicians.TechniciansPage.AccessDenied | src/pages/Technicians.tsx:138 | the screen is shown iff the user type reads as admin; a technician, an unknown type or no type yet is denied |
| Technicians.TechniciansPage.FetchTechnicians | src/pages/Technicians.tsx:34-78 | without a session nothing loads; a viewer whose profile is not admin gets no list and the denied view; an admin gets the technician list; loading always ends |
| Technicians.TechniciansPage.HandleStatusToggle | src/pages/Technicians.tsx:107-132 | only the status of the profile with the technician's id changes, to the toggled value |
| CreateServiceOrder.FilteredEquipments | src/components/CreateServiceOrderModal.tsx:138 | the offered equipment is exactly the loaded equipment of the chosen client, in loaded order |
| CreateServiceOrder.OfferedIds | src/components/CreateServiceOrderModal.tsx:184 | the equipment selector's values are the ids of the filtered list, in order |
| CreateServiceOrder.ConsistentSelectionBelongsToClient | src/components/CreateServiceOrderModal.tsx:163-184 | a selection made through the cascading selectors names equipment loaded for the chosen client |
| CreateServiceOrder.ConsistentSelectionMatchesStore | src/components/CreateServiceOrderModal.tsx:163-184 | when the loaded options reflect the stored equipment, a consistent selection names stored equipment owned by the chosen client |
| CreateServiceOrder.TechnicianOptions | src/components/CreateServiceOrderModal.tsx:82-86 | only "tecnico" profiles are offered |
| CreateServiceOrder.SubmitDisabled | src/components/CreateServiceOrderModal.tsx:236 | submit is enabled iff not saving and client, equipment and technician are all chosen |
| CreateServiceOrder.EmptyProblemDescriptionDoesNotDisable | src/components/CreateServiceOrderModal.tsx:236 | an empty problem description does not disable submit |
| CreateServiceOrder.OrderInsert | src/components/CreateServiceOrderModal.tsx:103-114 | the insert carries the chosen ids, the description and the current user; the value is null when the field is empty and parsed otherwise; status, payment and solution are left to the database |
| CreateServiceOrder.CreateServiceOrderModal.constructor | src/components/CreateServiceOrderModal.tsx:36-47 | closed, not saving, empty lists and an empty, consistent form |
| CreateServiceOrder.CreateServiceOrderModal.LoadData | src/components/CreateServiceOrderModal.tsx:56-93 | without a user nothing loads; clients, equipment and technicians load in that order, and a failing query stops the ones after it |
| CreateServiceOrder.CreateServiceOrderModal.SelectClient | src/components/CreateServiceOrderModal.tsx:163 | sets the client and clears the equipment, so the selection is consistent |
| CreateServiceOrder.CreateServiceOrderModal.SelectEquipment | src/components/CreateServiceOrderModal.tsx:179 | sets the equipment; an offered choice keeps the selection consistent |
| CreateServiceOrder.CreateServiceOrderModal.SelectTechnician | src/components/CreateServiceOrderModal.tsx:195 | sets the technician and keeps a consistent selection consistent |
| CreateServiceOrder.CreateServiceOrderModal.TypeProblemDescription | src/components/CreateServiceOrderModal.tsx:214 | sets only the problem description and keeps a consistent selection consistent |
| CreateServiceOrder.CreateServiceOrderModal.TypeValue | src/components/CreateServiceOrderModal.tsx:227 | sets only the value and keeps a consistent selection consistent |
| CreateServiceOrder.CreateServiceOrderModal.HandleSubmit | src/components/CreateServiceOrderModal.tsx:95-136 | no insert without a user; success iff the database accepts, adding exactly the built order; on success the form resets and the dialog closes, on failure both are kept; saving always ends |
| CreateClient.WithField | src/components/CreateClientModal.tsx:91-117 | typing sets one field and leaves the other three alone |
| CreateClient.ClientInsertOf | src/components/CreateClientModal.tsx:34-41 | the insert carries the four fields as typed, "" included, and the current user |
| CreateClient.CreatedClientEditsBack | src/components/CreateClientModal.tsx:34-41 | a client created here opens in the edit dialog with the form it was created from, and saving that unchanged leaves the row as it is |
| CreateClient.CreateClientModal.constructor | src/components/CreateClientModal.tsx:16-23 | closed, not saving, empty form |
| CreateClient.CreateClientModal.Edit | src/components/CreateClientModal.tsx:91-117 | the form takes the typed text in one field |
| CreateClient.CreateClientModal.HandleSubmit | src/components/CreateClientModal.tsx:26-63 | no insert without a user; success iff the id is new, adding exactly the built client; on success the form resets and the dialog closes, on failure both are kept; saving always ends |
| CreateEquipment.WithField | src/components/CreateEquipmentModal.tsx:144-178 | typing sets one text field and leaves the others and the client alone |
| CreateEquipment.SubmitDisabled | src/components/CreateEquipmentModal.tsx:185 | submit is enabled iff not saving and a client is chosen |
| CreateEquipment.EquipmentInsertOf | src/components/CreateEquipmentModal.tsx:67-74 | the insert carries the six fields as typed, "" included, and the current user |
| CreateEquipment.CreatedEquipmentEditsBack | src/components/CreateEquipmentModal.tsx:67-74 | equipment created here opens in the edit dialog with the form it was created from, and saving that unchanged leaves the row as it is |
| CreateEquipment.CreateEquipmentModal.constructor | src/components/CreateEquipmentModal.tsx:22-32 | closed, not saving, no clients, empty form |
| CreateEquipment.CreateEquipmentModal.LoadClients | src/components/CreateEquipmentModal.tsx:41-58 | the owner's clients replace the list unless there is no user or the query fails |
| CreateEquipment.CreateEquipmentModal.SelectClient | src/components/CreateEquipmentModal.tsx:121 | sets the client and nothing else |
| CreateEquipment.CreateEquipmentModal.Edit | src/components/CreateEquipmentModal.tsx:144-178 | the form takes the typed text in one field |
| CreateEquipment.CreateEquipmentModal.HandleSubmit | src/components/CreateEquipmentModal.tsx:59-96 | no insert without a user; success iff the id is new and the client exists, adding exactly the built row; on success the form resets and the dialog closes, on failure both are kept; saving always ends |
| EditTechnician.TechnicianPrefill | src/components/EditTechnicianModal.tsx:38-43 | name and status are copied; a null phone or position becomes "" |
| EditTechnician.NullIfEmpty | src/components/EditTechnicianModal.tsx:56-57 | "" becomes null and any other text is kept |
| EditTechnician.TechnicianSubmitUpdate | src/components/EditTechnicianModal.tsx:54-59 | the update writes name and status unchanged and an empty phone or position as null |
| EditTechnician.UnchangedTechnicianEdit | src/components/EditTechnicianModal.tsx:38-59 | saving an unedited form writes back phone and position whenever they were null or non-empty, turns "" into null, and keeps everything else; the profile is unchanged iff neither was "" |
| EditTechnician.EditTechnicianModal.constructor | src/components/EditTechnicianModal.tsx:26-33 | the first render is not saving and holds empty name, phone and position with status "ativo" |
| EditTechnician.EditTechnicianModal.TechnicianChanged | src/components/EditTechnicianModal.tsx:36-45 | the prefill effect, after mounting and on every new technician: the form copies the technician, null phone or position as "" |
| EditTechnician.EditTechnicianModal.HandleSubmit | src/components/EditTechnicianModal.tsx:47-81 | only the profile with the technician's id changes; the dialog closes only on success; saving always ends |
| ResetPassword.ResetSubmitDisabled | src/components/ResetPasswordModal.tsx:88 | the reset is enabled iff not saving and the new password has at least six characters |

`Dashboard.tsx` repeats the list's status and payment badge functions word for
word (src/pages/Dashboard.tsx:211-232). Both screens are modelled by
`ServiceOrders.StatusBadge` and `ServiceOrders.PaymentBadge`.

## Left out

- Database and authentication calls are not modelled as such. The store stands in for the tables. Sessions, the current user, remote failures, generated ids and timestamps are parameters. Server-side ordering (`order(...)`), the owner filter (`eq('user_id', ...)`) and row-level security are not visible, so loaded lists are inputs.
- The ON DELETE action of the foreign keys is not visible in the schema. The store assumes the default (restrict), so deleting a referenced client is refused.
- The column defaults of `service_orders.status` and `payment_status` are not visible; they are parameters of the store's constructor.
- Asynchrony is not modelled: `useEffect`, `Promise.all` in the client list, the dashboard's `setTimeout`, and interleavings between awaits. Each handler is one atomic step, and the client delete guard decides on one snapshot of the tables.
- Floating point and locale formatting are not modelled (`parseFloat`, `toFixed`, `toLocaleDateString`, `new Date()`). Money is integer cents, the parser is a parameter returning None for an unreadable number, and the current month is a parameter.
- The print template, `window.open`/`print`, CSS beyond the class choice, layout, toasts, navigation and the reloads after a change are not modelled.
- Sign-out's local-storage cleanup and the landing page's redirect (src/pages/Index.tsx) are browser plumbing and are not modelled.
- The deletes of service orders (src/pages/ServiceOrders.tsx:309) and of equipment (src/pages/Equipments.tsx:155) are not modelled. They only forward a remote call and reload.
- The account deletion and password change behind the technician screen and the reset dialog go to the authentication service. The model only states which account a confirmed delete names, and the reset dialog's enable rule.
- The technician creation dialog is not part of this model.
- Order status transitions are unconstrained in the code, so none are modelled. The admin gate is a client-side view rule, not an authorization boundary.
- CreateServiceOrder.CreateServiceOrderModal.LoadData: the model does not state that the selection stays consistent after a reload, because a reload can drop the chosen equipment. The code does not clear the selection then either.
- CreateServiceOrder.CreateServiceOrderModal.SelectEquipment: consistency is promised only for offered choices, because the selector can only produce those.
- ResetPassword.ResetSubmitDisabled: length counts characters, whereas JavaScript's `length` counts UTF-16 code units, so the two differ for characters outside the Basic Multilingual Plane.
- The HTML `required` attributes (src/components/CreateServiceOrderModal.tsx:216 and the name, type and new-password fields of the other dialogs and edit forms) are browser validation that can block a submit before the handler runs; they are not modelled, so an empty problem description reaches the insert in the model.
- EditTechnician.EditTechnicianModal.constructor: no longer promises a prefilled form; the prefill is the effect `TechnicianChanged`, which runs after the first render.
