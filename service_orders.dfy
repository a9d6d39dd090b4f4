/**
 * The service-order list screen: the status/client filter over the loaded list,
 * the status and payment badges, the status choice of the printout, the displayed
 * order number and the empty-list notice.
 */
module ServiceOrders {
  import opened Wrappers
  import opened Schema
  import opened Seqs

  /** A loaded order as the screen holds it; status texts are plain strings there. */
  datatype ListedOrder = ListedOrder(
    id: Id, status: string, paymentStatus: string, clientId: Id, clientName: string,
    value: Option<int>)

  /** The listed form of a stored order joined with its client's name. */
  function Listed(row: ServiceOrderRow, clientName: string): (o: ListedOrder)
    ensures o.id == row.id && o.clientId == row.clientId && o.value == row.value
    ensures ParseOsStatus(o.status) == Some(row.status)
    ensures ParsePaymentStatus(o.paymentStatus) == Some(row.paymentStatus)
  {
    ListedOrder(row.id, OsStatusText(row.status), PaymentStatusText(row.paymentStatus),
                row.clientId, clientName, row.value)
  }

  /** The value both selectors start at and that switches a filter off. */
  const All: string := "all"

  predicate Kept(o: ListedOrder, statusFilter: string, clientFilter: string) {
    (statusFilter == All || o.status == statusFilter) && (clientFilter == All || o.clientId == clientFilter)
  }

  /** `order.status === statusFilter` */
  function StatusIs(statusFilter: string): ListedOrder -> bool {
    (o: ListedOrder) => o.status == statusFilter
  }

  /** `order.clients.id === clientFilter` */
  function ClientIs(clientFilter: string): ListedOrder -> bool {
    (o: ListedOrder) => o.clientId == clientFilter
  }

  /** `applyFilters`: the status filter, then the client filter, each skipped at "all". */
  function ApplyFilters(orders: seq<ListedOrder>, statusFilter: string, clientFilter: string): (r: seq<ListedOrder>)
    ensures |r| <= |orders|
    ensures forall o :: o in r <==> o in orders && Kept(o, statusFilter, clientFilter)
    ensures forall i :: 0 <= i < |r| ==> Kept(r[i], statusFilter, clientFilter)
    ensures Sublist(r, orders)
  {
    var byStatus := if statusFilter != All then Filter(orders, StatusIs(statusFilter)) else orders;
    var byClient := if clientFilter != All then Filter(byStatus, ClientIs(clientFilter)) else byStatus;
    SublistReflexive(orders);
    SublistReflexive(byStatus);
    SublistTransitive(byClient, byStatus, orders);
    byClient
  }

  /** With both selectors at their initial "all", the whole loaded list is shown. */
  lemma InitialFiltersShowAll(orders: seq<ListedOrder>)
    ensures ApplyFilters(orders, All, All) == orders
  {
  }

  /** Filtering the filtered list again with the same selectors changes nothing. */
  lemma ApplyFiltersIdempotent(orders: seq<ListedOrder>, statusFilter: string, clientFilter: string)
    ensures ApplyFilters(ApplyFilters(orders, statusFilter, clientFilter), statusFilter, clientFilter)
         == ApplyFilters(orders, statusFilter, clientFilter)
  {
    var r := ApplyFilters(orders, statusFilter, clientFilter);
    if statusFilter != All {
      FilterKeepsAll(r, StatusIs(statusFilter));
    }
    if clientFilter != All {
      FilterKeepsAll(r, ClientIs(clientFilter));
    }
  }

  /** Badge classes of the list and the dashboard. */
  datatype BadgeStyle = InProgressStyle | WaitingStyle | CompletedStyle | DeliveredStyle | OutlineStyle | PendingStyle

  datatype Badge = Badge(style: BadgeStyle, text: string)

  /** The fixed label of each known status. */
  function StatusLabel(s: OsStatus): string {
    match s
    case EmAndamento => "Em andamento"
    case AguardandoPeca => "Aguardando peça"
    case Finalizado => "Finalizado"
    case Entregue => "Entregue"
  }

  /** The badge class of each known status. */
  function StatusStyle(s: OsStatus): BadgeStyle {
    match s
    case EmAndamento => InProgressStyle
    case AguardandoPeca => WaitingStyle
    case Finalizado => CompletedStyle
    case Entregue => DeliveredStyle
  }

  /** `getStatusBadge`: a fixed label and class per known status; anything else as raw text. */
  function StatusBadge(status: string): (b: Badge)
    ensures ParseOsStatus(status).Some? ==> b.text == StatusLabel(ParseOsStatus(status).value)
    ensures ParseOsStatus(status).Some? ==> b.style == StatusStyle(ParseOsStatus(status).value)
    ensures ParseOsStatus(status).Some? <==> b.style != OutlineStyle
    ensures ParseOsStatus(status).None? ==> b == Badge(OutlineStyle, status)
  {
    match status
    case "em_andamento" => Badge(InProgressStyle, "Em andamento")
    case "aguardando_peca" => Badge(WaitingStyle, "Aguardando peça")
    case "finalizado" => Badge(CompletedStyle, "Finalizado")
    case "entregue" => Badge(DeliveredStyle, "Entregue")
    case _ => Badge(OutlineStyle, status)
  }

  /** Distinct known statuses get distinct labels and distinct badge classes. */
  lemma KnownStatusBadgesDistinct(s: OsStatus, t: OsStatus)
    requires s != t
    ensures StatusBadge(OsStatusText(s)) != StatusBadge(OsStatusText(t))
    ensures StatusBadge(OsStatusText(s)).text != StatusBadge(OsStatusText(t)).text
    ensures StatusBadge(OsStatusText(s)).style != StatusBadge(OsStatusText(t)).style
  {
  }

  /** A stored order's status is one of the four, so its badge never falls back. */
  lemma StoredStatusNeverFallsBack(row: ServiceOrderRow, clientName: string)
    ensures StatusBadge(Listed(row, clientName).status).style != OutlineStyle
  {
  }

  /** `getPaymentBadge`: "pago" reads "Pago"; every other text, unknown ones included, "Pendente". */
  function PaymentBadge(paymentStatus: string): (b: Badge)
    ensures b.text == "Pago" <==> paymentStatus == "pago"
    ensures b.text == "Pago" || b.text == "Pendente"
    ensures b.style == (if paymentStatus == "pago" then CompletedStyle else PendingStyle)
  {
    if paymentStatus == "pago" then Badge(CompletedStyle, "Pago") else Badge(PendingStyle, "Pendente")
  }

  /** Status classes of the printout's style sheet. */
  datatype PrintStyle = PrintCompleted | PrintInProgress | PrintWaiting | PrintPending

  /** The status class and label written into the printout. */
  function PrintStatus(status: string): (r: (PrintStyle, string))
    ensures (status == "finalizado" || status == "entregue") <==> r.0 == PrintCompleted
    ensures status == "em_andamento" <==> r.0 == PrintInProgress
    ensures status == "aguardando_peca" <==> r.0 == PrintWaiting
    ensures ParseOsStatus(status).None? <==> r == (PrintPending, status)
  {
    var style :=
      if status == "finalizado" || status == "entregue" then PrintCompleted
      else if status == "em_andamento" then PrintInProgress
      else if status == "aguardando_peca" then PrintWaiting
      else PrintPending;
    var shown :=
      if status == "em_andamento" then "Em andamento"
      else if status == "aguardando_peca" then "Aguardando peça"
      else if status == "finalizado" then "Finalizado"
      else if status == "entregue" then "Entregue"
      else status;
    (style, shown)
  }

  /** The printout and the list badge show the same status label for every text. */
  lemma PrintLabelMatchesBadge(status: string)
    ensures PrintStatus(status).1 == StatusBadge(status).text
  {
  }

  /** `order.id.slice(-8)`: the last eight characters, or the whole id when shorter. */
  function OrderNumber(id: Id): (r: string)
    ensures |r| == if |id| < 8 then |id| else 8
    ensures id == id[..|id| - |r|] + r
  {
    if |id| < 8 then id else id[|id| - 8..]
  }

  /** The notice shown instead of the table when nothing is displayed. */
  datatype EmptyNotice = NoneRegistered | NoneMatchFilters

  function EmptyListNotice(loaded: seq<ListedOrder>, shown: seq<ListedOrder>): (r: Option<EmptyNotice>)
    ensures r.None? <==> shown != []
    ensures r == Some(NoneRegistered) <==> shown == [] && loaded == []
  {
    if shown != [] then None
    else if loaded == [] then Some(NoneRegistered)
    else Some(NoneMatchFilters)
  }

  /**
   * "No orders registered" appears exactly when nothing was loaded; an empty result
   * of non-empty loaded orders is reported as "none match the filters".
   */
  lemma NoneRegisteredIffNothingLoaded(orders: seq<ListedOrder>, statusFilter: string, clientFilter: string)
    ensures EmptyListNotice(orders, ApplyFilters(orders, statusFilter, clientFilter)) == Some(NoneRegistered)
        <==> orders == []
    ensures orders != [] && ApplyFilters(orders, statusFilter, clientFilter) == [] ==>
        EmptyListNotice(orders, ApplyFilters(orders, statusFilter, clientFilter)) == Some(NoneMatchFilters)
  {
  }
}
