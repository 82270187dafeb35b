/** The owner's list of rental requests awaiting a decision
    (components/PendingRequests.tsx): the fetched rentals enriched with the
    vehicle and the renter, confirmation or rejection which drops the
    decided rental, the loading/refreshing/error flags and the status
    colours. */
module PendingRequests {
  import opened Common

  datatype VehicleInfo = VehicleInfo(title: string, imageFront: string)
  datatype RenterInfo = RenterInfo(nickname: string, avatar: string)

  datatype Rental = Rental(
    id: int,
    vehicleId: int,
    renterId: int,
    startDateTime: string,
    endDateTime: string,
    totalPrice: int,
    status: string,
    createdAt: string,
    updatedAt: string,
    vehicle: Option<VehicleInfo>,
    renter: Option<RenterInfo>)

  function RentalId(r: Rental): int {
    r.id
  }

  /** What an awaited request gives: an exception with its message, or a
      body with a status and data. */
  datatype Answer<T> = Thrown(message: string) | Reply(status: int, data: T)

  /** The bundled placeholder pictures. */
  const PlaceholderVehicleImage := "images.vinfast"
  const PlaceholderAvatar := "images.avatar"

  const UnknownVehicle := VehicleInfo("Unknown Vehicle", PlaceholderVehicleImage)
  const UnknownRenter := RenterInfo("Unknown Renter", PlaceholderAvatar)

  // ---------------------------------------------------------------------
  // Status colours

  /** `getStatusColor`. */
  function StatusColor(status: string): string {
    match status
    case "DEPOSIT PENDING" => "#F59E0B"
    case "DEPOSIT PAID" => "#F59E0B"
    case "OWNER PENDING" => "#3B82F6"
    case "OWNER APPROVED" => "#3B82F6"
    case "CONTRACT PENDING" => "#8B5CF6"
    case "CONTRACT SIGNED" => "#8B5CF6"
    case "REMAINING PAYMENT PAID" => "#10B981"
    case "RENTER RECEIVED" => "#10B981"
    case "RENTER RETURNED" => "#10B981"
    case "COMPLETED" => "#0D9488"
    case "CANCELLED" => "#EF4444"
    case "DEPOSIT REFUNDED" => "#6B7280"
    case _ => "#1F2937"
  }

  const DefaultColor := "#1F2937"

  /** The statuses of the rental life cycle, grouped by colour. */
  const StatusGroups: seq<(seq<string>, string)> := [
    (["DEPOSIT PENDING", "DEPOSIT PAID"], "#F59E0B"),
    (["OWNER PENDING", "OWNER APPROVED"], "#3B82F6"),
    (["CONTRACT PENDING", "CONTRACT SIGNED"], "#8B5CF6"),
    (["REMAINING PAYMENT PAID", "RENTER RECEIVED", "RENTER RETURNED"], "#10B981"),
    (["COMPLETED"], "#0D9488"),
    (["CANCELLED"], "#EF4444"),
    (["DEPOSIT REFUNDED"], "#6B7280")]

  predicate Listed(status: string) {
    exists g :: 0 <= g < |StatusGroups| && status in StatusGroups[g].0
  }

  /** Each of the thirteen listed statuses gets its group's colour. */
  lemma StatusColorListed(g: int, status: string)
    requires 0 <= g < |StatusGroups| && status in StatusGroups[g].0
    ensures StatusColor(status) == StatusGroups[g].1
    ensures StatusColor(status) != DefaultColor
  {
    var names := StatusGroups[g].0;
    var i :| 0 <= i < |names| && names[i] == status;
  }

  /** Every other string gets the default colour. */
  lemma StatusColorDefault(status: string)
    requires !Listed(status)
    ensures StatusColor(status) == DefaultColor
  {
    var groups := StatusGroups;
    assert status !in groups[0].0 && status !in groups[1].0 && status !in groups[2].0;
    assert status !in groups[3].0 && status !in groups[4].0 && status !in groups[5].0 && status !in groups[6].0;
  }

  /** The groups' colours are distinct, and so the colour tells the group. */
  lemma GroupColorsDistinct()
    ensures forall g, h :: 0 <= g < h < |StatusGroups| ==> StatusGroups[g].1 != StatusGroups[h].1
    ensures forall g :: 0 <= g < |StatusGroups| ==> StatusGroups[g].1 != DefaultColor
  {
  }

  // ---------------------------------------------------------------------
  // Enrichment

  /** The vehicle shown for a lookup that came back. */
  function VehicleOf(a: Answer<VehicleInfo>): (v: VehicleInfo)
    requires a.Reply?
    ensures a.status == 200 ==> v == a.data
    ensures a.status != 200 ==> v.title == "Unknown Vehicle" && v.imageFront == PlaceholderVehicleImage
  {
    if a.status == 200 then a.data else UnknownVehicle
  }

  function RenterOf(a: Answer<RenterInfo>): (u: RenterInfo)
    requires a.Reply?
    ensures a.status == 200 ==> u == a.data
    ensures a.status != 200 ==> u.nickname == "Unknown Renter" && u.avatar == PlaceholderAvatar
  {
    if a.status == 200 then a.data else UnknownRenter
  }

  /** Both lookups of a rental came back. */
  predicate Answered(r: Rental, vehicles: int -> Answer<VehicleInfo>, renters: int -> Answer<RenterInfo>) {
    vehicles(r.vehicleId).Reply? && renters(r.renterId).Reply?
  }

  /** The exception a rental's lookups raise: the vehicle's first. */
  function LookupError(r: Rental, vehicles: int -> Answer<VehicleInfo>, renters: int -> Answer<RenterInfo>): string
    requires !Answered(r, vehicles, renters)
  {
    if vehicles(r.vehicleId).Thrown? then vehicles(r.vehicleId).message else renters(r.renterId).message
  }

  datatype FetchResult = Loaded(rentals: seq<Rental>) | Failed(message: string)

  /** The details of every rental in order, or the first lookup exception. */
  function Enrich(rs: seq<Rental>, vehicles: int -> Answer<VehicleInfo>, renters: int -> Answer<RenterInfo>): (res: FetchResult)
    ensures res.Loaded? <==> forall i :: 0 <= i < |rs| ==> Answered(rs[i], vehicles, renters)
    ensures res.Loaded? ==> |res.rentals| == |rs|
    ensures res.Loaded? ==> forall i :: 0 <= i < |rs| ==>
              res.rentals[i] == rs[i].(vehicle := Some(VehicleOf(vehicles(rs[i].vehicleId))),
                                       renter := Some(RenterOf(renters(rs[i].renterId))))
    ensures res.Failed? ==> exists i :: 0 <= i < |rs| && !Answered(rs[i], vehicles, renters)
                                           && res.message == LookupError(rs[i], vehicles, renters)
    decreases |rs|
  {
    if rs == [] then Loaded([])
    else
      var r := rs[0];
      if !Answered(r, vehicles, renters) then Failed(LookupError(r, vehicles, renters))
      else
        match Enrich(rs[1..], vehicles, renters)
        case Failed(m) => Failed(m)
        case Loaded(tail) =>
          Loaded([r.(vehicle := Some(VehicleOf(vehicles(r.vehicleId))),
                     renter := Some(RenterOf(renters(r.renterId))))] + tail)
  }

  const LoadFallback := "Could not load pending rentals"

  /** `fetchPendingRentals` without its flags: a non-200 list answer and
      every exception end in an error message, never an empty one. */
  function FetchOutcome(list: Answer<seq<Rental>>, vehicles: int -> Answer<VehicleInfo>, renters: int -> Answer<RenterInfo>): (res: FetchResult)
    ensures res.Loaded? <==> list.Reply? && list.status == 200 && Enrich(list.data, vehicles, renters).Loaded?
    ensures res.Loaded? ==> |res.rentals| == |list.data|
    ensures res.Loaded? ==> forall i :: 0 <= i < |res.rentals| ==> res.rentals[i].id == list.data[i].id
    ensures res.Failed? ==> res.message != ""
    ensures list.Reply? && list.status != 200 ==> res == Failed("Failed to fetch pending rentals")
    ensures list.Thrown? ==> res == Failed(OrElse(list.message, LoadFallback))
  {
    match list
    case Thrown(m) => Failed(OrElse(m, LoadFallback))
    case Reply(status, data) =>
      if status != 200 then Failed("Failed to fetch pending rentals")
      else
        match Enrich(data, vehicles, renters)
        case Loaded(rs) => Loaded(rs)
        case Failed(m) => Failed(OrElse(m, LoadFallback))
  }

  // ---------------------------------------------------------------------
  // Decisions

  /** The body of a decision request, with its optional message. */
  datatype Decision = DecisionThrown(message: string) | DecisionReply(status: int, reason: Option<string>)

  /** The list after `handleRentalDecision`: a 200 drops exactly the rentals
      with that id and keeps the others in order; anything else changes
      nothing. */
  function AfterDecision(rs: seq<Rental>, rentalId: int, d: Decision): (r: seq<Rental>)
    ensures !(d.DecisionReply? && d.status == 200) ==> r == rs
    ensures d.DecisionReply? && d.status == 200 ==>
              && (forall x :: x in r <==> x in rs && x.id != rentalId)
              && |r| == |rs| - CountKey(rs, RentalId, rentalId)
  {
    if d.DecisionReply? && d.status == 200 then
      WithoutMembers(rs, RentalId, rentalId);
      Without(rs, RentalId, rentalId)
    else rs
  }

  /** The toast a decision shows. A non-200 body's message (or the
      "Failed to make decision" fallback) is thrown and shown; the generic
      fallback appears only for an exception with no message. */
  function DecisionToast(approve: bool, d: Decision): (t: (string, string))
    ensures t.0 == "success" <==> d.DecisionReply? && d.status == 200
    ensures t.0 == "success" ==> t.1 == "Rental " + (if approve then "confirmed" else "rejected") + " successfully."
    ensures d.DecisionReply? && d.status != 200 ==>
              t == ("error", if Truthy(d.reason) then d.reason.value else "Failed to make decision")
    ensures d.DecisionThrown? ==> t == ("error", OrElse(d.message, "Could not process rental decision"))
  {
    match d
    case DecisionThrown(m) => ("error", OrElse(m, "Could not process rental decision"))
    case DecisionReply(status, reason) =>
      if status == 200 then ("success", "Rental " + (if approve then "confirmed" else "rejected") + " successfully.")
      else
        var thrown := OrElse(if reason.Some? then reason.value else "", "Failed to make decision");
        ("error", OrElse(thrown, "Could not process rental decision"))
  }

  /** A second decision on the same rental finds nothing left to drop. */
  lemma DecisionIdempotent(rs: seq<Rental>, rentalId: int, d: Decision)
    ensures AfterDecision(AfterDecision(rs, rentalId, d), rentalId, d) == AfterDecision(rs, rentalId, d)
  {
    if d.DecisionReply? && d.status == 200 {
      WithoutIdempotent(rs, RentalId, rentalId);
    }
  }

  /** Dropping a rental from a list does not disturb the rentals around it. */
  lemma DecisionKeepsOrder(a: seq<Rental>, b: seq<Rental>, rentalId: int)
    requires forall i :: 0 <= i < |a| ==> a[i].id != rentalId
    ensures AfterDecision(a + b, rentalId, DecisionReply(200, None)) == a + AfterDecision(b, rentalId, DecisionReply(200, None))
  {
    WithoutConcat(a, b, RentalId, rentalId);
    WithoutAbsent(a, RentalId, rentalId);
  }

  // ---------------------------------------------------------------------
  // The screen

  /** What the screen shows, checked in this order. */
  datatype View = LoadingView | ErrorView(message: string) | EmptyView | ListView(rentals: seq<Rental>)

  /** `Renter: {item.renter?.nickname || 'Unknown'}`. */
  function RenterName(r: Rental): (s: string)
    ensures s != ""
    ensures r.renter.Some? && r.renter.value.nickname != "" ==> s == r.renter.value.nickname
    ensures !(r.renter.Some? && r.renter.value.nickname != "") ==> s == "Unknown"
  {
    if r.renter.Some? then OrElse(r.renter.value.nickname, "Unknown") else "Unknown"
  }

  class PendingRequestsScreen {
    var rentals: seq<Rental>
    var loading: bool
    var error: Option<string>
    var refreshing: bool

    constructor ()
      ensures rentals == [] && loading && error == None && !refreshing
    {
      rentals := [];
      loading := true;
      error := None;
      refreshing := false;
    }

    function Shown(): (v: View)
      reads this
      ensures loading <==> v == LoadingView
      ensures v.ErrorView? <==> !loading && Truthy(error)
      ensures v.ErrorView? ==> Some(v.message) == error && v.message != ""
      ensures v == EmptyView <==> !loading && !Truthy(error) && |rentals| == 0
      ensures v.ListView? ==> v.rentals == rentals && |rentals| > 0
    {
      if loading then LoadingView
      else if Truthy(error) then ErrorView(error.value)
      else if |rentals| == 0 then EmptyView
      else ListView(rentals)
    }

    /** The synchronous half of `onRefresh`; the fetch it starts follows. */
    method StartRefresh()
      modifies this
      ensures refreshing && error == None
      ensures rentals == old(rentals) && loading == old(loading)
    {
      refreshing := true;
      error := None;
    }

    /** `fetchPendingRentals` settling: a success replaces the list and
        leaves the error as it was; a failure records and shows the message
        and keeps the list; both flags are cleared on every path. */
    method Fetch(list: Answer<seq<Rental>>, vehicles: int -> Answer<VehicleInfo>, renters: int -> Answer<RenterInfo>)
      returns (toast: Option<(string, string)>)
      modifies this
      ensures !loading && !refreshing
      ensures var res := FetchOutcome(list, vehicles, renters);
              match res
              case Loaded(rs) => rentals == rs && error == old(error) && toast == None
              case Failed(m) => rentals == old(rentals) && error == Some(m) && toast == Some(("error", m))
    {
      loading := true;
      var res := FetchOutcome(list, vehicles, renters);
      match res {
        case Loaded(rs) =>
          rentals := rs;
          toast := None;
        case Failed(m) =>
          error := Some(m);
          toast := Some(("error", m));
      }
      loading := false;
      refreshing := false;
    }

    /** `handleRentalDecision`. */
    method Decide(rentalId: int, approve: bool, d: Decision) returns (toast: (string, string))
      modifies this
      ensures rentals == AfterDecision(old(rentals), rentalId, d)
      ensures toast == DecisionToast(approve, d)
      ensures loading == old(loading) && error == old(error) && refreshing == old(refreshing)
    {
      if d.DecisionReply? && d.status == 200 {
        rentals := Without(rentals, RentalId, rentalId);
      }
      toast := DecisionToast(approve, d);
    }
  }

  /** A refresh that fails shows its error; the next one starts clean. */
  method RefreshAfterFailure(vehicles: int -> Answer<VehicleInfo>, renters: int -> Answer<RenterInfo>)
  {
    var screen := new PendingRequestsScreen();
    var t := screen.Fetch(Thrown(""), vehicles, renters);
    assert screen.Shown() == ErrorView(LoadFallback);
    screen.StartRefresh();
    assert screen.error == None && screen.refreshing;
    t := screen.Fetch(Reply(200, []), vehicles, renters);
    assert screen.Shown() == EmptyView;
  }
}
