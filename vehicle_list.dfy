/** The owner's vehicle list (components/vehicle/VehicleList.tsx): the
    fetched vehicles, their cards (a rejected vehicle shows a delete control
    and its reason, any other its price and status) and the confirmation
    dialog that deletes the selected vehicle. */
module VehicleList {
  import opened Common

  datatype Vehicle = Vehicle(
    id: string,
    title: string,
    imageFront: string,
    brand: string,
    model: string,
    year: int,
    price: int,
    status: string,
    rejectedReason: Option<string>)

  function VehicleId(v: Vehicle): string {
    v.id
  }

  const Rejected := "REJECTED"
  const PlaceholderImage := "images.vinfast"

  // ---------------------------------------------------------------------
  // Cards

  /** The parts of a card below the picture and the title. */
  datatype Card = Card(
    image: string,
    rejectedPanel: bool,
    deleteControl: bool,
    reason: Option<string>,
    priceAndStatus: bool)

  /** `renderVehicleItem`: a rejected vehicle gets the red panel with the
      trash control and, when there is one, its reason; every other vehicle
      gets the price and status row instead. */
  function CardOf(v: Vehicle): (c: Card)
    ensures c.deleteControl <==> v.status == Rejected
    ensures c.rejectedPanel == c.deleteControl && c.priceAndStatus == !c.deleteControl
    ensures c.reason.Some? <==> v.status == Rejected && Truthy(v.rejectedReason)
    ensures c.reason.Some? ==> c.reason == v.rejectedReason
    ensures c.image == OrElse(v.imageFront, PlaceholderImage)
  {
    var rejected := v.status == Rejected;
    Card(OrElse(v.imageFront, PlaceholderImage), rejected, rejected,
         if rejected && Truthy(v.rejectedReason) then v.rejectedReason else None, !rejected)
  }

  // ---------------------------------------------------------------------
  // Deleting

  /** The list after the delete request settles: on success exactly the
      vehicles with the selected id are gone and the rest keep their order;
      on failure nothing changes. */
  function AfterDelete(vs: seq<Vehicle>, id: string, deleted: bool): (r: seq<Vehicle>)
    ensures !deleted ==> r == vs
    ensures deleted ==> (forall v :: v in r <==> v in vs && v.id != id)
    ensures deleted ==> |r| == |vs| - CountKey(vs, VehicleId, id)
  {
    if deleted then
      WithoutMembers(vs, VehicleId, id);
      Without(vs, VehicleId, id)
    else vs
  }

  predicate UniqueIds(vs: seq<Vehicle>) {
    forall i, j :: 0 <= i < j < |vs| ==> vs[i].id != vs[j].id
  }

  lemma {:induction false} CountUnique(vs: seq<Vehicle>, k: int)
    requires UniqueIds(vs) && 0 <= k < |vs|
    ensures CountKey(vs, VehicleId, vs[k].id) == 1
    decreases |vs|
  {
    var id := vs[k].id;
    if k == 0 {
      WithoutMembers(vs[1..], VehicleId, id);
      assert forall i :: 0 <= i < |vs[1..]| ==> VehicleId(vs[1..][i]) != id by {
        forall i | 0 <= i < |vs[1..]| ensures VehicleId(vs[1..][i]) != id {
          assert vs[1..][i] == vs[i + 1];
        }
      }
      WithoutAbsent(vs[1..], VehicleId, id);
    } else {
      assert vs[1..][k - 1] == vs[k];
      assert UniqueIds(vs[1..]) by {
        forall i, j | 0 <= i < j < |vs[1..]| ensures vs[1..][i].id != vs[1..][j].id {
          assert vs[1..][i] == vs[i + 1] && vs[1..][j] == vs[j + 1];
        }
      }
      CountUnique(vs[1..], k - 1);
    }
  }

  /** The trash control exists only on rejected cards, so with distinct ids
      a successful delete removes that one rejected vehicle and nothing
      else. */
  lemma DeletesOnlyTheRejected(vs: seq<Vehicle>, k: int)
    requires UniqueIds(vs) && 0 <= k < |vs| && CardOf(vs[k]).deleteControl
    ensures |AfterDelete(vs, vs[k].id, true)| == |vs| - 1
    ensures forall v :: v in vs && v !in AfterDelete(vs, vs[k].id, true) ==> v == vs[k] && v.status == Rejected
  {
    CountUnique(vs, k);
  }

  // ---------------------------------------------------------------------
  // The screen

  datatype View = LoadingView | ErrorView(message: string) | EmptyView | ListView(vehicles: seq<Vehicle>)

  /** What the initial `getUserVehicles` call gives. */
  datatype FetchAnswer = FetchThrown(message: string) | FetchReply(status: int, vehicles: seq<Vehicle>)

  class VehicleListScreen {
    var vehicles: seq<Vehicle>
    var loading: bool
    var error: Option<string>
    var dialogVisible: bool
    var selectedVehicleId: Option<string>

    constructor ()
      ensures vehicles == [] && loading && error == None && !dialogVisible && selectedVehicleId == None
    {
      vehicles := [];
      loading := true;
      error := None;
      dialogVisible := false;
      selectedVehicleId := None;
    }

    function Shown(): (v: View)
      reads this
      ensures loading <==> v == LoadingView
      ensures v.ErrorView? <==> !loading && Truthy(error)
      ensures v.ErrorView? ==> Some(v.message) == error && v.message != ""
      ensures v == EmptyView <==> !loading && !Truthy(error) && |vehicles| == 0
      ensures v.ListView? ==> v.vehicles == vehicles && |vehicles| > 0
    {
      if loading then LoadingView
      else if Truthy(error) then ErrorView(error.value)
      else if |vehicles| == 0 then EmptyView
      else ListView(vehicles)
    }

    /** The load on mount: a 200 fills the list, anything else records a
        message that is never empty; loading ends on every path. */
    method Fetch(answer: FetchAnswer) returns (toast: Option<(string, string)>)
      modifies this
      ensures !loading
      ensures answer.FetchReply? && answer.status == 200 ==>
                vehicles == answer.vehicles && error == old(error) && toast == None
      ensures answer.FetchReply? && answer.status != 200 ==>
                vehicles == old(vehicles) && error == Some("Failed to fetch vehicles") && toast == Some(("error", "Failed to fetch vehicles"))
      ensures answer.FetchThrown? ==>
                var m := OrElse(answer.message, "Could not load vehicles");
                vehicles == old(vehicles) && error == Some(m) && toast == Some(("error", m))
      ensures dialogVisible == old(dialogVisible) && selectedVehicleId == old(selectedVehicleId)
    {
      toast := None;
      match answer {
        case FetchReply(status, vs) =>
          if status == 200 {
            vehicles := vs;
          } else {
            error := Some("Failed to fetch vehicles");
            toast := Some(("error", "Failed to fetch vehicles"));
          }
        case FetchThrown(m) =>
          var message := OrElse(m, "Could not load vehicles");
          error := Some(message);
          toast := Some(("error", message));
      }
      loading := false;
    }

    /** `handleDeletePress`: remember the vehicle and open the dialog. */
    method DeletePress(id: string)
      modifies this
      ensures selectedVehicleId == Some(id) && dialogVisible
      ensures vehicles == old(vehicles) && loading == old(loading) && error == old(error)
    {
      selectedVehicleId := Some(id);
      dialogVisible := true;
    }

    /** Cancel or dismiss: the dialog closes and the selection stays. */
    method Dismiss()
      modifies this
      ensures !dialogVisible
      ensures selectedVehicleId == old(selectedVehicleId) && vehicles == old(vehicles)
      ensures loading == old(loading) && error == old(error)
    {
      dialogVisible := false;
    }

    /** `confirmDelete`: without a selection it does nothing at all;
        otherwise the list loses the selected vehicle when the request
        succeeds, a toast reports the result, and the dialog closes with
        the selection cleared either way. */
    method ConfirmDelete(deleted: bool) returns (toast: Option<(string, string)>)
      modifies this
      ensures !Truthy(old(selectedVehicleId)) ==>
                && toast == None && vehicles == old(vehicles) && dialogVisible == old(dialogVisible)
                && selectedVehicleId == old(selectedVehicleId)
      ensures Truthy(old(selectedVehicleId)) ==>
                && vehicles == AfterDelete(old(vehicles), old(selectedVehicleId).value, deleted)
                && toast == Some(if deleted then ("success", "Vehicle deleted successfully.")
                                 else ("error", "Could not delete vehicle. Please try again."))
                && !dialogVisible && selectedVehicleId == None
      ensures loading == old(loading) && error == old(error)
    {
      if !Truthy(selectedVehicleId) {
        return None;
      }
      var id := selectedVehicleId.value;
      if deleted {
        vehicles := Without(vehicles, VehicleId, id);
        toast := Some(("success", "Vehicle deleted successfully."));
      } else {
        toast := Some(("error", "Could not delete vehicle. Please try again."));
      }
      dialogVisible := false;
      selectedVehicleId := None;
    }
  }

  /** Pressing the trash control of a rejected card and confirming removes
      that vehicle; a second confirm finds no selection and does nothing. */
  method DeleteRejectedVehicle(vs: seq<Vehicle>, k: int)
    requires UniqueIds(vs) && 0 <= k < |vs| && CardOf(vs[k]).deleteControl && vs[k].id != ""
  {
    var screen := new VehicleListScreen();
    var t := screen.Fetch(FetchReply(200, vs));
    screen.DeletePress(vs[k].id);
    t := screen.ConfirmDelete(true);
    DeletesOnlyTheRejected(vs, k);
    assert vs[k] !in screen.vehicles && |screen.vehicles| == |vs| - 1;
    assert !screen.dialogVisible && screen.selectedVehicleId == None;
    var before := screen.vehicles;
    t := screen.ConfirmDelete(true);
    assert t == None && screen.vehicles == before;
  }
}
