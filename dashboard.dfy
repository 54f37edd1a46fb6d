/**
 * The operational dashboard around the scheduler: the slots already booked
 * on a day, the doctor picked by name, and the low-stock panel.
 */
module Dashboard {
  import opened Wrappers
  import opened Model
  import opened Seqs
  import InventoryView
  import Stock

  // -------------------------------------------------------------- bookings

  /** `bookedSlots`: the times of the confirmed requests dated on the selected day. */
  function BookedSlots(requests: seq<AppointmentRequest>, dateStr: string): (r: set<string>)
    ensures forall t :: t in r <==> exists a :: (a in requests && a.status == Confirmed &&
      a.appointmentDate == Some(dateStr) && a.appointmentTime == Some(t))
  {
    set a | a in requests && a.status == Confirmed && a.appointmentDate == Some(dateStr) && a.appointmentTime.Some?
      :: a.appointmentTime.value
  }

  /** Position k holds the first doctor with the name. */
  predicate FirstNamed(doctors: seq<Doctor>, k: int, name: string)
  {
    0 <= k < |doctors| && doctors[k].name == name && forall j :: 0 <= j < k ==> doctors[j].name != name
  }

  /** `doctors.find(d => d.name === name)`. */
  function FindDoctorByName(doctors: seq<Doctor>, name: string): (r: Option<Doctor>)
    ensures r.Some? ==> r.value in doctors && r.value.name == name
    ensures r.Some? ==> exists k :: FirstNamed(doctors, k, name) && doctors[k] == r.value
    ensures r.None? ==> forall d :: d in doctors ==> d.name != name
  {
    match IndexOf(doctors, (d: Doctor) => d.name == name)
    case None => None
    case Some(k) => Some(doctors[k])
  }

  // ------------------------------------------------------------- low stock

  predicate IsLowStockItem(it: Item)
  {
    0 < Stock.TotalStock(it.batches) <= it.reorderLevel
  }

  /** `lowStockItems`: the items with some stock, but no more than their reorder level. */
  function LowStockItems(inventory: seq<Item>): (r: seq<Item>)
    ensures forall it :: it in r <==> it in inventory && 0 < Stock.TotalStock(it.batches) <= it.reorderLevel
  {
    Filter(inventory, IsLowStockItem)
  }

  /** The dashboard's low-stock panel and the inventory screen's "Low Stock" filter agree. */
  lemma LowStockAgrees(inventory: seq<Item>, it: Item, now: string, threshold: string)
    requires it in inventory
    ensures it in LowStockItems(inventory) <==> InventoryView.LowStock(InventoryView.Process(it, now, threshold))
  {
  }
}
