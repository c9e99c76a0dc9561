/**
 * The hardware app's models: categories, hardware, orders and their line
 * items, and the availability figures that the annotated manager attaches to
 * every hardware row.
 *
 * The database is a value of type Store, one map per table keyed by primary
 * key. The two annotations of AnnotatedHardwareManager.get_queryset are the
 * functions QuantityCheckedOut and QuantityRemaining; Hardware.refresh_from_db
 * is the method Hardware.RefreshFromDb, which copies them onto an instance.
 */
module HardwareModels {
  import opened Wrappers

  type CategoryId = nat
  type HardwareId = nat
  type OrderId = nat
  type ItemId = nat
  type TeamId = nat

  /** Order.STATUS_CHOICES: "Cart", "Submitted", "Ready for Pickup", "Picked Up". */
  datatype Status = Cart | Submitted | ReadyForPickup | PickedUp

  /** OrderItem.HEALTH_CHOICES: "Healthy", "Heavily Used", "Broken", "Lost". */
  datatype Health = Healthy | HeavilyUsed | Broken | Lost

  /** A Category row; max_per_team is nullable and is not enforced anywhere in this app. */
  datatype Category = Category(name: string, maxPerTeam: Option<int>)

  /** The stored columns of a Hardware row (picture and timestamps are left out). */
  datatype HardwareRow = HardwareRow(
    name: string,
    modelNumber: string,
    manufacturer: string,
    datasheet: string,
    quantityAvailable: int,
    notes: Option<string>,
    maxPerTeam: Option<int>)

  /** An Order row; a new order's status is "Cart" (the field default). */
  datatype Order = Order(team: TeamId, status: Status)

  /** An OrderItem row: one unit of one hardware in one order; part_returned_health is nullable. */
  datatype OrderItem = OrderItem(order: OrderId, hardware: HardwareId, partReturnedHealth: Option<Health>)

  /** The tables of the app; hardwareCategories is the many-to-many Hardware.categories. */
  datatype Store = Store(
    categories: map<CategoryId, Category>,
    hardware: map<HardwareId, HardwareRow>,
    hardwareCategories: set<(HardwareId, CategoryId)>,
    orders: map<OrderId, Order>,
    items: map<ItemId, OrderItem>)

  /** The non-null foreign keys of OrderItem refer to existing rows. */
  ghost predicate Consistent(db: Store)
  {
    forall i :: i in db.items ==> db.items[i].order in db.orders && db.items[i].hardware in db.hardware
  }

  // ---------------------------------------------------------------------------
  // The annotations of AnnotatedHardwareManager.get_queryset
  // ---------------------------------------------------------------------------

  /**
   * The filter of the quantity_checked_out Count: the returned health is NULL
   * and the item's order does not have status "Cart". The negated condition
   * is written as SQL evaluates it over the outer join, so that an item whose
   * order row were missing would count; under Consistent the order always
   * exists and this reads "status is not Cart".
   */
  predicate IsLive(db: Store, i: ItemId)
    requires i in db.items
    ensures IsLive(db, i) ==> db.items[i].partReturnedHealth.None?
    ensures db.items[i].order !in db.orders ==> (IsLive(db, i) <==> db.items[i].partReturnedHealth.None?)
  {
    var item := db.items[i];
    item.partReturnedHealth.None? && !(item.order in db.orders && db.orders[item.order].status == Cart)
  }

  /** The order items that reference hardware h. */
  function ItemsOf(db: Store, h: HardwareId): set<ItemId>
  {
    set i | i in db.items && db.items[i].hardware == h
  }

  /**
   * The distinct order items of h that pass the Count filter; a set of item
   * ids, so each item is counted at most once.
   */
  function LiveItems(db: Store, h: HardwareId): (live: set<ItemId>)
    ensures live <= ItemsOf(db, h)
  {
    set i | i in db.items && db.items[i].hardware == h && IsLive(db, i)
  }

  /** The quantity_checked_out annotation. */
  function QuantityCheckedOut(db: Store, h: HardwareId): (n: nat)
    ensures n <= |ItemsOf(db, h)|
  {
    SubsetCardinality(LiveItems(db, h), ItemsOf(db, h));
    |LiveItems(db, h)|
  }

  /** The quantity_remaining annotation: plain subtraction, not clamped at zero. */
  function QuantityRemaining(db: Store, h: HardwareId): (r: int)
    requires h in db.hardware
    ensures r + QuantityCheckedOut(db, h) == db.hardware[h].quantityAvailable
    ensures db.hardware[h].quantityAvailable - |ItemsOf(db, h)| <= r <= db.hardware[h].quantityAvailable
  {
    db.hardware[h].quantityAvailable - QuantityCheckedOut(db, h)
  }

  lemma SubsetCardinality<T>(a: set<T>, b: set<T>)
    requires a <= b
    ensures |a| <= |b|
  {
    assert b == a + (b - a);
  }

  /** A hardware row of the annotated queryset, with its two annotations. */
  datatype AnnotatedHardware = AnnotatedHardware(row: HardwareRow, quantityCheckedOut: int, quantityRemaining: int)

  /**
   * AnnotatedHardwareManager.get_queryset: every hardware row, annotated.
   * The checked-out count never exceeds the number of order items that
   * reference the hardware, and the remaining count is the stock minus it.
   */
  function AnnotatedQueryset(db: Store): (qs: map<HardwareId, AnnotatedHardware>)
    ensures qs.Keys == db.hardware.Keys
    ensures forall h :: h in qs ==>
      qs[h].row == db.hardware[h] &&
      qs[h].quantityCheckedOut == |LiveItems(db, h)| &&
      0 <= qs[h].quantityCheckedOut <= |ItemsOf(db, h)| &&
      qs[h].quantityRemaining == db.hardware[h].quantityAvailable - qs[h].quantityCheckedOut
  {
    map h | h in db.hardware :: AnnotatedHardware(db.hardware[h], QuantityCheckedOut(db, h), QuantityRemaining(db, h))
  }

  // ---------------------------------------------------------------------------
  // Row updates that the availability figures react to
  // ---------------------------------------------------------------------------

  /** An update of one item's part_returned_health column: the unit came back in the given health. */
  function RecordReturn(db: Store, i: ItemId, health: Health): (db': Store)
    requires i in db.items
    ensures db'.items.Keys == db.items.Keys
    ensures db'.items[i].partReturnedHealth == Some(health)
    ensures db'.items[i].order == db.items[i].order && db'.items[i].hardware == db.items[i].hardware
    ensures forall j :: j in db.items && j != i ==> db'.items[j] == db.items[j]
    ensures db'.orders == db.orders && db'.hardware == db.hardware
  {
    db.(items := db.items[i := db.items[i].(partReturnedHealth := Some(health))])
  }

  /** An update of one order's status column. */
  function SetStatus(db: Store, o: OrderId, status: Status): (db': Store)
    requires o in db.orders
    ensures db'.orders.Keys == db.orders.Keys
    ensures db'.orders[o].status == status && db'.orders[o].team == db.orders[o].team
    ensures forall p :: p in db.orders && p != o ==> db'.orders[p] == db.orders[p]
    ensures db'.items == db.items && db'.hardware == db.hardware
  {
    db.(orders := db.orders[o := db.orders[o].(status := status)])
  }

  /** An Order created for a team with no status given takes the field default, "Cart". */
  function NewOrder(team: TeamId): (order: Order)
    ensures order.status == Cart && order.team == team
  {
    Order(team, Cart)
  }

  /** The insertion of a new Order row under the primary key the database assigns. */
  function CreateOrder(db: Store, o: OrderId, team: TeamId): (db': Store)
    requires o !in db.orders
    ensures db'.orders.Keys == db.orders.Keys + {o}
    ensures db'.orders[o].status == Cart && db'.orders[o].team == team
    ensures forall p :: p in db.orders ==> db'.orders[p] == db.orders[p]
    ensures db'.items == db.items && db'.hardware == db.hardware
  {
    db.(orders := db.orders[o := NewOrder(team)])
  }

  /** The insertion of a new, unreturned OrderItem row for hardware h in order o. */
  function AddItem(db: Store, i: ItemId, o: OrderId, h: HardwareId): (db': Store)
    requires i !in db.items
    ensures db'.items.Keys == db.items.Keys + {i}
    ensures db'.items[i] == OrderItem(o, h, None)
    ensures forall j :: j in db.items ==> db'.items[j] == db.items[j]
    ensures db'.orders == db.orders && db'.hardware == db.hardware
  {
    db.(items := db.items[i := OrderItem(o, h, None)])
  }

  /** The items of order o for hardware h whose returned health is still NULL. */
  function UnreturnedItems(db: Store, o: OrderId, h: HardwareId): set<ItemId>
  {
    set i | i in db.items && db.items[i].order == o && db.items[i].hardware == h && db.items[i].partReturnedHealth.None?
  }

  // ---------------------------------------------------------------------------
  // Properties of the derivation
  // ---------------------------------------------------------------------------

  /**
   * Each item contributes to at most one hardware's count, and it contributes
   * to its own hardware's count exactly when it has no returned health and
   * its order is not a cart.
   */
  lemma ItemContribution(db: Store, i: ItemId, h: HardwareId)
    requires Consistent(db) && i in db.items
    ensures i in LiveItems(db, h) <==>
      db.items[i].hardware == h &&
      db.items[i].partReturnedHealth.None? &&
      db.orders[db.items[i].order].status != Cart
  {
  }

  /** An item of a cart order never counts, whatever its health. */
  lemma CartItemsNeverCount(db: Store, i: ItemId, h: HardwareId)
    requires i in db.items && db.items[i].order in db.orders && db.orders[db.items[i].order].status == Cart
    ensures i !in LiveItems(db, h)
  {
  }

  /** An item with any returned health never counts, whatever its order's status. */
  lemma ReturnedItemsNeverCount(db: Store, i: ItemId, h: HardwareId)
    requires i in db.items && db.items[i].partReturnedHealth.Some?
    ensures i !in LiveItems(db, h)
  {
  }

  /** quantity_remaining is not clamped: a hardware with no stock and one unit out has -1 remaining. */
  lemma RemainingCanBeNegative()
    ensures var db := Store(map[], map[0 := HardwareRow("Arduino", "A000066", "Arduino", "", 0, None, None)], {},
                            map[0 := Order(0, Submitted)], map[0 := OrderItem(0, 0, None)]);
            QuantityCheckedOut(db, 0) == 1 && QuantityRemaining(db, 0) == -1
  {
    var db := Store(map[], map[0 := HardwareRow("Arduino", "A000066", "Arduino", "", 0, None, None)], {},
                    map[0 := Order(0, Submitted)], map[0 := OrderItem(0, 0, None)]);
    assert LiveItems(db, 0) == {0};
  }

  /**
   * Recording a returned health on a live item of h frees exactly one unit of
   * h and changes no other hardware's figures.
   */
  lemma {:induction false} ReturnFreesOneUnit(db: Store, i: ItemId, health: Health)
    requires i in db.items && IsLive(db, i)
    ensures var h := db.items[i].hardware;
      QuantityCheckedOut(RecordReturn(db, i, health), h) == QuantityCheckedOut(db, h) - 1 &&
      (h in db.hardware ==> QuantityRemaining(RecordReturn(db, i, health), h) == QuantityRemaining(db, h) + 1)
    ensures forall g :: g != db.items[i].hardware ==>
      QuantityCheckedOut(RecordReturn(db, i, health), g) == QuantityCheckedOut(db, g)
  {
    var db' := RecordReturn(db, i, health);
    var h := db.items[i].hardware;
    assert LiveItems(db', h) == LiveItems(db, h) - {i};
    forall g | g != h ensures QuantityCheckedOut(db', g) == QuantityCheckedOut(db, g) {
      assert LiveItems(db', g) == LiveItems(db, g);
    }
  }

  /** Recording a returned health on an item that is not live changes no figure. */
  lemma {:induction false} ReturnOfIdleItemIsNeutral(db: Store, i: ItemId, health: Health, h: HardwareId)
    requires i in db.items && !IsLive(db, i)
    ensures QuantityCheckedOut(RecordReturn(db, i, health), h) == QuantityCheckedOut(db, h)
  {
    assert LiveItems(RecordReturn(db, i, health), h) == LiveItems(db, h);
  }

  /**
   * Moving an order out of "Cart" raises each hardware's checked-out count by
   * the number of that order's unreturned items of it.
   */
  lemma {:induction false} LeavingCartCommitsItems(db: Store, o: OrderId, status: Status, h: HardwareId)
    requires o in db.orders && db.orders[o].status == Cart && status != Cart
    ensures QuantityCheckedOut(SetStatus(db, o, status), h) == QuantityCheckedOut(db, h) + |UnreturnedItems(db, o, h)|
  {
    var db' := SetStatus(db, o, status);
    assert LiveItems(db', h) == LiveItems(db, h) + UnreturnedItems(db, o, h);
    assert LiveItems(db, h) !! UnreturnedItems(db, o, h);
  }

  /** A change among "Submitted", "Ready for Pickup" and "Picked Up" leaves every figure as it was. */
  lemma {:induction false} StatusChangeAfterCartIsNeutral(db: Store, o: OrderId, status: Status, h: HardwareId)
    requires o in db.orders && db.orders[o].status != Cart && status != Cart
    ensures QuantityCheckedOut(SetStatus(db, o, status), h) == QuantityCheckedOut(db, h)
  {
    assert LiveItems(SetStatus(db, o, status), h) == LiveItems(db, h);
  }

  /**
   * A new order takes the default status "Cart", so creating it and adding
   * an item to it leaves every hardware's figures unchanged.
   */
  lemma {:induction false} NewOrderIsNeutral(db: Store, o: OrderId, team: TeamId, i: ItemId, hw: HardwareId, h: HardwareId)
    requires Consistent(db) && o !in db.orders && i !in db.items
    ensures QuantityCheckedOut(AddItem(CreateOrder(db, o, team), i, o, hw), h) == QuantityCheckedOut(db, h)
  {
    var db' := AddItem(CreateOrder(db, o, team), i, o, hw);
    assert LiveItems(db', h) == LiveItems(db, h);
  }

  /** An item added to an order that is still a cart leaves every hardware's figures unchanged. */
  lemma {:induction false} CartItemIsNeutral(db: Store, i: ItemId, o: OrderId, hw: HardwareId, h: HardwareId)
    requires i !in db.items && o in db.orders && db.orders[o].status == Cart
    ensures QuantityCheckedOut(AddItem(db, i, o, hw), h) == QuantityCheckedOut(db, h)
  {
    assert LiveItems(AddItem(db, i, o, hw), h) == LiveItems(db, h);
  }

  // ---------------------------------------------------------------------------
  // Hardware instances and refresh_from_db
  // ---------------------------------------------------------------------------

  /** The concrete columns that refresh_from_db(fields=...) can name. */
  datatype Field = Name | ModelNumber | Manufacturer | Datasheet | QuantityAvailable | Notes | MaxPerTeam

  /** The names in Hardware.Config.annotated_fields. */
  datatype Annotation = QuantityCheckedOutAnnotation | QuantityRemainingAnnotation

  /** Hardware.Config.annotated_fields, in its order. */
  const AnnotatedFields: seq<Annotation> := [QuantityCheckedOutAnnotation, QuantityRemainingAnnotation]

  /** The value of one column of a row. */
  datatype ColumnValue = Text(text: string) | Number(number: int) | OptionalText(maybeText: Option<string>) | OptionalNumber(maybeNumber: Option<int>)

  /** getattr(row, f) for a concrete column. */
  function Column(r: HardwareRow, f: Field): ColumnValue
  {
    match f
    case Name => Text(r.name)
    case ModelNumber => Text(r.modelNumber)
    case Manufacturer => Text(r.manufacturer)
    case Datasheet => Text(r.datasheet)
    case QuantityAvailable => Number(r.quantityAvailable)
    case Notes => OptionalText(r.notes)
    case MaxPerTeam => OptionalNumber(r.maxPerTeam)
  }

  /** Whether a reload with the given field list reloads f; no list means every column. */
  predicate Reloads(fields: Option<set<Field>>, f: Field)
  {
    fields.None? || f in fields.value
  }

  /**
   * The columns an instance holds after the model's own refresh_from_db:
   * the stored value of each reloaded column, the current value of the rest.
   */
  function Reload(current: HardwareRow, stored: HardwareRow, fields: Option<set<Field>>): (r: HardwareRow)
    ensures fields.None? ==> r == stored
    ensures fields == Some({}) ==> r == current
    ensures forall f :: Column(r, f) == if Reloads(fields, f) then Column(stored, f) else Column(current, f)
  {
    HardwareRow(
      if Reloads(fields, Name) then stored.name else current.name,
      if Reloads(fields, ModelNumber) then stored.modelNumber else current.modelNumber,
      if Reloads(fields, Manufacturer) then stored.manufacturer else current.manufacturer,
      if Reloads(fields, Datasheet) then stored.datasheet else current.datasheet,
      if Reloads(fields, QuantityAvailable) then stored.quantityAvailable else current.quantityAvailable,
      if Reloads(fields, Notes) then stored.notes else current.notes,
      if Reloads(fields, MaxPerTeam) then stored.maxPerTeam else current.maxPerTeam)
  }

  /** getattr(db_instance, name) for an annotated name. */
  function AnnotationOf(a: AnnotatedHardware, name: Annotation): int
  {
    match name
    case QuantityCheckedOutAnnotation => a.quantityCheckedOut
    case QuantityRemainingAnnotation => a.quantityRemaining
  }

  /** What refresh_from_db reports: it either refreshed or the row no longer exists. */
  datatype RefreshOutcome = Refreshed | DoesNotExist

  /** A Hardware model instance: its primary key, its loaded columns and its two annotations. */
  class Hardware {
    const pk: HardwareId
    var row: HardwareRow
    var quantityCheckedOut: int
    var quantityRemaining: int

    /** An instance fetched through Hardware.objects, which carries the annotations. */
    constructor FromQueryset(db: Store, pk: HardwareId)
      requires pk in db.hardware
      ensures this.pk == pk && row == db.hardware[pk]
      ensures quantityCheckedOut == QuantityCheckedOut(db, pk) && quantityRemaining == QuantityRemaining(db, pk)
    {
      var a := AnnotatedQueryset(db)[pk];
      this.pk := pk;
      row := a.row;
      quantityCheckedOut := a.quantityCheckedOut;
      quantityRemaining := a.quantityRemaining;
    }

    /** getattr(self, name) for an annotated name. */
    function Annotated(name: Annotation): int
      reads this
    {
      match name
      case QuantityCheckedOutAnnotation => quantityCheckedOut
      case QuantityRemainingAnnotation => quantityRemaining
    }

    /** setattr(self, name, value) for an annotated name. */
    method SetAnnotated(name: Annotation, value: int)
      modifies this
      ensures Annotated(name) == value
      ensures forall other :: other != name ==> Annotated(other) == old(Annotated(other))
      ensures row == old(row)
    {
      match name
      case QuantityCheckedOutAnnotation => quantityCheckedOut := value;
      case QuantityRemainingAnnotation => quantityRemaining := value;
    }

    /**
     * Hardware.refresh_from_db: reload the columns (all of them, or those
     * named), then fetch the row again through the annotated queryset and
     * copy each annotated name onto the instance. A primary key that no
     * longer exists raises DoesNotExist before anything is changed.
     */
    method RefreshFromDb(db: Store, fields: Option<set<Field>>) returns (outcome: RefreshOutcome)
      modifies this
      ensures outcome == DoesNotExist <==> pk !in db.hardware
      ensures outcome == DoesNotExist ==>
        row == old(row) && quantityCheckedOut == old(quantityCheckedOut) && quantityRemaining == old(quantityRemaining)
      ensures outcome == Refreshed ==>
        row == Reload(old(row), db.hardware[pk], fields) &&
        quantityCheckedOut == QuantityCheckedOut(db, pk) &&
        quantityRemaining == QuantityRemaining(db, pk)
    {
      if pk !in db.hardware {
        return DoesNotExist;
      }
      row := Reload(row, db.hardware[pk], fields);
      var dbInstance := AnnotatedQueryset(db)[pk];
      for k := 0 to |AnnotatedFields|
        invariant row == Reload(old(row), db.hardware[pk], fields)
        invariant forall j :: 0 <= j < k ==> Annotated(AnnotatedFields[j]) == AnnotationOf(dbInstance, AnnotatedFields[j])
      {
        var name := AnnotatedFields[k];
        SetAnnotated(name, AnnotationOf(dbInstance, name));
      }
      assert Annotated(AnnotatedFields[0]) == dbInstance.quantityCheckedOut;
      assert Annotated(AnnotatedFields[1]) == dbInstance.quantityRemaining;
      outcome := Refreshed;
    }
  }

  /**
   * A client of the model: an instance loaded before a unit of its hardware
   * is returned keeps the old remaining count until it is refreshed, and
   * shows one more unit remaining afterwards.
   */
  method RemainingAfterReturn(db: Store, i: ItemId, health: Health) returns (before: int, stale: int, after: int)
    requires i in db.items && IsLive(db, i) && db.items[i].hardware in db.hardware
    ensures stale == before && after == before + 1
  {
    var hw := new Hardware.FromQueryset(db, db.items[i].hardware);
    before := hw.quantityRemaining;
    var db' := RecordReturn(db, i, health);
    stale := hw.quantityRemaining;
    var outcome := hw.RefreshFromDb(db', None);
    after := hw.quantityRemaining;
    ReturnFreesOneUnit(db, i, health);
  }
}
